/** The status-change handler: an order whose status leaves "processing" for
    anything but "completed" while it carries both tracking values is forced
    to "completed" instead. */
module StatusRule {
  import opened Wrappers
  import opened Php
  import opened Host

  const Processing: string := "processing"
  const Completed: string := "completed"
  /** The order note written with the forced transition (untranslated text). */
  const AuditNote: string := "Order marked as completed due to tracking information added."

  /** An `update_status($status, $note)` call requested by the handler. */
  datatype StatusRequest = StatusRequest(status: string, note: string)

  /** `handle_tracking_on_status_change` for an event (old status, new status)
      on an order whose metadata is `o.meta`: the transition it requests, if any. */
  function Decide(o: Order, oldStatus: string, newStatus: string): (r: Option<StatusRequest>)
    ensures r.Some? <==>
      && NumberKey in o.meta && o.meta[NumberKey] !in {"", "0"}
      && LinkKey in o.meta && o.meta[LinkKey] !in {"", "0"}
      && oldStatus == Processing && newStatus != Completed
    ensures r.Some? ==> r.value == StatusRequest(Completed, AuditNote)
    ensures newStatus == Completed ==> r.None?
  {
    if HasTracking(o) && oldStatus == Processing && newStatus != Completed then
      Some(StatusRequest(Completed, AuditNote))
    else
      None
  }

  /** The order after a status change, with the order notes the handler added. */
  datatype Outcome = Outcome(order: Order, notes: seq<string>)

  /** `$order->update_status(s)` as the host performs it: setting the status an
      order already has records no transition and fires no event; otherwise the
      status is set, the status-changed event fires with the previous and the
      new status, and the handler runs on it. A transition the handler requests
      is again an `update_status` call, with its note appended to `notes`. */
  function SetStatus(o: Order, s: string, notes: seq<string>): (r: Outcome)
    decreases if s == Completed then 0 else 1
    ensures r.order.meta == o.meta
    ensures s == o.status ==> r == Outcome(o, notes)
    ensures s == Completed ==> r == Outcome(o.(status := Completed), notes)
    ensures s != o.status && Decide(o, o.status, s).Some? ==>
      r == Outcome(o.(status := Completed), notes + [AuditNote])
    ensures s != o.status && Decide(o, o.status, s).None? ==> r == Outcome(o.(status := s), notes)
  {
    var changed := o.(status := s);
    if s == o.status then
      Outcome(o, notes)
    else
      match Decide(changed, o.status, s)
      case None => Outcome(changed, notes)
      case Some(req) => SetStatus(changed, req.status, notes + [req.note])
  }

  /** Whatever status an event sets, the handler forces at most one further
      transition, that transition is to "completed", and the follow-up event it
      causes can never fire the rule again. */
  lemma AtMostOneForcedTransition(o: Order, s: string)
    ensures var r := SetStatus(o, s, []);
      && |r.notes| <= 1
      && (r.order.status == s || r.order.status == Completed)
      && (r.notes != [] ==>
            r.order.status == Completed && forall prev :: Decide(r.order, prev, r.order.status).None?)
  {
  }

  /** Stored "" or "0", or a missing key, for either value never triggers the rule. */
  lemma BlankNeverTriggers(o: Order, oldStatus: string, newStatus: string)
    requires GetMeta(o, NumberKey) in {"", "0"} || GetMeta(o, LinkKey) in {"", "0"}
    ensures Decide(o, oldStatus, newStatus).None?
  {
  }

  /** The cases listed for the rule: processing to processing with tracking fires;
      processing to completed, pending to cancelled, and processing to refunded
      without tracking do not. */
  lemma RuleExamples(o: Order)
    requires HasTracking(o)
    ensures Decide(o, Processing, Processing) == Some(StatusRequest(Completed, AuditNote))
    ensures Decide(o, Processing, Completed).None?
    ensures Decide(o, "pending", "cancelled").None?
    ensures Decide(o.(meta := map[]), Processing, "refunded").None?
  {
  }
}
