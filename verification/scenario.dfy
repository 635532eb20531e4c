/** The handlers in sequence: an admin save followed by status changes and the
    rendering of the completed-order email and the order page. */
module Scenario {
  import opened Php
  import opened Host
  import opened TrackingSave
  import opened StatusRule
  import opened Fragments

  /** An order in "processing" gets a tracking number and link; a later change
      to "on-hold" ends in "completed" with the audit note, and both the
      completed-order email and the order page then show the tracking details.
      The sanitizers are arbitrary, except that they keep these two inputs true. */
  lemma SaveThenHoldCompletes(meta: map<string, string>, wp: WordPress)
    requires Truthy(wp.sanitizeTextField("ABC123"))
    requires Truthy(wp.escUrlRaw("https://carrier.example/ABC123"))
    ensures var saved := SaveTrackingFields(Order(Processing, meta),
                           map[NumberField := "ABC123", LinkField := "https://carrier.example/ABC123"], wp);
      var out := SetStatus(saved, "on-hold", []);
      && out.order.status == Completed
      && out.notes == [AuditNote]
      && out.order.meta == saved.meta
      && EmailFragment(out.order, false, false, CompletedEmailId, wp).Some?
      && EmailFragment(out.order, false, true, CompletedEmailId, wp).Some?
      && PageFragment(out.order, wp).Some?
  {
  }

  /** A save that leaves either field empty can never lead the next status
      change to force completion, whatever the statuses involved. */
  lemma HalfSavedNeverCompletes(o: Order, posted: map<string, string>, wp: WordPress,
                                s: string)
    requires EmptyAt(posted, NumberField) || EmptyAt(posted, LinkField)
    ensures var saved := SaveTrackingFields(o, posted, wp);
      SetStatus(saved, s, []) == Outcome(saved.(status := s), [])
  {
  }

  /** Right after a save, the order page shows tracking exactly when both
      posted fields were non-empty and both stored results are still true in
      PHP; it then shows the escaped stored values. */
  lemma PageAfterSave(o: Order, posted: map<string, string>, wp: WordPress)
    ensures var page := PageFragment(SaveTrackingFields(o, posted, wp), wp);
      && (page.Some? <==>
            && !EmptyAt(posted, NumberField) && Truthy(wp.sanitizeTextField(posted[NumberField]))
            && !EmptyAt(posted, LinkField) && Truthy(wp.escUrlRaw(posted[LinkField])))
      && (page.Some? ==>
            page.value == Rich(wp.escHtml(wp.sanitizeTextField(posted[NumberField])),
                               wp.escUrl(wp.escUrlRaw(posted[LinkField]))))
  {
  }
}
