/** The decision to show tracking details in the completed-order email and on
    the customer's order page, and the exact plain-text email lines. */
module Fragments {
  import opened Wrappers
  import opened Php
  import opened Host

  /** Identifier of the email sent when an order becomes completed. */
  const CompletedEmailId: string := "customer_completed_order"
  const NumberLabel: string := "Tracking Number: "
  const LinkLabel: string := "Tracking Link: "

  /** An emitted tracking fragment: plain-text email output, or the rich
      markup, of which only the escaped number and link target are kept. */
  datatype Fragment = PlainText(text: string) | Rich(number: string, href: string)

  /** The rich fragment of an order: the HTML-escaped number and the escaped link target. */
  function RichOf(o: Order, wp: WordPress): Fragment
  {
    Rich(wp.escHtml(GetMeta(o, NumberKey)), wp.escUrl(GetMeta(o, LinkKey)))
  }

  /** `add_tracking_to_email`: output only for the completed-order email and
      only when both tracking values count as true; the recipient flag plays
      no part. */
  function EmailFragment(o: Order, sentToAdmin: bool, plainText: bool, emailId: string,
                         wp: WordPress): (r: Option<Fragment>)
    ensures r.Some? <==>
      emailId == CompletedEmailId && HasTracking(o)
    ensures r.Some? && plainText ==>
      r.value == PlainText(NumberLabel + wp.escHtml(o.meta[NumberKey]) + "\n"
                           + LinkLabel + wp.escUrl(o.meta[LinkKey]) + "\n")
    ensures r.Some? && !plainText ==>
      r.value == Rich(wp.escHtml(o.meta[NumberKey]), wp.escUrl(o.meta[LinkKey]))
  {
    if emailId == CompletedEmailId && HasTracking(o) then
      if plainText then
        Some(PlainText(NumberLabel + wp.escHtml(GetMeta(o, NumberKey)) + "\n"
                       + LinkLabel + wp.escUrl(GetMeta(o, LinkKey)) + "\n"))
      else
        Some(RichOf(o, wp))
    else
      None
  }

  /** `display_tracking_info`: the order-page fragment, shown exactly when both
      tracking values count as true. */
  function PageFragment(o: Order, wp: WordPress): (r: Option<Fragment>)
    ensures r.Some? <==> HasTracking(o)
    ensures r.Some? ==> r.value == Rich(wp.escHtml(o.meta[NumberKey]), wp.escUrl(o.meta[LinkKey]))
  {
    if HasTracking(o) then Some(RichOf(o, wp)) else None
  }

  /** The rich completed-order email and the order page show the same escaped
      number and link target under the same condition, whoever the email is
      sent to. Their markup differs (the page adds a section wrapper and a
      link class) and is not part of `Fragment`. */
  lemma EmailMatchesPage(o: Order, sentToAdmin: bool, wp: WordPress)
    ensures EmailFragment(o, sentToAdmin, false, CompletedEmailId, wp) == PageFragment(o, wp)
  {
  }

  /** Position of the first newline of `s`, or `|s|` when it has none. */
  function FirstNewline(s: string): (i: nat)
    ensures i <= |s|
    ensures i < |s| ==> s[i] == '\n'
    ensures forall j :: 0 <= j < i ==> s[j] != '\n'
  {
    if s == [] then 0
    else if s[0] == '\n' then 0
    else 1 + FirstNewline(s[1..])
  }

  /** The lines of a text: pieces separated by newlines, where a final newline
      ends the last line rather than starting an empty one. */
  function Lines(s: string): seq<string>
    decreases |s|
  {
    if s == [] then []
    else
      var i := FirstNewline(s);
      if i == |s| then [s] else [s[..i]] + Lines(s[i + 1..])
  }

  /** A newline-free line followed by a newline is the first line of the text. */
  lemma LinesOfTerminated(a: string, rest: string)
    requires '\n' !in a
    ensures Lines(a + "\n" + rest) == [a] + Lines(rest)
  {
    var s := a + "\n" + rest;
    var i := FirstNewline(s);
    assert s[|a|] == '\n';
    assert i == |a|;
    assert s[..i] == a;
    assert s[i + 1..] == rest;
  }

  /** When the escaped values contain no newline, the plain-text email output
      is exactly two lines: the labelled number and the labelled link. */
  lemma PlainTextIsTwoLines(o: Order, sentToAdmin: bool, wp: WordPress)
    requires HasTracking(o)
    requires '\n' !in wp.escHtml(GetMeta(o, NumberKey))
    requires '\n' !in wp.escUrl(GetMeta(o, LinkKey))
    ensures var r := EmailFragment(o, sentToAdmin, true, CompletedEmailId, wp);
      r.Some? && r.value.PlainText?
      && Lines(r.value.text)
         == [NumberLabel + wp.escHtml(GetMeta(o, NumberKey)), LinkLabel + wp.escUrl(GetMeta(o, LinkKey))]
  {
    var first := NumberLabel + wp.escHtml(GetMeta(o, NumberKey));
    var second := LinkLabel + wp.escUrl(GetMeta(o, LinkKey));
    assert '\n' !in first by {
      assert forall k :: 0 <= k < |NumberLabel| ==> NumberLabel[k] != '\n';
    }
    assert '\n' !in second by {
      assert forall k :: 0 <= k < |LinkLabel| ==> LinkLabel[k] != '\n';
    }
    var text := EmailFragment(o, sentToAdmin, true, CompletedEmailId, wp).value.text;
    assert text == first + "\n" + (second + "\n" + "");
    LinesOfTerminated(first, second + "\n" + "");
    LinesOfTerminated(second, "");
  }
}
