# Witsberry order tracking — Dafny model

The Witsberry WooCommerce Order Tracking plugin stores a shipment tracking
number and tracking link on an order. It forces an order to "completed" when
it leaves "processing" while both values are present. It also shows the two
values in the completed-order email and on the customer's order page.

This project models that decision logic over an immutable order record
(`Host.Order`: a status plus a string-keyed metadata map):

- `TrackingSave` is the admin save handler. Each posted field (`$_POST`, a
  string map where a missing key means unset) is either stored after
  sanitizing or its metadata key is deleted. The choice follows PHP `empty()`:
  unset, `""` and `"0"` are empty.
- `StatusRule` is the status-change handler. `Decide` is the rule itself.
  `SetStatus` models `update_status` as the host performs it: set the status,
  fire the status-changed event, run the handler. So it also covers the
  follow-up event caused by the handler's own transition.
- `Fragments` is the output gating: whether the completed-order email and the
  order page emit a tracking fragment, and the exact text of the plain-text
  email lines.
- `Scenario` chains the handlers: save, then status change, then rendering.

The WordPress functions `sanitize_text_field`, `esc_url_raw`, `esc_html` and
`esc_url` are fields of `Host.WordPress`, which is an opaque `string -> string`
function per call. Every property holds for any choice of them.
`get_post_meta(..., true)` on a missing key reads as `""` (`Host.GetMeta`).
PHP string truthiness (`Php.Truthy`) treats exactly `""` and `"0"` as false.
It does not trim, so a stored `"  "` counts as present for the rule, the email
and the order page.

## Model

| member | source | states |
|---|---|---|
| TrackingSave.SaveField | witsberry-order-tracking.php:74-84 | one posted field: its key exists afterwards iff the posted value is non-empty in PHP's sense, then holds the sanitized value; status and every other key are unchanged |
| TrackingSave.SaveTrackingFields | witsberry-order-tracking.php:73-85 | the number key holds the stored form of `sanitize_text_field` of the posted number, or is absent when that is unset/""/"0"; likewise the link key with `esc_url_raw`; status and all other metadata unchanged |
| TrackingSave.SaveThenRead | witsberry-order-tracking.php:73-89 | after a save, reading each key back gives the sanitized posted value, or "" when the posted value was empty |
| TrackingSave.FieldsIndependent | witsberry-order-tracking.php:73-85 | the stored number depends only on the posted number, and the stored link only on the posted link; neither depends on the earlier store |
| TrackingSave.SaveIdempotent | witsberry-order-tracking.php:73-85 | saving the same form twice gives the same order as saving it once |
| TrackingSave.ClearBoth | witsberry-order-tracking.php:74-89 | posting both fields empty removes exactly the two tracking keys; both read back as ""; a second such save changes nothing |
| StatusRule.Decide | witsberry-order-tracking.php:87-94 | a transition is requested iff both stored values exist and are neither "" nor "0", the old status is "processing" and the new one is not "completed"; the request is always ("completed", audit note) |
| StatusRule.SetStatus | witsberry-order-tracking.php:91-93 | after a status change the metadata is unchanged; setting the current status again changes nothing; if the rule fires the order ends "completed" with exactly one audit note added; otherwise it keeps the status the event set and no note is added; an event to "completed" is never acted on |
| StatusRule.AtMostOneForcedTransition | witsberry-order-tracking.php:91-92 | any status change adds at most one audit note and ends in the requested status or "completed"; after a forced transition no event into the final status can fire the rule again |
| StatusRule.BlankNeverTriggers | witsberry-order-tracking.php:88-91 | a missing, "" or "0" number or link never triggers the rule, whatever the statuses |
| StatusRule.RuleExamples | witsberry-order-tracking.php:91 | with tracking present, processing to processing fires; processing to completed and pending to cancelled do not; without tracking, processing to refunded does not |
| Fragments.EmailFragment | witsberry-order-tracking.php:96-110 | a fragment is emitted iff the email id is `customer_completed_order` and both stored values are true in PHP; plain-text mode gives exactly `"Tracking Number: " + esc_html(n) + "\n" + "Tracking Link: " + esc_url(l) + "\n"`; rich mode carries the escaped number and link |
| Fragments.PageFragment | witsberry-order-tracking.php:118-128 | the order-page fragment is emitted iff both stored values are true in PHP, and carries the escaped number and link |
| Fragments.EmailMatchesPage | witsberry-order-tracking.php:96-128 | the rich completed-order email and the order page carry the same escaped number and link target under the same condition; the admin-recipient flag plays no part |
| Fragments.PlainTextIsTwoLines | witsberry-order-tracking.php:102-104 | when the escaped values contain no newline, the plain-text output splits into exactly the two labelled lines |
| Scenario.SaveThenHoldCompletes | witsberry-order-tracking.php:73-122 | a processing order given number "ABC123" and a link, then changed to "on-hold", ends "completed" with the audit note; both email modes and the order page then emit the tracking fragment |
| Host.HasTrackingIffStored | witsberry-order-tracking.php:88-91 | both tracking values read as true exactly when both keys are stored and neither holds "" or "0" |
| Scenario.PageAfterSave | witsberry-order-tracking.php:73-128 | right after a save, the order page shows tracking iff both posted fields were non-empty and both stored results are true in PHP, and it shows the escaped stored values |
| Scenario.HalfSavedNeverCompletes | witsberry-order-tracking.php:73-93 | after a save that leaves either field empty, a status change keeps the status the event set and adds no note |

## Left out

- The admin form markup (`add_tracking_fields`) and the rich HTML of the email and page fragments. `Fragments.Fragment.Rich` keeps only the escaped number and link target.
- Fragments.EmailMatchesPage: states only that the escaped values and the emission condition coincide. The page's markup differs from the email's: it adds a `witsberry-tracking-info` section wrapper and a `witsberry-tracking-link` class on the link, and neither is modelled.
- Host unslashing of posted data: WordPress slashes `$_POST`, and `update_post_meta` unslashes the value and runs the `sanitize_meta` filter before storing it. `Host.WordPress.sanitizeTextField` and `escUrlRaw` stand for that whole chain, so the stored value is their result, not `sanitize_text_field` of the raw posted text alone.
- Translation (`__`, `esc_html__`, `esc_html_e`). Labels and the audit note are the untranslated English strings; `esc_html__` of the fixed labels is taken as the label itself.
- Plugin lifecycle: the singleton, `init` hook registration, the `WooCommerce` class check and `enqueue_styles`.
- The host's own order state machine and persistence. `update_status` sets the status and fires the status-changed event only when the status actually changes, as WooCommerce's `set_status` records no transition otherwise. The host's other transition checks, its return value and its failures are not modelled. Persistence errors from `update_post_meta`/`delete_post_meta` are not modelled either; the source ignores both return values.
- Array-valued `$_POST` entries: posted values are strings only.
- Multiple values per metadata key: `update_post_meta` is modelled as an upsert of a single value.
