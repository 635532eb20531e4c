/** What the plugin sees of its host: an order record with a status and a
    string-keyed metadata store, the metadata calls, the status update, and
    the sanitizing and escaping functions, which are supplied as opaque
    string functions. */
module Host {
  import opened Php

  /** An order as the plugin observes it: its lifecycle status and its
      single-valued post metadata. */
  datatype Order = Order(status: string, meta: map<string, string>)

  /** Metadata key of the tracking number. */
  const NumberKey: string := "_tracking_number"
  /** Metadata key of the tracking link. */
  const LinkKey: string := "_tracking_link"

  /** `get_post_meta($id, $key, true)`: the stored value, or "" when the key is missing. */
  function GetMeta(o: Order, key: string): string
  {
    if key in o.meta then o.meta[key] else ""
  }

  /** `update_post_meta`: insert or overwrite one key with the value the host
      stores (see `WordPress` for how that value relates to the posted one). */
  function UpdateMeta(o: Order, key: string, value: string): Order
  {
    o.(meta := o.meta[key := value])
  }

  /** `delete_post_meta`: remove one key; a missing key is left missing. */
  function DeleteMeta(o: Order, key: string): Order
  {
    o.(meta := o.meta - {key})
  }

  /** The WordPress library functions the plugin calls on user data. Their
      definitions are not part of this model; every property below holds for
      any choice of them. `sanitizeTextField` and `escUrlRaw` stand for the
      value as the host finally stores it: the sanitizer's result, after
      `update_post_meta` has also unslashed it and passed it through the
      `sanitize_meta` filter. */
  datatype WordPress = WordPress(
    sanitizeTextField: string -> string,
    escUrlRaw: string -> string,
    escHtml: string -> string,
    escUrl: string -> string)

  /** Both tracking values of the order count as true in PHP: the one test
      the status rule, the email and the order page all make. */
  predicate HasTracking(o: Order)
  {
    Truthy(GetMeta(o, NumberKey)) && Truthy(GetMeta(o, LinkKey))
  }

  /** Reading a missing key as "" makes "true when read" the same as "stored,
      and neither "" nor "0"". */
  lemma HasTrackingIffStored(o: Order)
    ensures HasTracking(o) <==>
      && NumberKey in o.meta && o.meta[NumberKey] !in {"", "0"}
      && LinkKey in o.meta && o.meta[LinkKey] !in {"", "0"}
  {
  }

  /** Key `k` has the same entry in both stores: present in both with one
      value, or present in neither. */
  ghost predicate SameEntry(m: map<string, string>, m': map<string, string>, k: string)
  {
    (k in m <==> k in m') && (k in m ==> m[k] == m'[k])
  }

  /** Two metadata stores differ at most on the keys in `keys`. */
  ghost predicate AgreeOutside(m: map<string, string>, m': map<string, string>, keys: set<string>)
  {
    forall k :: k !in keys ==> SameEntry(m, m', k)
  }
}
