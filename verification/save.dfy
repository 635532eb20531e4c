/** The admin "save order" handler: each posted tracking field is either
    stored, after sanitizing, or its metadata key is deleted. */
module TrackingSave {
  import opened Php
  import opened Host

  /** Name of the posted tracking-number form field. */
  const NumberField: string := "tracking_number"
  /** Name of the posted tracking-link form field. */
  const LinkField: string := "tracking_link"

  /** One field of the form: delete the key when the posted value is empty in
      PHP's sense, otherwise store the sanitized value under it. */
  function SaveField(o: Order, posted: map<string, string>, field: string, key: string,
                     sanitize: string -> string): (r: Order)
    ensures r.status == o.status
    ensures key in r.meta <==> !EmptyAt(posted, field)
    ensures key in r.meta ==> r.meta[key] == sanitize(posted[field])
    ensures AgreeOutside(o.meta, r.meta, {key})
  {
    if !EmptyAt(posted, field) then UpdateMeta(o, key, sanitize(posted[field]))
    else DeleteMeta(o, key)
  }

  /** `save_tracking_fields`: the number is sanitized as plain text, the link as
      a URL; nothing but the two tracking keys is touched. */
  function SaveTrackingFields(o: Order, posted: map<string, string>, wp: WordPress): (r: Order)
    ensures r.status == o.status
    ensures NumberKey in r.meta <==> !EmptyAt(posted, NumberField)
    ensures NumberKey in r.meta ==> r.meta[NumberKey] == wp.sanitizeTextField(posted[NumberField])
    ensures LinkKey in r.meta <==> !EmptyAt(posted, LinkField)
    ensures LinkKey in r.meta ==> r.meta[LinkKey] == wp.escUrlRaw(posted[LinkField])
    ensures AgreeOutside(o.meta, r.meta, {NumberKey, LinkKey})
  {
    var o1 := SaveField(o, posted, NumberField, NumberKey, wp.sanitizeTextField);
    var r := SaveField(o1, posted, LinkField, LinkKey, wp.escUrlRaw);
    assert AgreeOutside(o.meta, r.meta, {NumberKey, LinkKey}) by {
      forall k | k !in {NumberKey, LinkKey}
        ensures SameEntry(o.meta, r.meta, k)
      {
        assert SameEntry(o.meta, o1.meta, k);
        assert SameEntry(o1.meta, r.meta, k);
      }
    }
    r
  }

  /** What a later `get_post_meta(..., true)` of each key returns after a save:
      the sanitized posted value, or "" when the posted value was empty. */
  lemma SaveThenRead(o: Order, posted: map<string, string>, wp: WordPress)
    ensures GetMeta(SaveTrackingFields(o, posted, wp), NumberKey)
            == if EmptyAt(posted, NumberField) then "" else wp.sanitizeTextField(posted[NumberField])
    ensures GetMeta(SaveTrackingFields(o, posted, wp), LinkKey)
            == if EmptyAt(posted, LinkField) then "" else wp.escUrlRaw(posted[LinkField])
  {
  }

  /** The two keys are decided independently: the stored number depends only on
      the posted number, the stored link only on the posted link, and neither
      depends on what was stored before. */
  lemma FieldsIndependent(o: Order, o': Order, p: map<string, string>, p': map<string, string>,
                          wp: WordPress)
    ensures SameEntry(p, p', NumberField) ==>
      SameEntry(SaveTrackingFields(o, p, wp).meta, SaveTrackingFields(o', p', wp).meta, NumberKey)
    ensures SameEntry(p, p', LinkField) ==>
      SameEntry(SaveTrackingFields(o, p, wp).meta, SaveTrackingFields(o', p', wp).meta, LinkKey)
  {
  }

  /** Submitting the same form twice leaves the order as submitting it once. */
  lemma SaveIdempotent(o: Order, posted: map<string, string>, wp: WordPress)
    ensures SaveTrackingFields(SaveTrackingFields(o, posted, wp), posted, wp)
            == SaveTrackingFields(o, posted, wp)
  {
  }

  /** Posting both fields empty (unset, "" or "0") clears the tracking data:
      both keys read back as "", every other key and the status are kept, and
      a second such save changes nothing. */
  lemma ClearBoth(o: Order, posted: map<string, string>, wp: WordPress)
    requires EmptyAt(posted, NumberField) && EmptyAt(posted, LinkField)
    ensures var r := SaveTrackingFields(o, posted, wp);
      && GetMeta(r, NumberKey) == "" && GetMeta(r, LinkKey) == ""
      && r.meta == o.meta - {NumberKey, LinkKey}
      && SaveTrackingFields(r, posted, wp) == r
  {
  }
}
