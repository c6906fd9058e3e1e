/** The `tec_events_custom_tables_v1_tracked_meta_keys` filter: updating a
    tracked meta key makes The Events Calendar refresh its custom tables. */
module TrackedMetaKeys {
  import opened Values
  import PostSave

  /** `modify_tracked_meta_keys`: the event origin key is appended at the end. */
  function ModifyTrackedMetaKeys(trackedKeys: seq<string>): (keys: seq<string>)
    ensures |keys| == |trackedKeys| + 1
    ensures keys[..|trackedKeys|] == trackedKeys
    ensures keys[|trackedKeys|] == "_EventOrigin"
  {
    trackedKeys + ["_EventOrigin"]
  }

  /** The appended key is the origin meta key stamped on imported events, so
      stamping an event's origin refreshes its custom-table entries. */
  lemma AppendedKeyIsEventOrigin(trackedKeys: seq<string>)
    ensures PostSave.DescriptorFor(Some(Event)).Some?
    ensures ModifyTrackedMetaKeys(trackedKeys)[|trackedKeys|]
            == PostSave.DescriptorFor(Some(Event)).value.originMetaKey
  {
  }
}
