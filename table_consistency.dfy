/** How the gate's relation table and the post-save descriptor table fit
    together. */
module TableConsistency {
  import opened Values
  import Admission
  import PostSave

  /** Every relation the gate requires for a type is also a connection that
      the post-save step rewrites for that type, and its linked type is one
      whose posts stamp an export hash, so the entries the gate looks up are
      ones the import itself creates. */
  lemma AdmissionLinksAreRelinked(t: string, l: Admission.Link)
    requires l in Admission.RelationTable(t)
    ensures PostSave.DescriptorFor(Some(t)).Some?
    ensures exists c :: c in PostSave.DescriptorFor(Some(t)).value.connections
                        && c.recordMetaKey == l.metaKey && c.linkedPostType == l.linkedPostType
    ensures PostSave.DescriptorFor(Some(l.linkedPostType)).Some?
    ensures PostSave.DescriptorFor(Some(l.linkedPostType)).value.createHash
  {
  }

  /** Every type the gate manages also has a post-save descriptor. */
  lemma ManagedTypesAreConfigured(t: string)
    requires t in Admission.ManagedTypes
    ensures t in PostSave.ConfiguredTypes
  {
  }
}
