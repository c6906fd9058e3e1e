/** Values of an imported record as the PHP add-on sees them, and the post type
    slugs it knows about. */
module Values {

  datatype Option<+T> = None | Some(value: T)

  /** A field value of an import record: PHP null (also what reading a missing
      key yields), a scalar string, or an array of values. */
  datatype Value = Null | Scalar(s: string) | List(items: seq<Value>)

  /** An import record: field name to field value. */
  type Record = map<string, Value>

  /** `$data[key]`: a key that is not present reads as null. */
  function Field(data: Record, key: string): (v: Value)
  {
    if key in data then data[key] else Null
  }

  /** `is_array(v) && empty(v)`. */
  predicate IsEmptyArray(v: Value)
  {
    v.List? && |v.items| == 0
  }

  /** `str_starts_with(s, prefix)`. */
  predicate StartsWith(s: string, prefix: string)
  {
    |prefix| <= |s| && s[..|prefix|] == prefix
  }

  /** The record's `posttype` field as a string. Comparing it with `==` against
      one of the non-empty, non-numeric slugs below is true exactly when the
      field is that string, so a null or array field is named "" here, which
      matches no slug. */
  function PostTypeName(data: Record): (name: string)
  {
    match Field(data, "posttype")
    case Scalar(s) => s
    case _ => ""
  }

  // Post types (slugs) of The Events Calendar family of plugins.
  const Event := "tribe_events"
  const Venue := "tribe_venue"
  const Organizer := "tribe_organizer"
  const RsvpTicket := "tribe_rsvp_tickets"
  const RsvpAttendee := "tribe_rsvp_attendees"
  const TcTicket := "tec_tc_ticket"
  const TcOrder := "tec_tc_order"
  const TcAttendee := "tec_tc_attendee"
}
