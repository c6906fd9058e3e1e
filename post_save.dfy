/** The post-save dispatcher (the `pmxi_saved_post` action): the post type
    mismatch guard followed by the selection of the relinking descriptor. */
module PostSave {
  import opened Values

  /** One relation the relinking step rewrites. `connectionMetaKey` is given
      only where the post meta key differs from the record field. */
  datatype Connection = Connection(multiple: bool, recordMetaKey: string,
                                   connectionMetaKey: Option<string>, linkedPostType: string)

  /** What `relink_posts` is told about a post type. Venues and organizers
      carry no `connections` entry; that is the empty sequence here. */
  datatype Descriptor = Descriptor(createHash: bool, originMetaKey: string, connections: seq<Connection>)

  /** The post types that have a descriptor. */
  const ConfiguredTypes: seq<string> := [Venue, Organizer, Event, RsvpTicket, RsvpAttendee, TcTicket, TcOrder, TcAttendee]

  const EventOriginKey := "_EventOrigin"

  /** The descriptor selected for the post type read back from the host
      (`None` is `get_post_type` answering false). */
  function DescriptorFor(postType: Option<string>): (d: Option<Descriptor>)
    ensures d.Some? <==> postType.Some? && postType.value in ConfiguredTypes
    ensures d.Some? && postType.value in [RsvpAttendee, TcAttendee] ==> !d.value.createHash
    ensures d.Some? && postType.value !in [RsvpAttendee, TcAttendee] ==> d.value.createHash
    ensures d.Some? && postType.value in [Venue, Organizer] ==> d.value.connections == []
    ensures d.Some? ==> forall c :: c in d.value.connections ==> c.linkedPostType in ConfiguredTypes
  {
    match postType
    case None => None
    case Some(t) =>
      if t == Venue then
        Some(Descriptor(true, "_VenueOrigin", []))
      else if t == Organizer then
        Some(Descriptor(true, "_OrganizerOrigin", []))
      else if t == Event then
        Some(Descriptor(true, EventOriginKey, [
          Connection(false, "_eventvenueid", Some("_EventVenueID"), Venue),
          Connection(true, "_eventorganizerid", Some("_EventOrganizerID"), Organizer)]))
      else if t == RsvpTicket then
        Some(Descriptor(true, "_RsvpOrigin", [
          Connection(false, "_tribe_rsvp_for_event", None, Event)]))
      else if t == RsvpAttendee then
        Some(Descriptor(false, "_RsvpAttendeeOrigin", [
          Connection(false, "_tribe_rsvp_event", None, Event),
          Connection(false, "_tribe_rsvp_product", None, RsvpTicket)]))
      else if t == TcTicket then
        Some(Descriptor(true, "_TcTicketOrigin", [
          Connection(false, "_tec_tickets_commerce_event", None, Event)]))
      else if t == TcOrder then
        Some(Descriptor(true, "_TCOrderOrigin", [
          Connection(false, "_tec_tc_order_events_in_order", None, Event),
          Connection(true, "_tec_tc_order_tickets_in_order", None, TcTicket)]))
      else if t == TcAttendee then
        Some(Descriptor(false, "_TcAttendeeOrigin", [
          Connection(false, "_tec_tickets_commerce_event", None, Event),
          Connection(false, "_tec_tickets_commerce_ticket", None, TcTicket)]))
      else
        None
  }

  /** Events link one venue and any number of organizers. */
  lemma EventConnections()
    ensures DescriptorFor(Some(Event)).Some?
    ensures var cs := DescriptorFor(Some(Event)).value.connections;
            |cs| == 2
            && !cs[0].multiple && cs[0].linkedPostType == Venue
            && cs[1].multiple && cs[1].linkedPostType == Organizer
  {
  }

  /** Orders link one event and any number of tickets. */
  lemma OrderConnections()
    ensures DescriptorFor(Some(TcOrder)).Some?
    ensures var cs := DescriptorFor(Some(TcOrder)).value.connections;
            |cs| == 2
            && !cs[0].multiple && cs[0].linkedPostType == Event
            && cs[1].multiple && cs[1].linkedPostType == TcTicket
  {
  }

  /** `$post_type != $record['posttype']` under PHP 8 loose comparison, where
      the host's type is a string or false and the record's is a string, null
      (element missing) or an array (element empty). */
  predicate PostTypesDiffer(actual: Option<string>, declared: Value)
  {
    match (actual, declared)
    case (Some(s), Scalar(t)) => s != t
    case (Some(s), Null) => s != ""
    case (Some(_), List(_)) => true
    case (None, Scalar(t)) => t != "" && t != "0"
    case (None, Null) => false
    case (None, List(items)) => items != []
  }

  /** The arguments of one `relink_posts` call, with the posts that existed
      when it was made. */
  datatype RelinkCall = RelinkCall(descriptor: Descriptor, postId: int, postType: string, record: Record,
                                   postsAtCall: map<int, string>)

  /** The WordPress side: the posts that exist, by id, with their types, and
      the `relink_posts` calls made so far. */
  class Host {
    var posts: map<int, string>
    var relinkCalls: seq<RelinkCall>

    constructor (initial: map<int, string>)
      ensures posts == initial && relinkCalls == []
    {
      posts := initial;
      relinkCalls := [];
    }

    /** `get_post_type`. */
    function GetPostType(postId: int): (t: Option<string>)
      reads this
      ensures t.Some? <==> postId in posts
      ensures t.Some? ==> t.value == posts[postId]
    {
      if postId in posts then Some(posts[postId]) else None
    }

    /** `wp_delete_post($post_id, true)`. */
    method DeletePost(postId: int)
      modifies this
      ensures posts == old(posts) - {postId}
      ensures relinkCalls == old(relinkCalls)
    {
      posts := posts - {postId};
    }

    /** `relink_posts`, whose body is not part of this model: the call is
        recorded together with the posts it was handed. What it does to the
        posts (it may delete an orphaned attendee) is left open. */
    method RelinkPosts(descriptor: Descriptor, postId: int, postType: string, record: Record)
      modifies this
      ensures relinkCalls == old(relinkCalls) + [RelinkCall(descriptor, postId, postType, record, old(posts))]
    {
      relinkCalls := relinkCalls + [RelinkCall(descriptor, postId, postType, record, posts)];
    }
  }

  /** `maybe_update_post`. `deleteMismatching` is the value of the
      `tec_labs_wpai_delete_mismatching_post_type` filter. The guard deletes
      the post on a type mismatch when the filter allows it. The descriptor is
      chosen by the type read before any deletion, so a deleted post is still
      handed to `relink_posts`, which sees the posts as the guard left them. */
  method MaybeUpdatePost(host: Host, postId: int, record: Record, deleteMismatching: bool)
    modifies host
    ensures var actual := old(host.GetPostType(postId));
            var guarded := if PostTypesDiffer(actual, Field(record, "posttype")) && deleteMismatching
                           then old(host.posts) - {postId}
                           else old(host.posts);
            match DescriptorFor(actual)
            case Some(d) =>
              host.relinkCalls == old(host.relinkCalls) + [RelinkCall(d, postId, actual.value, record, guarded)]
            case None =>
              host.relinkCalls == old(host.relinkCalls) && host.posts == guarded
  {
    var postType := host.GetPostType(postId);
    if PostTypesDiffer(postType, Field(record, "posttype")) {
      if deleteMismatching {
        host.DeletePost(postId);
      }
    }
    var data := DescriptorFor(postType);
    if data.Some? {
      host.RelinkPosts(data.value, postId, postType.value, record);
    }
  }

  /** How the guard reads `!=`: two strings differ as strings, and a
      configured type read back from the host never matches a missing or
      array `posttype`, so such a post counts as mismatched. */
  lemma MismatchGuardReading(s: string, t: string, items: seq<Value>)
    ensures PostTypesDiffer(Some(s), Scalar(t)) <==> s != t
    ensures s in ConfiguredTypes ==> PostTypesDiffer(Some(s), Null) && PostTypesDiffer(Some(s), List(items))
    ensures !PostTypesDiffer(None, Null) && !PostTypesDiffer(None, List([]))
  {
  }
}
