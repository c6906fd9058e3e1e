/** The import admission gate: whether WP All Import may create a post for an
    incoming record (the `wp_all_import_is_post_to_create` filter). */
module Admission {
  import opened Values

  /** The identity store: `(meta key, meta value)` to the id of the post that
      carries that meta pair. The gate only reads it. */
  type Store = map<(string, string), int>

  /** The post types whose creation is gated. */
  const ManagedTypes: seq<string> := [RsvpTicket, RsvpAttendee, TcTicket, TcOrder, TcAttendee]

  // Record fields the validity check inspects.
  const TicketEventKey := "_tec_tickets_commerce_event"
  const AttendeeTicketKey := "_tec_tickets_commerce_ticket"
  const OrderTotalKey := "_tec_tc_order_total_value"
  const OrderStatusPrefix := "tec-tc-"

  /** What the order status test reads. The test indexes `$record`, a variable
      that is never assigned in the validity check, so `isset` finds nothing. */
  const UnsetRecordStatus: Option<string> := None

  predicate IsManaged(data: Record)
  {
    PostTypeName(data) in ManagedTypes
  }

  /** One required relation: the record field holding the related posts'
      origin ids and the post type those ids belong to. */
  datatype Link = Link(linkedPostType: string, metaKey: string)

  /** The relation table of the gate. A type outside the table has no links. */
  function RelationTable(postType: string): (links: seq<Link>)
    ensures postType in ManagedTypes <==> |links| > 0
    ensures forall l :: l in links ==> l.linkedPostType in [Event, RsvpTicket, TcTicket]
  {
    if postType == RsvpTicket then
      [Link(Event, "_tribe_rsvp_for_event")]
    else if postType == RsvpAttendee then
      [Link(Event, "_tribe_rsvp_event"), Link(RsvpTicket, "_tribe_rsvp_product")]
    else if postType == TcTicket then
      [Link(Event, TicketEventKey)]
    else if postType == TcAttendee then
      [Link(Event, TicketEventKey), Link(TcTicket, AttendeeTicketKey)]
    else if postType == TcOrder then
      [Link(Event, "_tec_tc_order_events_in_order"), Link(TcTicket, "_tec_tc_order_tickets_in_order")]
    else
      []
  }

  /** The meta key under which posts of `postType` store their export hash. */
  function HashMetaKey(postType: string): (key: string)
  {
    "_" + postType + "_export_hash"
  }

  /** Distinct post types never share an export-hash meta key. */
  lemma HashMetaKeyInjective(t: string, u: string)
    ensures HashMetaKey(t) == HashMetaKey(u) ==> t == u
  {
    if HashMetaKey(t) == HashMetaKey(u) {
      var k, m := HashMetaKey(t), HashMetaKey(u);
      assert |t| == |k| - 13 == |u|;
      assert t == k[1..|k| - 12];
      assert u == m[1..|m| - 12];
    }
  }

  /** The store key whose presence says that `originId` of `link`'s type was imported. */
  function StoreKey(link: Link, originId: string, hashit: string -> string): (key: (string, string))
  {
    (HashMetaKey(link.linkedPostType), hashit(originId))
  }

  /** The origin ids a record names for a link, as `maybe_explode` splits the field. */
  function IdsOf(data: Record, link: Link, explode: Value -> seq<string>): (ids: seq<string>)
  {
    explode(Field(data, link.metaKey))
  }

  /** Every id the record names for `link` is present in the store. */
  predicate LinkResolved(store: Store, data: Record, link: Link,
                         hashit: string -> string, explode: Value -> seq<string>)
  {
    forall id :: id in IdsOf(data, link, explode) ==> StoreKey(link, id, hashit) in store
  }

  /** Every link of the record's type is resolved. */
  predicate RelationsResolved(store: Store, data: Record,
                              hashit: string -> string, explode: Value -> seq<string>)
  {
    forall l :: l in RelationTable(PostTypeName(data)) ==> LinkResolved(store, data, l, hashit, explode)
  }

  /** All store keys the relation check looks up for a record. */
  function RequiredKeys(data: Record, hashit: string -> string, explode: Value -> seq<string>): (keys: set<(string, string)>)
  {
    set l, id | l in RelationTable(PostTypeName(data)) && id in IdsOf(data, l, explode) :: StoreKey(l, id, hashit)
  }

  /** The relations resolve exactly when every required key is in the store. */
  lemma RelationsResolvedIffKeysPresent(store: Store, data: Record,
                                          hashit: string -> string, explode: Value -> seq<string>)
    ensures RelationsResolved(store, data, hashit, explode) <==> RequiredKeys(data, hashit, explode) <= store.Keys
  {
  }

  /** The order fields test, given what it reads as the order's status. */
  predicate OrderFieldsValid(data: Record, status: Option<string>)
  {
    !IsEmptyArray(Field(data, OrderTotalKey))
    && status.Some?
    && StartsWith(status.value, OrderStatusPrefix)
  }

  /** Structural validity, per post type. */
  predicate DataValid(data: Record)
  {
    var t := PostTypeName(data);
    (t == TcTicket ==> !IsEmptyArray(Field(data, TicketEventKey)))
    && (t == TcOrder ==> OrderFieldsValid(data, UnsetRecordStatus))
    && (t == TcAttendee ==> !IsEmptyArray(Field(data, AttendeeTicketKey)) && !IsEmptyArray(Field(data, TicketEventKey)))
  }

  /** `check_data_validity`: a flag that each failing test clears. */
  method CheckDataValidity(data: Record) returns (valid: bool)
    ensures valid == DataValid(data)
    ensures PostTypeName(data) == TcTicket ==> (valid <==> !IsEmptyArray(Field(data, TicketEventKey)))
    ensures PostTypeName(data) == TcOrder ==> !valid
    ensures PostTypeName(data) == TcAttendee ==>
              (valid <==> !IsEmptyArray(Field(data, AttendeeTicketKey)) && !IsEmptyArray(Field(data, TicketEventKey)))
    ensures PostTypeName(data) !in [TcTicket, TcOrder, TcAttendee] ==> valid
  {
    valid := true;
    if PostTypeName(data) == TcTicket && IsEmptyArray(Field(data, TicketEventKey)) {
      valid := false;
    }
    if PostTypeName(data) == TcOrder {
      if !OrderFieldsValid(data, UnsetRecordStatus) {
        valid := false;
      }
    }
    if PostTypeName(data) == TcAttendee {
      if IsEmptyArray(Field(data, AttendeeTicketKey)) || IsEmptyArray(Field(data, TicketEventKey)) {
        valid := false;
      }
    }
  }

  /** `get_post_id_from_meta`: the post carrying a meta pair, if any. */
  function PostIdFromMeta(store: Store, metaKey: string, metaValue: string): (post: Option<int>)
    ensures post.Some? <==> (metaKey, metaValue) in store
  {
    if (metaKey, metaValue) in store then Some(store[(metaKey, metaValue)]) else None
  }

  /** `check_relation_exists`: walks the links of the record's type and each id
      of each link, and answers false at the first id that has no post. */
  method CheckRelationExists(store: Store, data: Record, hashit: string -> string, explode: Value -> seq<string>)
    returns (found: bool)
    ensures found == RelationsResolved(store, data, hashit, explode)
  {
    var links := RelationTable(PostTypeName(data));
    var i := 0;
    while i < |links|
      invariant 0 <= i <= |links|
      invariant forall k :: 0 <= k < i ==> LinkResolved(store, data, links[k], hashit, explode)
    {
      var link := links[i];
      var hashMetaKey := HashMetaKey(link.linkedPostType);
      var postIds := IdsOf(data, link, explode);
      var j := 0;
      while j < |postIds|
        invariant 0 <= j <= |postIds|
        invariant forall m :: 0 <= m < j ==> (hashMetaKey, hashit(postIds[m])) in store
      {
        var hashMetaValue := hashit(postIds[j]);
        var postExists := PostIdFromMeta(store, hashMetaKey, hashMetaValue);
        if postExists.None? {
          assert !LinkResolved(store, data, link, hashit, explode) by {
            assert postIds[j] in IdsOf(data, link, explode);
          }
          return false;
        }
        j := j + 1;
      }
      assert LinkResolved(store, data, link, hashit, explode) by {
        forall id | id in postIds ensures StoreKey(link, id, hashit) in store {
          var m :| 0 <= m < |postIds| && postIds[m] == id;
        }
      }
      i := i + 1;
    }
    return true;
  }

  /** `maybe_create_post`: whether a record may be created. `continueImport`
      is the value earlier filter callbacks passed in; it is never read, so a
      false from them is overridden. `force` is the value of the
      `tec_labs_wpai_force_import_<posttype>` filter. */
  function MaybeCreatePost(continueImport: bool, store: Store, data: Record, force: bool,
                           hashit: string -> string, explode: Value -> seq<string>): (admit: bool)
    ensures admit <==> !IsManaged(data)
                       || (DataValid(data) && (force || RequiredKeys(data, hashit, explode) <= store.Keys))
  {
    RelationsResolvedIffKeysPresent(store, data, hashit, explode);
    if IsManaged(data) then
      if !DataValid(data) then false
      else if force then true
      else RelationsResolved(store, data, hashit, explode)
    else
      true
  }

  /** A record of a type outside the gate is admitted whatever the store, the
      force filter and the incoming `continueImport` are. */
  lemma UnmanagedAlwaysAdmitted(continueImport: bool, store: Store, data: Record, force: bool,
                                hashit: string -> string, explode: Value -> seq<string>)
    requires PostTypeName(data) !in ManagedTypes
    ensures MaybeCreatePost(continueImport, store, data, force, hashit, explode)
  {
  }

  /** The incoming `continueImport` never changes the decision: an ungated
      record is admitted even after an earlier callback said false, and a
      gated one is decided by the gate alone. */
  lemma ContinueImportIgnored(store: Store, data: Record, force: bool,
                              hashit: string -> string, explode: Value -> seq<string>)
    ensures MaybeCreatePost(false, store, data, force, hashit, explode)
            == MaybeCreatePost(true, store, data, force, hashit, explode)
    ensures !IsManaged(data) ==> MaybeCreatePost(false, store, data, force, hashit, explode)
  {
  }

  /** Forcing never admits invalid data; with valid data it admits whatever the store holds. */
  lemma ForceBypassesOnlyRelations(continueImport: bool, store: Store, data: Record,
                                   hashit: string -> string, explode: Value -> seq<string>)
    requires IsManaged(data)
    ensures !DataValid(data) ==> !MaybeCreatePost(continueImport, store, data, true, hashit, explode)
    ensures DataValid(data) ==> MaybeCreatePost(continueImport, store, data, true, hashit, explode)
  {
  }

  /** As written, no order is ever admitted, forced or not. */
  lemma OrderNeverAdmitted(continueImport: bool, store: Store, data: Record, force: bool,
                           hashit: string -> string, explode: Value -> seq<string>)
    requires PostTypeName(data) == TcOrder
    ensures !MaybeCreatePost(continueImport, store, data, force, hashit, explode)
  {
  }

  /** The store is only read at the required keys: two stores that agree on
      those keys give the same decision. */
  lemma AdmissionReadsOnlyRequiredKeys(continueImport: bool, store1: Store, store2: Store, data: Record,
                                       force: bool, hashit: string -> string, explode: Value -> seq<string>)
    requires forall k :: k in RequiredKeys(data, hashit, explode) ==> (k in store1 <==> k in store2)
    ensures MaybeCreatePost(continueImport, store1, data, force, hashit, explode)
            == MaybeCreatePost(continueImport, store2, data, force, hashit, explode)
  {
  }

  /** The store only grows during an import, and growth never revokes an admission. */
  lemma AdmissionMonotone(continueImport: bool, store1: Store, store2: Store, data: Record, force: bool,
                          hashit: string -> string, explode: Value -> seq<string>)
    requires store1.Keys <= store2.Keys
    ensures MaybeCreatePost(continueImport, store1, data, force, hashit, explode)
            ==> MaybeCreatePost(continueImport, store2, data, force, hashit, explode)
  {
  }

  /** A valid ticket naming one event is rejected while that event's hash is
      missing and admitted once it is stamped. */
  lemma TicketAdmittedOnceEventStamped(continueImport: bool, store: Store, data: Record, hashit: string -> string,
                                       explode: Value -> seq<string>, eventId: string, newId: int)
    requires PostTypeName(data) == TcTicket
    requires !IsEmptyArray(Field(data, TicketEventKey))
    requires explode(Field(data, TicketEventKey)) == [eventId]
    requires (HashMetaKey(Event), hashit(eventId)) !in store
    ensures !MaybeCreatePost(continueImport, store, data, false, hashit, explode)
    ensures MaybeCreatePost(continueImport, store[(HashMetaKey(Event), hashit(eventId)) := newId], data, false,
                            hashit, explode)
  {
    var link := Link(Event, TicketEventKey);
    assert RelationTable(TcTicket) == [link];
    assert eventId in IdsOf(data, link, explode);
    assert RequiredKeys(data, hashit, explode) == {StoreKey(link, eventId, hashit)};
  }

  ghost predicate Injective(hashit: string -> string)
  {
    forall x, y :: hashit(x) == hashit(y) ==> x == y
  }

  /** With an injective hash, stamping one (type, id) pair resolves that pair
      and no other. */
  lemma StampResolvesOnlyItsPair(store: Store, t: string, a: string, newId: int,
                                link: Link, b: string, hashit: string -> string)
    requires Injective(hashit)
    ensures StoreKey(link, b, hashit) in store[(HashMetaKey(t), hashit(a)) := newId]
            <==> StoreKey(link, b, hashit) in store || (link.linkedPostType == t && b == a)
  {
    HashMetaKeyInjective(link.linkedPostType, t);
  }
}
