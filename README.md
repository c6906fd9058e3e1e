# The Events Calendar WP All Import add-on: admission gate and post-save dispatcher

This project models the two decision points of the add-on's `Plugin` class
(`src/Tec/Plugin.php`). Both are hooked into WP All Import.

- **Admission gate** (`maybe_create_post`, `check_data_validity`,
  `check_relation_exists`). For each incoming record it decides whether
  WP All Import may create the post. Five post types
  are gated: RSVP tickets, RSVP attendees, and Tickets Commerce tickets,
  orders and attendees. Any other type is admitted. A gated record must first
  pass a structural check. The operator's force filter is consulted next.
  Last, every origin id that the record names in its relation fields must
  already have a post. That post is found by its export-hash meta pair
  `('_' + linked type + '_export_hash', hashit(id))`.
- **Post-save dispatcher** (`maybe_update_post`). After WP All Import saves a
  post, the dispatcher compares the type the host reports for the post with
  the record's declared `posttype`. On a mismatch it deletes the post, unless
  the delete filter says otherwise. It then picks the relinking descriptor
  for the host's type and passes it to `relink_posts`. A descriptor holds
  whether to stamp a hash, the origin meta key and the connections to
  rewrite.
- **Tracked meta keys** (`modify_tracked_meta_keys`). This filter appends
  `_EventOrigin` to the meta keys that The Events Calendar's custom tables
  follow.

The modules are `Values` (PHP values and post type slugs), `Admission`,
`PostSave` (the host as a class, with the dispatcher),
`TrackedMetaKeys` and `TableConsistency` (how the two tables fit together).

Modelling choices:

- The identity store is a `map<(string, string), int>` from meta pairs to
  post ids. A lookup succeeds when the pair is a key of the map.
- `hashit` and `maybe_explode` are not defined in any file modelled here, so
  they are function parameters. `maybe_explode` takes a whole field value,
  because a field may be an array.
- The two filter results are boolean parameters: the force filter and the
  delete-on-mismatch filter.
- A record is a map from field names to PHP values: null, a string or an
  array. A missing field reads as null, as PHP's `$data[key]` does.
- The host is a `Host` object. It holds the existing posts with their types
  and a log of the `relink_posts` calls, with their arguments and the posts
  that existed at each call. What `relink_posts` does to the posts is left open.

Behaviour reproduced as the code has it:

- The order check tests `$record['status']` (src/Tec/Plugin.php:247-248).
  No `$record` exists in `check_data_validity`, so `isset` is false. Every
  `tec_tc_order` record is therefore invalid, and is rejected even when
  forced (`Admission.OrderNeverAdmitted`). The comment above the test
  (src/Tec/Plugin.php:235-239) asks for a status of the form `tec-tc-xxx`;
  the model follows the code.
- `maybe_update_post` picks the descriptor from the type it read before
  deleting anything. A post deleted by the mismatch guard is therefore still
  passed to `relink_posts`.
- `maybe_create_post` returns a bool. The force filter is consulted before
  the relation walk, so a forced record is never walked.
- `maybe_create_post` never reads its incoming `$continue_import`. An ungated
  record is admitted even when an earlier callback answered false, and a
  gated record is decided by the gate alone (`Admission.ContinueImportIgnored`).

## Model

| member | source | states |
|---|---|---|
| `Admission.MaybeCreatePost` | src/Tec/Plugin.php:168-208 | a record is admitted iff its type is not gated, or its data is valid and either the force filter is on or every required export-hash key is in the store |
| `Admission.UnmanagedAlwaysAdmitted` | src/Tec/Plugin.php:170-207 | a record whose `posttype` is none of the five gated types is admitted whatever the store, the force filter and the incoming `continue_import` |
| `Admission.ContinueImportIgnored` | src/Tec/Plugin.php:168-207 | the decision is the same whether the incoming `continue_import` is true or false, so an ungated record is admitted even when it was false |
| `Admission.ForceBypassesOnlyRelations` | src/Tec/Plugin.php:181-201 | with the force filter on, a gated record is admitted iff its data is valid; invalid data is never forced through |
| `Admission.OrderNeverAdmitted` | src/Tec/Plugin.php:241-252 | every `tec_tc_order` record is rejected, forced or not, because the status test reads an unset variable |
| `Admission.CheckDataValidity` | src/Tec/Plugin.php:217-282 | a ticket is valid iff its event field is not an empty array; an order is never valid; an attendee is valid iff neither its ticket nor its event field is an empty array; every other type is valid; non-array values pass |
| `Admission.RelationTable` | src/Tec/Plugin.php:292-335 | exactly the five gated types have links, and every link points at events, RSVP tickets or Tickets Commerce tickets |
| `Admission.CheckRelationExists` | src/Tec/Plugin.php:339-367 | the nested walk answers true iff every id split from every link's field is in the store under that link's export-hash key with value `hashit(id)`, and false at the first miss |
| `Admission.RelationsResolvedIffKeysPresent` | src/Tec/Plugin.php:339-363 | the relations resolve iff the set of keys the walk looks up is contained in the store |
| `Admission.HashMetaKeyInjective` | src/Tec/Plugin.php:343 | two post types with the same `_<type>_export_hash` key are the same type |
| `Admission.AdmissionReadsOnlyRequiredKeys` | src/Tec/Plugin.php:291-367 | the decision is a function of the record and of the store at the required keys only: two stores that agree there give the same answer |
| `Admission.AdmissionMonotone` | src/Tec/Plugin.php:339-366 | adding entries to the store never turns an admitted record into a rejected one |
| `Admission.TicketAdmittedOnceEventStamped` | src/Tec/Plugin.php:309-366 | a valid, unforced ticket naming one event is rejected while that event's hash is missing and admitted once the entry is added |
| `Admission.StampResolvesOnlyItsPair` | src/Tec/Plugin.php:343-348 | with an injective `hashit`, adding the entry for one (type, id) pair resolves exactly that pair and leaves other lookups as they were |
| `Admission.PostIdFromMeta` | src/Tec/Plugin.php:348 | the lookup finds a post iff the meta pair is in the store |
| `PostSave.DescriptorFor` | src/Tec/Plugin.php:402-541 | a descriptor exists iff the host's type is one of the eight configured types; attendee types do not stamp a hash and all others do; venues and organizers have no connections; every connection links a configured type |
| `PostSave.EventConnections` | src/Tec/Plugin.php:418-437 | events link one venue (single) and organizers (multiple) |
| `PostSave.OrderConnections` | src/Tec/Plugin.php:498-515 | orders link one event (single) and tickets (multiple) |
| `PostSave.MaybeUpdatePost` | src/Tec/Plugin.php:381-542 | the guard leaves the posts minus this one iff the types differ and the delete filter is on, and unchanged otherwise; if the host's type is configured, `relink_posts` is called exactly once, with that type's descriptor and the posts as the guard left them; otherwise no call is made and the posts are as the guard left them |
| `PostSave.MismatchGuardReading` | src/Tec/Plugin.php:390 | two string types differ iff they are different strings; a configured type never matches a missing or array `posttype`; a post the host does not know matches a missing or empty `posttype` |
| `PostSave.Host.GetPostType` | src/Tec/Plugin.php:386 | the host reports a type iff the post exists, and that type is the post's |
| `PostSave.Host.DeletePost` | src/Tec/Plugin.php:397 | the post is removed and the other posts and the call log are unchanged |
| `PostSave.Host.RelinkPosts` | src/Tec/Plugin.php:540 | exactly one call, with the given arguments and the posts that existed when it was made, is appended to the log; what it does to the posts is left open |
| `TrackedMetaKeys.ModifyTrackedMetaKeys` | src/Tec/Plugin.php:583-587 | the result is the input with `_EventOrigin` appended: one longer, earlier entries unchanged |
| `TrackedMetaKeys.AppendedKeyIsEventOrigin` | src/Tec/Plugin.php:583-587 | the appended key is the origin meta key of the events descriptor |
| `TableConsistency.AdmissionLinksAreRelinked` | src/Tec/Plugin.php:292-335 | every link the gate requires is also rewritten after saving (same field, same linked type), and its linked type stamps an export hash |
| `TableConsistency.ManagedTypesAreConfigured` | src/Tec/Plugin.php:170-176 | every gated type has a post-save descriptor |

## Left out

- Logging (`add_to_log`, which prints and flushes with a timestamp) and the post type labels used in log messages: these are presentation only.
- The bodies of `relink_posts`, `hashit`, `maybe_explode` and `get_post_id_from_meta`: these are not in any file modelled here. So the model does not include the order-item re-keying, the attendee orphan deletion, the split rules, the hash algorithm or the identity-store writes; they live behind those calls.
- `Admission.PostIdFromMeta`: treats any stored pair as an existing post. The real lookup may also test the id it finds, and that code is not in this model.
- `PostSave.MaybeUpdatePost`: the conversion of the SimpleXML node to an array (src/Tec/Plugin.php:383) is left out; the record is taken as already converted. The unused `$is_update` parameter is dropped.
- `PostSave.PostTypesDiffer`: PHP 8 compares two numeric strings as numbers. Post type slugs are not numeric, so the model uses plain string equality in that case.
- The force and delete-on-mismatch filters (`apply_filters`) are boolean inputs; the callbacks behind them are outside this model.
- `Admission.MaybeCreatePost`: the `$import_id` parameter is dropped. It is only passed on to the force filter, whose result is a boolean input here.
- `register`, the dependency checks, the settings helpers, the `tc_*_label` filters, `src/TEC/Plugin.php` (its methods forward to `Post_Handler`, which is not part of this model), `plugin.php`, `src/Tec/Hooks.php`, `src/Tec/Assets.php` and `src/Tec/Plugin_Register.php`: these are bootstrap, hook wiring and UI, with no decision logic.
- Series relinking: its code is not part of this model.
