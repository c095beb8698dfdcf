# event_database_push, modelled in Dafny

This Drupal module pushes event nodes to a remote event database. The project models
its two services.

- **`Handler`** (`src/Service/Handler.php`). It runs after a node is inserted, updated or
  deleted. It decides whether the node's type is synchronised, which means the mapping
  configuration has an entry for that type. It then calls the remote client to create,
  update or delete the event. It keeps the mirror table `event_database_push_data` in
  step: the table holds one row per `(node type, node id)` with the remote event id and
  two time stamps.
- **`ValueHandler`** (`src/Service/ValueHandler.php`). The mapping interpreter calls it to
  read a value from a node by a path such as `images[0].uri`. It has three parts:
  - a tokenizer, which splits the path into steps;
  - a walk over fields and referenced entities;
  - a serializer, which turns the field reached into a plain value by the field's type.

Files:

- `wrappers.dfy`: the `Option` and `Result` datatypes.
- `json.dfy`: `JsonValues`, the PHP values read and produced, with PHP truthiness.
- `entities.dfy`: `Entities`, stand-ins for entities, field item lists and the site's
  entity storage and file URL generator.
- `path_syntax.dfy`: `PathSyntax`. The tokenizer is `preg_split` on `.` and `[digits]`.
  A `[digits]` group is captured as a piece of its own, a `.` is dropped, and empty
  pieces are dropped. `Render` writes steps back as a path. Tokenizing is a left inverse
  of `Render` on well-formed steps only: `a..b` renders back as `a.b`. A `.` or a
  `[digits]` group splits a path into parts that are tokenized independently.
- `serialization.dfy`: `Serialization`. Each field type has a rule function, and
  `Serialized` dispatches between them. The loops of `getSerializedValueByType` are
  methods proved equal to those functions.
- `value_handler.dfy`: `ValueHandler`. It holds the walk (`Advance`, `Walk`),
  `getValueByPath` as a loop with `break`, and `getValue`.
- `handler.dfy`: `SyncHandler`.
  - The class `Handler` holds the mirror table as a `map`, the sequence of calls made
    on the remote client, and the sequence of error messages shown to the user.
  - `Handle` updates these three in place.
  - The remote client's answers are parameters of `Handle`: `created` is the new event
    id or None, and `updated` and `deleted` are the booleans returned.

## Model

| member | source | states |
|---|---|---|
| SyncHandler.MappingFor | src/Service/Handler.php:301-310 | a mapping exists exactly when the configuration parsed to a map with a non-null entry for the node type, and it is that entry |
| SyncHandler.CanHandle | src/Service/Handler.php:285-290 | a node is handled exactly when it is a node and the configuration parsed to a map with a non-null entry for its type |
| SyncHandler.WithUrl | src/Service/Handler.php:189-192 | the payload keeps every key and value the mapping produced and gains `url`; the canonical URL is used only when the mapping produced no `url` itself |
| SyncHandler.Upserted | src/Service/Handler.php:223-246 | the upsert on the mirror table: with no row, it inserts one with both time stamps `now`; with a row under the same event id, it keeps `created_at` and sets `updated_at`; a row under another event id is left as it was; other keys keep their rows, and the key has exactly one row afterwards |
| SyncHandler.StaleRowKept | src/Service/Handler.php:223-246 | an insert over a key that already holds a row under another event id leaves the table as it was: the row keeps the old id and the new event id is not recorded |
| SyncHandler.UpsertTwice | src/Service/Handler.php:223-246 | two upserts of the same event leave a single row, created by the first write and updated by the second |
| SyncHandler.CreateUpdateDelete | src/Service/Handler.php:223-261 | the create, rename and delete life cycle of a new node on the mirror: after the upsert under the new id and the update under the same id, one row holds that id with the first and last time stamps; removing it restores the table |
| SyncHandler.Handler.constructor | src/Service/Handler.php:36-38 | a handler starts from the given configuration and mirror table, with no remote calls and no messages |
| SyncHandler.Handler.EventData | src/Service/Handler.php:182-195 | the payload keeps every key and value the mapping transform produced for the node, and gains `url`; the node's canonical URL is used only when the transform produced no `url` |
| SyncHandler.Handler.GetApiData | src/Service/Handler.php:206-213 | the node's mirror row, or None exactly when the table has no row for (type, id) |
| SyncHandler.Handler.UpdateApiData | src/Service/Handler.php:223-246 | the new table is the upsert of the old one under the node's key |
| SyncHandler.Handler.DeleteApiData | src/Service/Handler.php:254-261 | the node's row, and only that row, is removed |
| SyncHandler.Handler.Handle | src/Service/Handler.php:48-171 | no call and no change for an unmapped type or an unknown action; delete without a row does nothing; delete with a row calls deleteEvent with the stored id and removes the row only on success, else adds an error message; insert, and update without a row, call createEvent once with the payload, write nothing and add a message when it fails, and otherwise upsert the new event id: the row is inserted when the key has none, and a row the key holds under another event id is left as it was, so the new id is not recorded; update with a row calls only updateEvent with the stored id and rewrites `updated_at` whether or not it succeeded |
| PathSyntax.GroupLength | src/Service/ValueHandler.php:64 | a `[digits]` group that starts the text is found, with its length: positive exactly when the text starts with `[`, one or more digits and `]`, and then the length of that group; 0 when the text starts with anything but `[` |
| PathSyntax.DigitsRoundTrip | src/Service/ValueHandler.php:69-70 | reading the decimal digits written for an index gives that index back |
| PathSyntax.Scan | src/Service/ValueHandler.php:64 | scanning from any point, with any text collected so far, gives no empty name step |
| PathSyntax.Tokenize | src/Service/ValueHandler.php:64 | no step is an empty name: empty pieces are dropped |
| PathSyntax.TokenizeWellFormed | src/Service/ValueHandler.php:64 | every step produced is an index or a non-empty name holding no `.` and no `[digits]` group |
| PathSyntax.ScanRender | src/Service/ValueHandler.php:64 | scanning the rendering of well-formed steps, from any position in the path, gives those steps back |
| PathSyntax.TokenizeRender | src/Service/ValueHandler.php:64 | tokenizing the rendering of well-formed steps gives the same steps back |
| PathSyntax.TokenizeIdempotent | src/Service/ValueHandler.php:64 | re-rendering and re-tokenizing a path's steps changes nothing, so equivalent spellings of a path have the same steps |
| PathSyntax.TokenizeDot | src/Service/ValueHandler.php:64 | the empty path has no steps, and `p.q` has the steps of `p` followed by those of `q`, for every `p` and `q` |
| PathSyntax.ScanGroupSplit | src/Service/ValueHandler.php:64 | a group `[d]` of one or more digits splits the text wherever it stands: scanning `p[d]q` with any piece collected so far gives the steps of `p`, the index `d` reads as, then the steps of `q` |
| PathSyntax.TokenizeGroup | src/Service/ValueHandler.php:64 | a `[digits]` group is a step of its own wherever it stands: `p[n]q` has the steps of `p`, the index n, then the steps of `q`, for every `p` and `q` |
| PathSyntax.TokenizeGroupExample | src/Service/ValueHandler.php:64 | a group directly followed by a name splits there: `a[0]b` is `a`, index 0, `b` |
| PathSyntax.TokenizeEmptyPieces | src/Service/ValueHandler.php:64 | repeated, leading and trailing dots give no step: `a..b` is `a`, `b`; `.a` and `a.` are `a` |
| PathSyntax.TokenizeExample | src/Service/ValueHandler.php:64 | `images[0].uri` splits into the name `images`, the index 0 and the name `uri` |
| Serialization.LoadedIds | src/Service/ValueHandler.php:129 | every id `loadMultiple` finds exists in the storage |
| Serialization.LoadedIdsMembers | src/Service/ValueHandler.php:129 | an id is found exactly when it exists in the storage and the id list mentions it |
| Serialization.LoadedIdsOrder | src/Service/ValueHandler.php:129 | the ids found come in the order of their first mention, so none comes twice |
| Serialization.PlainValue | src/Service/ValueHandler.php:211-222 | the cardinality rule: no item gives NULL, one item gives its `value`, several give the list of values in item order |
| Serialization.BooleanValue | src/Service/ValueHandler.php:167-179 | one truthiness test per item, under the same cardinality rule |
| Serialization.DateRangeValue | src/Service/ValueHandler.php:157-165 | one `{startDate, endDate}` object per item, in order, from `value` and `end_value`; NULL without items |
| Serialization.PartnerOrganizersValue | src/Service/ValueHandler.php:184-189 | one `{name}` object per item, in order; NULL without items |
| Serialization.OrganiserValue | src/Service/ValueHandler.php:191-193 | a `{name}` object holding the first item's value, or NULL as the name when there is no item |
| Serialization.LinkValue | src/Service/ValueHandler.php:114-116 | the first item's `uri`; NULL when there is no item |
| Serialization.ImageValue | src/Service/ValueHandler.php:106-112 | the absolute URL of the file referenced by the first item; NULL when that file does not load or its URI is empty in PHP's sense |
| Serialization.ReferenceValue | src/Service/ValueHandler.php:118-155 | for node targets: the title for one loaded entity, the titles in order for several, NULL for none; for term targets: always a list of names, NULL for none; NULL for any other target type |
| Serialization.CollectIds | src/Service/ValueHandler.php:119-126 | the nested loop gathers every item's values, item after item |
| Serialization.CollectTitles | src/Service/ValueHandler.php:131-136 | the loop gathers the loaded entities' titles in order |
| Serialization.SerializeReference | src/Service/ValueHandler.php:118-155 | the entity_reference branch computes the reference rule |
| Serialization.SerializeDateRange | src/Service/ValueHandler.php:157-165 | the daterange loop computes the daterange rule |
| Serialization.SerializeBoolean | src/Service/ValueHandler.php:167-179 | the boolean branch computes the boolean rule |
| Serialization.SerializePartnerOrganizers | src/Service/ValueHandler.php:184-189 | the partner organizers loop computes its rule |
| Serialization.SerializeDefault | src/Service/ValueHandler.php:211-222 | the default branch computes the cardinality rule |
| Serialization.Serialized | src/Service/ValueHandler.php:100-226 | the dispatch: image, link, entity_reference, daterange and boolean by field type; `field_partner_organizers`, `field_organiser` and other names among `string` fields; the cardinality rule for every other type |
| Serialization.GetSerializedValueByType | src/Service/ValueHandler.php:100-226 | the switch, with each branch's loops, computes the dispatch of `Serialized` |
| ValueHandler.Advance | src/Service/ValueHandler.php:69-79 | a step reaches a field exactly when it is a name step on an entity that has that field, and that field; it reaches an entity exactly when it is an index step on a field whose item n refers to a stored entity, and that entity; anything else fails |
| ValueHandler.Walk | src/Service/ValueHandler.php:66-86 | once a step has failed, the remaining steps change nothing; a walk of at least one step ends on a field only after a name step, and on an entity only after an index step |
| ValueHandler.WalkAppend | src/Service/ValueHandler.php:67-86 | walking a path in two parts is the same as walking it in one |
| ValueHandler.WalkStops | src/Service/ValueHandler.php:77-85 | the first failing step makes the whole path resolve to nothing |
| ValueHandler.GetValueByPath | src/Service/ValueHandler.php:63-89 | non-strict mode never fails; strict mode fails with `Invalid path: <path>` when a step fails; a walk that reaches a field gives that field serialized; a walk that ends on an entity, or fails in non-strict mode, gives NULL |
| ValueHandler.GetValue | src/Service/ValueHandler.php:39-44 | NULL for anything that is not a node; for a node, the serialized field its path reaches, or NULL when the path reaches no field |
| ValueHandler.ReferencePathExample | src/Service/ValueHandler.php:69-75 | `images[0].uri` reaches the `uri` field of the entity that item 0 of `images` refers to, and nothing when `images` has no item |

## Left out

- Logging and the messenger. The messages shown to the user are kept as a sequence of
  `Notice` values; log lines are not modelled.
- The remote HTTP client (`Client::createEvent`, `updateEvent`, `deleteEvent`) and the
  client's configuration (`getApiClient`). Their answers are parameters of `Handle`.
- YAML parsing of the mapping configuration. A configuration that fails to parse is
  `None`. A document that parses to a list or a scalar has no entry for any node type.
- SQL text, `Connection::query`, `json_encode` and `json_decode`. The table is a map from
  `(type, nid)` to `Record(eid, created_at, updated_at)`, and the row's JSON `data`
  column is folded into that record.
- `ObjectTransformer::transformObject` belongs to the event database client library. It
  is an uninterpreted function held by the handler.
- `Url::fromRoute` is an uninterpreted function from node id to URL.
- `File::load`, `Node::loadMultiple` and `Term::loadMultiple` are lookups in the site's
  entity map.
- The file URL generator is an uninterpreted function in `Site`. `makeUrlAbsolute`
  (src/Service/ValueHandler.php:237-239) is that function applied directly.
- `new \DateTime()` is the `now` parameter.
- Concurrent saves that race on reading and then writing a mirror row are not modelled.
- Floating-point field values are not part of `Json`.
- The settings form (src/Form/SettingsForm.php) is not part of this model.
- The functional test (src/Tests/Service/HandlerTest.php) runs against a live API and
  is not part of this model. Its create, rename and delete life cycle appears as
  `CreateUpdateDelete` on the mirror table.
- ValueHandler.Advance: a plain step on a field list is modelled as a failure. For a
  non-numeric name that is what the host does, since the list's `get()` throws. A numeric
  name (`images.0`) would give item 0 itself, a field item rather than a field list or
  an entity; the model does not follow that case.
- ValueHandler.Advance: an index step on an entity is modelled as a failure. The host
  would succeed only if the entity had a field named by the digits.
- ValueHandler.GetValueByPath: in the cases below the source passes a NULL or an entity
  to `getSerializedValueByType`, which accepts only a field item list and throws a type
  error (src/Service/ValueHandler.php:88, 100). The model gives the absent value NULL
  instead.
  - a walk that stops early;
  - a walk that ends on an entity;
  - an empty path.
- PathSyntax.DigitsValue: index digits are read as a number, so the model takes `[01]` to
  item 1. The host passes the digit string to the list's `get("01")`, whose array lookup
  under the string key `"01"` finds no item, so the walk stops there.
- Serialization.AsId: an id given as a decimal string is read as that number; other
  strings and values load nothing.
- SyncHandler.Handler.Handle: the mirror row comes back from `json_decode` as a plain
  object, and the source uses it where an `Event` is expected. As written:
  - `getItemId()` is called on it after a successful delete (src/Service/Handler.php:68).
    That call fails with "call to undefined method", after `deleteApiData` has already
    removed the row (line 63).
  - In the update-with-row branch the same call fails on success (line 127) and on
    failure (line 141), before `updateApiData` (line 168) is reached.
  - Passing it to `updateApiData`, whose parameter is typed `Event`
    (src/Service/Handler.php:223), would fail too.

  The model takes the intended behaviour: the stored event id is that event's id, and
  the log calls succeed.
- SyncHandler.Handler.Handle: under that intended reading, the update-with-row branch has
  no `return` after a failed `updateEvent` (src/Service/Handler.php:132-144). Execution
  reaches `updateApiData` at line 168, which rewrites `updated_at` even when the update
  failed. The model follows that control flow. It does not follow a reading in which
  the row stays unchanged on failure.
- SyncHandler.Handler.EventData: as written, `new ValueHandler()` at
  src/Service/Handler.php:183 omits the URL generator that the constructor requires
  (src/Service/ValueHandler.php:23). It throws `ArgumentCountError`, so every insert and
  every update aborts before `createEvent` or `updateEvent` is called. The model assumes
  the generator is supplied; it is the one in `Site`.
- SyncHandler.Upserted: the UPDATE matches only a row whose `eid` equals the new id
  (src/Service/Handler.php:228). A row under another id is left as it was, as written.
  The insert branch of `Handle` (src/Service/Handler.php:87-114) passes the new event id
  whether or not the key already has a row. A row kept under an old id, for instance
  after a failed remote delete and a reused node id, therefore stays: the new remote
  event is created, its id is never recorded, and later updates go to the old event.
  The model keeps this (`SyncHandler.StaleRowKept`). So "on success the mirror holds a
  row whose event id is the new one" holds for an insert only when the key had no row.
- SyncHandler.WithUrl: because of PHP's `+=` on arrays, a `url` produced by the mapping
  wins over the canonical URL. The model does the same.
