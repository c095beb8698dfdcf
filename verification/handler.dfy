/** Handler: keeps the remote event database in step with nodes. Per node, the mirror
    table `event_database_push_data` (keyed by node type and node id) says whether a
    remote event exists; `Handle` reacts to insert, update and delete on that basis. */
module SyncHandler {
  import opened Wrappers
  import opened JsonValues
  import opened Entities

  /** The remote event's id, as `Event::getItemId()` gives it. */
  type EventId = string

  /** An ISO 8601 time stamp, as `DateTime::format` gives it. */
  type Time = string

  /** The mirror table's key: (node type, node id). */
  type MirrorKey = (string, int)

  /** One mirror row: the `eid` column and the `created_at` and `updated_at` of its data. */
  datatype Record = Record(eid: EventId, createdAt: Time, updatedAt: Time)

  /** The parsed mapping configuration (a YAML document). */
  datatype Yaml = YNull | YScalar(s: string) | YList(elems: seq<Yaml>) | YMap(entries: map<string, Yaml>)

  /** A call made on the remote event database client. */
  datatype RemoteCall =
    | CreateEvent(payload: map<string, Json>)
    | UpdateEvent(id: EventId, payload: map<string, Json>)
    | DeleteEvent(id: EventId)

  /** An error message shown to the user. */
  datatype Notice = CannotCreate(title: string) | CannotUpdate(title: string) | ErrorDeleting(title: string)

  /** getMapping: the mapping configured for a node type. None when the configuration
      did not parse (`config` is None), has no entry for the type, or the entry is null. */
  function MappingFor(config: Option<Yaml>, bundle: string): (m: Option<Yaml>)
    ensures m.Some? <==>
      config.Some? && config.value.YMap? && bundle in config.value.entries && config.value.entries[bundle] != YNull
    ensures m.Some? ==> m.value == config.value.entries[bundle]
  {
    match config
    case Some(YMap(entries)) => if bundle in entries && entries[bundle] != YNull then Some(entries[bundle]) else None
    case _ => None
  }

  /** canHandle: only nodes whose type has a mapping are synchronised; that is, the
      configuration parsed to a map holding a non-null entry for the node's type. */
  function CanHandle(config: Option<Yaml>, node: Entity): (b: bool)
    ensures b <==>
      node.entityType == "node" && config.Some? && config.value.YMap? &&
      node.bundle in config.value.entries && config.value.entries[node.bundle] != YNull
  {
    node.entityType == "node" && MappingFor(config, node.bundle).Some?
  }

  function Key(node: Entity): MirrorKey
  {
    (node.bundle, node.id)
  }

  /** `$data += ['url' => $url]`: the canonical URL is added only when the mapping did not
      produce a `url` key itself; every key of the mapping keeps its value. */
  function WithUrl(data: map<string, Json>, url: string): (r: map<string, Json>)
    ensures r.Keys == data.Keys + {"url"}
    ensures forall k :: k in data ==> r[k] == data[k]
    ensures "url" !in data ==> r["url"] == Str(url)
  {
    if "url" in data then data else data["url" := Str(url)]
  }

  /** updateApiData on the table: with no row for the key, a row is inserted with both
      time stamps `now`; with a row holding the same event id, its `updated_at` becomes
      `now`; a row holding another event id is not matched by the UPDATE and stays as it
      was. No other row changes, and the key never gets a second row. */
  function Upserted(m: map<MirrorKey, Record>, key: MirrorKey, eid: EventId, now: Time): (r: map<MirrorKey, Record>)
    ensures r.Keys == m.Keys + {key}
    ensures |r| == if key in m then |m| else |m| + 1
    ensures forall k :: k in m && k != key ==> r[k] == m[k]
    ensures key !in m ==> r[key] == Record(eid, now, now)
    ensures key in m && m[key].eid == eid ==> r[key] == Record(eid, m[key].createdAt, now)
    ensures key in m && m[key].eid != eid ==> r[key] == m[key]
  {
    if key !in m then
      assert (m[key := Record(eid, now, now)]).Keys == m.Keys + {key};
      m[key := Record(eid, now, now)]
    else if m[key].eid == eid then
      assert (m[key := Record(eid, m[key].createdAt, now)]).Keys == m.Keys;
      m[key := Record(eid, m[key].createdAt, now)]
    else m
  }

  /** Upserting the same event twice leaves one row, created by the first write and
      updated by the second. */
  lemma UpsertTwice(m: map<MirrorKey, Record>, key: MirrorKey, eid: EventId, t1: Time, t2: Time)
    requires key !in m || m[key].eid == eid
    ensures var r := Upserted(Upserted(m, key, eid, t1), key, eid, t2);
      r.Keys == m.Keys + {key} &&
      r[key] == Record(eid, if key in m then m[key].createdAt else t1, t2)
  {
  }

  /** An upsert onto a row that holds another event id records nothing: the key keeps the
      old id, so after an insert over such a row the table does not hold the new event. */
  lemma StaleRowKept(m: map<MirrorKey, Record>, key: MirrorKey, eid: EventId, now: Time)
    requires key in m && m[key].eid != eid
    ensures Upserted(m, key, eid, now) == m
    ensures Upserted(m, key, eid, now)[key].eid == m[key].eid != eid
  {
  }

  class Handler {
    /** The mapping configuration; None when it does not parse. */
    const config: Option<Yaml>
    /** The mapping interpreter of the client library, `transformObject`. */
    const transform: (Entity, Yaml) -> map<string, Json>
    /** The node's canonical absolute URL. */
    const canonicalUrl: int -> string

    /** The mirror table. */
    var mirror: map<MirrorKey, Record>
    /** Every call made on the remote client, in order. */
    var calls: seq<RemoteCall>
    /** Every error message shown to the user, in order. */
    var notices: seq<Notice>

    constructor (config: Option<Yaml>, transform: (Entity, Yaml) -> map<string, Json>,
                 canonicalUrl: int -> string, mirror: map<MirrorKey, Record>)
      ensures this.config == config && this.transform == transform && this.canonicalUrl == canonicalUrl
      ensures this.mirror == mirror && calls == [] && notices == []
    {
      this.config := config;
      this.transform := transform;
      this.canonicalUrl := canonicalUrl;
      this.mirror := mirror;
      calls := [];
      notices := [];
    }

    /** getEventData: the payload the mapping produces for the node, with the node's
        canonical URL added under `url` unless the mapping produced a `url` itself. */
    function EventData(node: Entity): (data: map<string, Json>)
      requires MappingFor(config, node.bundle).Some?
      ensures var mapped := transform(node, MappingFor(config, node.bundle).value);
        data.Keys == mapped.Keys + {"url"} &&
        (forall k :: k in mapped ==> data[k] == mapped[k]) &&
        ("url" !in mapped ==> data["url"] == Str(canonicalUrl(node.id)))
    {
      WithUrl(transform(node, MappingFor(config, node.bundle).value), canonicalUrl(node.id))
    }

    /** getApiData: the node's mirror row, if any. */
    function GetApiData(node: Entity): (r: Option<Record>)
      reads this
      ensures r.Some? <==> Key(node) in mirror
      ensures r.Some? ==> r.value == mirror[Key(node)]
    {
      if Key(node) in mirror then Some(mirror[Key(node)]) else None
    }

    /** updateApiData: record the remote event for the node. */
    method UpdateApiData(node: Entity, eid: EventId, now: Time)
      modifies this`mirror
      ensures mirror == Upserted(old(mirror), Key(node), eid, now)
    {
      var key := Key(node);
      var row := GetApiData(node);
      if row.Some? {
        if row.value.eid == eid {
          mirror := mirror[key := Record(eid, row.value.createdAt, now)];
        }
      } else {
        mirror := mirror[key := Record(eid, now, now)];
      }
    }

    /** deleteApiData: remove the node's mirror row. */
    method DeleteApiData(node: Entity)
      modifies this`mirror
      ensures mirror == old(mirror) - {Key(node)}
    {
      mirror := mirror - {Key(node)};
    }

    /** handle: synchronise one node after `action`. The remote client's answers are
        parameters: `created` is what createEvent returns (None on failure), `updated`
        and `deleted` what updateEvent and deleteEvent return. */
    method Handle(node: Entity, action: string, created: Option<EventId>, updated: bool, deleted: bool, now: Time)
      modifies this`mirror, this`calls, this`notices
      // A node whose type is not mapped: no remote call, no mirror change.
      ensures !CanHandle(config, node) || action !in {"delete", "insert", "update"} ==>
        mirror == old(mirror) && calls == old(calls) && notices == old(notices)
      // delete without a mirror row: nothing happens.
      ensures CanHandle(config, node) && action == "delete" && Key(node) !in old(mirror) ==>
        mirror == old(mirror) && calls == old(calls) && notices == old(notices)
      // delete with a row: one deleteEvent with the stored id; the row goes only on success.
      ensures CanHandle(config, node) && action == "delete" && Key(node) in old(mirror) ==>
        calls == old(calls) + [DeleteEvent(old(mirror)[Key(node)].eid)] &&
        mirror == (if deleted then old(mirror) - {Key(node)} else old(mirror)) &&
        notices == old(notices) + (if deleted then [] else [ErrorDeleting(node.title)])
      // insert, and update without a row: one createEvent; nothing is written when it fails.
      ensures CanHandle(config, node) && (action == "insert" || (action == "update" && Key(node) !in old(mirror))) ==>
        calls == old(calls) + [CreateEvent(EventData(node))] &&
        (created.None? ==> mirror == old(mirror) && notices == old(notices) + [CannotCreate(node.title)]) &&
        (created.Some? ==> mirror == Upserted(old(mirror), Key(node), created.value, now) && notices == old(notices))
      ensures CanHandle(config, node) && action == "update" && Key(node) !in old(mirror) && created.Some? ==>
        mirror == old(mirror)[Key(node) := Record(created.value, now, now)]
      // update with a row: one updateEvent with the stored id, no create; the row's
      // updated_at is rewritten whether or not the update succeeded.
      ensures CanHandle(config, node) && action == "update" && Key(node) in old(mirror) ==>
        calls == old(calls) + [UpdateEvent(old(mirror)[Key(node)].eid, EventData(node))] &&
        mirror == old(mirror)[Key(node) := old(mirror)[Key(node)].(updatedAt := now)] &&
        notices == old(notices) + (if updated then [] else [CannotUpdate(node.title)])
    {
      if !CanHandle(config, node) {
        return;
      }
      var apiData := GetApiData(node);
      if action == "delete" {
        if apiData.Some? {
          calls := calls + [DeleteEvent(apiData.value.eid)];
          if deleted {
            DeleteApiData(node);
          } else {
            notices := notices + [ErrorDeleting(node.title)];
          }
        }
      } else if action == "insert" {
        var eventData := EventData(node);
        calls := calls + [CreateEvent(eventData)];
        if created.None? {
          notices := notices + [CannotCreate(node.title)];
          return;
        }
        UpdateApiData(node, created.value, now);
      } else if action == "update" {
        var eventData := EventData(node);
        var event: EventId;
        if apiData.Some? {
          event := apiData.value.eid;
          calls := calls + [UpdateEvent(event, eventData)];
          if !updated {
            notices := notices + [CannotUpdate(node.title)];
          }
        } else {
          calls := calls + [CreateEvent(eventData)];
          if created.None? {
            notices := notices + [CannotCreate(node.title)];
            return;
          }
          event := created.value;
        }
        UpdateApiData(node, event, now);
      }
    }
  }

  /** The life cycle the functional test drives, on the mirror table: the row written when
      a new node is created remotely, rewritten by an update under the same event id and
      removed on delete leaves the table exactly as it was; in between, the node has one
      row that keeps the event id and the first time stamp. */
  lemma CreateUpdateDelete(m: map<MirrorKey, Record>, key: MirrorKey, id: EventId, t1: Time, t2: Time)
    requires key !in m
    ensures var r := Upserted(Upserted(m, key, id, t1), key, id, t2);
      key in r && r[key] == Record(id, t1, t2) && r - {key} == m
  {
  }
}
