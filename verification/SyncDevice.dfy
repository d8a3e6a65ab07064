/**
 The device side (packages/domain/src/client.ts): the local store and what each operation of
 the sync client makes of it, as functions of the store's contents.
 */
module SyncDevice {
  import opened Prelude
  import opened Values
  import opened SyncMeta
  import opened SyncProtocol
  import opened SyncFeed

  datatype Rec = Rec(version: nat, deleted: bool, data: Record)

  datatype Pending = Pending(op: Op, attempts: nat)

  datatype LocalConflict = LocalConflict(key: Key, server: Record, client: Record)

  /** `opEntity` lives in the client object and is lost when the app restarts; the rest is the store. */
  datatype Device = Device(recs: map<Key, Rec>, queue: seq<Pending>, conflicts: map<OpId, LocalConflict>,
                           cursor: nat, opEntity: map<OpId, Entity>)

  datatype Mutation = Mutation(key: Key, kind: Kind, data: Record)

  const BATCH_SIZE: nat := 200
  const PULL_LIMIT: nat := 500
  const MAX_PULL_PAGES: nat := 50

  function NumCell(n: nat): Value { One(Num(Digits(n))) }

  // ---- queue ----

  function LocalVersion(d: Device, key: Key): nat { if key in d.recs then d.recs[key].version else 0 }

  function LocalData(d: Device, key: Key): Record { if key in d.recs then d.recs[key].data else map[] }

  function QueuedOp(d: Device, m: Mutation, opId: OpId, now: int): Op {
    var data := match m.kind
      case Patch => LocalData(d, m.key) + m.data
      case Upsert => m.data
      case Delete => map[];
    Op(opId, m.key.entity, m.key.id, m.kind, data, now)
  }

  function HasPending(queue: seq<Pending>, opId: OpId): bool {
    exists i :: 0 <= i < |queue| && queue[i].op.opId == opId
  }

  function Enqueued(queue: seq<Pending>, op: Op): seq<Pending> {
    if HasPending(queue, op.opId) then queue else queue + [Pending(op, 0)]
  }

  function Ops(queue: seq<Pending>): seq<Op> {
    if queue == [] then [] else [queue[0].op] + Ops(queue[1..])
  }

  /** A local edit: written at once, queued for sending; REST-only entities are refused (`None`). */
  function Queued(d: Device, m: Mutation, opId: OpId, now: int): Option<Device> {
    if MetaOf(m.key.entity).restOnly then None
    else
      var op := QueuedOp(d, m, opId, now);
      var version := LocalVersion(d, m.key) + 1;
      var recs :=
        if m.kind != Delete then d.recs[m.key := Rec(version, false, op.data["version" := NumCell(version)])]
        else if MetaOf(m.key.entity).merge != AppendOnly then d.recs[m.key := Rec(version, true, LocalData(d, m.key))]
        else d.recs;
      Some(d.(recs := recs, queue := Enqueued(d.queue, op), opEntity := d.opEntity[opId := m.key.entity]))
  }

  // ---- answers to a push ----

  function Without(queue: seq<Pending>, opId: OpId): seq<Pending> {
    if queue == [] then []
    else if queue[0].op.opId == opId then Without(queue[1..], opId)
    else [queue[0]] + Without(queue[1..], opId)
  }

  function Retried(queue: seq<Pending>, opId: OpId): seq<Pending> {
    if queue == [] then []
    else if queue[0].op.opId == opId then [queue[0].(attempts := queue[0].attempts + 1)] + queue[1..]
    else [queue[0]] + Retried(queue[1..], opId)
  }

  /** The entity an answer is filed under; an unknown operation is taken for a work order. */
  function EntityOf(d: Device, opId: OpId): Entity { if opId in d.opEntity then d.opEntity[opId] else WorkOrder }

  function MergeServerRecord(e: Entity, server: Record, client: Record): Record {
    var meta := MetaOf(e);
    if meta.merge == AppendOnly || meta.merge == ServerWins then server else Merged(server, client, meta)
  }

  function Answered(d: Device, r: Result): Device {
    var key := Key(EntityOf(d, r.opId), r.recordId);
    if OkOutcome(r.outcome) then
      var recs := if key in d.recs && r.serverVersion.Some? then
                    d.recs[key := d.recs[key].(version := r.serverVersion.value,
                                               data := d.recs[key].data["version" := NumCell(r.serverVersion.value)])]
                  else d.recs;
      d.(recs := recs, queue := Without(d.queue, r.opId),
         conflicts := if r.outcome == Deduplicated then d.conflicts - {r.opId} else d.conflicts)
    else if r.outcome == Conflict && r.serverRecord.Some? then
      var client := LocalData(d, key);
      d.(conflicts := d.conflicts[r.opId := LocalConflict(key, r.serverRecord.value, client)],
         recs := d.recs[key := Rec(LocalVersion(d, key), false,
             MergeServerRecord(key.entity, r.serverRecord.value, client))])
    else d.(queue := Retried(d.queue, r.opId))
  }

  function AnsweredAll(d: Device, rs: seq<Result>): Device
    decreases rs
  {
    if rs == [] then d else AnsweredAll(Answered(d, rs[0]), rs[1..])
  }

  // ---- conflict review ----

  function ForcedOp(o: OpId, c: LocalConflict, now: int): Op {
    Op(Forced(o), c.key.entity, c.key.id, Upsert, c.client, now)
  }

  function TookServer(d: Device, o: OpId): Device {
    if o !in d.conflicts then d
    else
      var c := d.conflicts[o];
      d.(recs := d.recs[c.key := Rec(0, false, c.server)], conflicts := d.conflicts - {o}, queue := Without(d.queue, o))
  }

  function TookLocal(d: Device, o: OpId, now: int): Device {
    if o !in d.conflicts then d
    else
      var c := d.conflicts[o];
      d.(conflicts := d.conflicts[Forced(o) := c] - {o}, queue := Enqueued(Without(d.queue, o), ForcedOp(o, c, now)))
  }

  // ---- pulled changes ----

  /** The local copy after a change from the server, given the copy before it (if any). */
  function Remote(local: Option<Rec>, c: Change): Rec {
    var meta := MetaOf(c.key.entity);
    if c.deleted then
      Rec(c.version, meta.merge != AppendOnly, (if local.Some? then local.value.data else map[]) + c.data)
    else if local.None? || meta.merge != FieldMerge then Rec(c.version, false, c.data)
    else
      var merged := Merged(c.data, local.value.data, meta);
      var ahead := One(Bool(local.value.version > c.version));
      Rec(c.version, false, merged["version" := NumCell(c.version)]["__localAhead" := ahead])
  }

  function RemoteAll(recs: map<Key, Rec>, cs: seq<Change>): map<Key, Rec>
    decreases cs
  {
    if cs == [] then recs else RemoteAll(recs[cs[0].key := Remote(Lookup(recs, cs[0].key), cs[0])], cs[1..])
  }

  lemma {:induction false} RemoteAllAppend(recs: map<Key, Rec>, a: seq<Change>, b: seq<Change>)
    ensures RemoteAll(recs, a + b) == RemoteAll(RemoteAll(recs, a), b)
    decreases a
  {
    if a == [] {
      assert a + b == b;
    } else {
      assert (a + b)[1..] == a[1..] + b;
      RemoteAllAppend(recs[a[0].key := Remote(Lookup(recs, a[0].key), a[0])], a[1..], b);
    }
  }

  // ---- a pull cycle, page by page ----

  /** `feeds[i]` is the feed as page request `i` finds it; `None` is a request that fails. */
  datatype PullEnd = Interrupted | Resynced | Finished(hasMore: bool)

  datatype PullState = PullState(recs: map<Key, Rec>, cursor: nat, pulled: nat)

  function OnePage(p: PullState, f: Option<Feed>, see: Change -> bool, limit: int): (PullState, PullEnd) {
    if f.None? then (p, Interrupted)
    else match Pull(f.value, see, p.cursor, limit)
      case FullResync => (p, Resynced)
      case Page(changes, cursor, hasMore) =>
        (PullState(RemoteAll(p.recs, changes), cursor, p.pulled + |changes|), Finished(hasMore))
  }

  function PullPages(p: PullState, feeds: seq<Option<Feed>>, see: Change -> bool, limit: int): (PullState, PullEnd)
    requires feeds != []
    decreases feeds
  {
    var (next, end) := OnePage(p, feeds[0], see, limit);
    if end == Finished(true) && |feeds| > 1 then PullPages(next, feeds[1..], see, limit) else (next, end)
  }

  /** The stored cursor moves only when the cycle ends; an interrupted cycle keeps what it applied. */
  function Pulled(d: Device, feeds: seq<Option<Feed>>, see: Change -> bool, limit: int): Device
    requires feeds != []
  {
    var (p, end) := PullPages(PullState(d.recs, d.cursor, 0), feeds, see, limit);
    match end
    case Interrupted => d.(recs := p.recs)
    case Resynced => d.(recs := p.recs, cursor := 0)
    case Finished(_) => d.(recs := p.recs, cursor := p.cursor)
  }
}
