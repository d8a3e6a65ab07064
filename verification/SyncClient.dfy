/** The store and the sync client as the source writes them, against the functions of `SyncDevice`. */
module SyncClient {
  import opened Prelude
  import opened SyncMeta
  import opened SyncProtocol
  import opened SyncFeed
  import opened SyncDevice
  import opened PushPlan
  import opened SyncEngine

  /** The reference store (`MemoryStore`). */
  class MemoryStore {
    var recs: map<Key, Rec>
    var queue: seq<Pending>
    var conflicts: map<OpId, LocalConflict>
    var cursor: nat

    constructor ()
      ensures recs == map[] && queue == [] && conflicts == map[] && cursor == 0
    {
      recs, queue, conflicts, cursor := map[], [], map[], 0;
    }

    method AddPending(op: Op)
      modifies this`queue
      ensures queue == Enqueued(old(queue), op)
    {
      var i := 0;
      while i < |queue|
        invariant 0 <= i <= |queue| && queue == old(queue)
        invariant forall j :: 0 <= j < i ==> queue[j].op.opId != op.opId
      {
        if queue[i].op.opId == op.opId { return; }
        i := i + 1;
      }
      queue := queue + [Pending(op, 0)];
    }

    method ResolvePending(opId: OpId)
      modifies this`queue
      ensures queue == Without(old(queue), opId)
    {
      var left: seq<Pending> := [];
      for i := 0 to |queue|
        invariant queue == old(queue)
        invariant left + Without(queue[i..], opId) == Without(queue, opId)
      {
        assert queue[i..][1..] == queue[i + 1..];
        if queue[i].op.opId != opId { left := left + [queue[i]]; }
      }
      queue := left;
    }

    method FailPending(opId: OpId)
      modifies this`queue
      ensures queue == Retried(old(queue), opId)
    {
      for i := 0 to |queue|
        invariant queue == old(queue)
        invariant forall j :: 0 <= j < i ==> queue[j].op.opId != opId
      {
        if queue[i].op.opId == opId {
          RetriedAt(queue, opId, i);
          queue := queue[..i] + [queue[i].(attempts := queue[i].attempts + 1)] + queue[i + 1..];
          return;
        }
      }
      RetriedAt(queue, opId, |queue|);
    }
  }

  lemma {:induction false} RetriedAt(queue: seq<Pending>, opId: OpId, i: nat)
    requires i <= |queue| && forall j :: 0 <= j < i ==> queue[j].op.opId != opId
    requires i < |queue| ==> queue[i].op.opId == opId
    ensures Retried(queue, opId) ==
            if i == |queue| then queue
            else queue[..i] + [queue[i].(attempts := queue[i].attempts + 1)] + queue[i + 1..]
  {
    if i > 0 {
      var rest := queue[1..];
      assert forall j :: 0 <= j < i - 1 ==> rest[j] == queue[j + 1];
      RetriedAt(rest, opId, i - 1);
      assert Retried(queue, opId) == [queue[0]] + Retried(rest, opId);
      if i < |queue| {
        assert rest[..i - 1] == queue[1..i] && rest[i..] == queue[i + 1..];
        assert [queue[0]] + rest[..i - 1] == queue[..i];
      }
    }
  }

  class Client {
    const store: MemoryStore
    var opEntity: map<OpId, Entity>

    ghost function State(): Device
      reads this, store
    {
      Device(store.recs, store.queue, store.conflicts, store.cursor, opEntity)
    }

    constructor (store: MemoryStore)
      ensures this.store == store && opEntity == map[]
    {
      this.store, opEntity := store, map[];
    }

    /** A local edit. `ok` is false where the source throws, and then nothing changed. */
    method Queue(m: Mutation, opId: OpId, now: int) returns (ok: bool)
      modifies this, store
      ensures var after := Queued(old(State()), m, opId, now);
              ok == after.Some? && State() == if ok then after.value else old(State())
    {
      if MetaOf(m.key.entity).restOnly { return false; }
      var version := (if m.key in store.recs then store.recs[m.key].version else 0) + 1;
      var current := if m.key in store.recs then store.recs[m.key].data else map[];
      var data := match m.kind case Patch => current + m.data case Upsert => m.data case Delete => map[];
      var op := Op(opId, m.key.entity, m.key.id, m.kind, data, now);
      if m.kind != Delete {
        store.recs := store.recs[m.key := Rec(version, false, data["version" := NumCell(version)])];
      } else if MetaOf(m.key.entity).merge != AppendOnly {
        store.recs := store.recs[m.key := Rec(version, true, current)];
      }
      opEntity := opEntity[opId := m.key.entity];
      store.AddPending(op);
      return true;
    }

    method ApplyResults(results: seq<Result>)
      modifies store
      ensures State() == AnsweredAll(old(State()), results)
    {
      for i := 0 to |results|
        invariant AnsweredAll(State(), results[i..]) == AnsweredAll(old(State()), results)
        invariant opEntity == old(opEntity)
      {
        var r := results[i];
        assert results[i..][1..] == results[i + 1..];
        var key := Key(if r.opId in opEntity then opEntity[r.opId] else WorkOrder, r.recordId);
        if OkOutcome(r.outcome) {
          store.ResolvePending(r.opId);
          if key in store.recs && r.serverVersion.Some? {
            var rec := store.recs[key];
            var data := rec.data["version" := NumCell(r.serverVersion.value)];
            store.recs := store.recs[key := rec.(version := r.serverVersion.value, data := data)];
          }
          if r.outcome == Deduplicated { store.conflicts := store.conflicts - {r.opId}; }
        } else if r.outcome == Conflict && r.serverRecord.Some? {
          var version := if key in store.recs then store.recs[key].version else 0;
          var client := if key in store.recs then store.recs[key].data else map[];
          store.conflicts := store.conflicts[r.opId := LocalConflict(key, r.serverRecord.value, client)];
          var merged := MergeServerRecord(key.entity, r.serverRecord.value, client);
          store.recs := store.recs[key := Rec(version, false, merged)];
        } else {
          store.FailPending(r.opId);
        }
      }
    }

    /**
     The push half of a cycle. `replies[i]` is what the transport returns for batch `i`, `None` when it throws;
     the cursor is stored only after the last batch.
     */
    method PushAll(replies: seq<Option<PushReply>>) returns (online: bool)
      requires |replies| >= |Plan(Ops(store.queue), BATCH_SIZE)|
      modifies store
      ensures (State(), online) ==
              Pushed(old(State()), Plan(Ops(old(store.queue)), BATCH_SIZE), replies, old(store.cursor))
    {
      if store.queue == [] { return true; }
      var batches := PlanPushBatches(Ops(store.queue), BATCH_SIZE);
      var top: nat := store.cursor;
      for i := 0 to |batches|
        invariant Pushed(State(), batches[i..], replies[i..], top) ==
                  Pushed(old(State()), batches, replies, old(store.cursor))
        invariant opEntity == old(opEntity)
      {
        assert batches[i..][1..] == batches[i + 1..] && replies[i..][1..] == replies[i + 1..];
        if replies[i].None? || replies[i].value == BadRequest { return false; }
        top := Max(top, replies[i].value.nextCursor);
        ApplyResults(replies[i].value.results);
      }
      store.cursor := top;
      return true;
    }

    /** The pull half of a cycle: up to |feeds| pages; the cursor is stored when the pages are done or a resync is
        due. */
    method PullAll(feeds: seq<Option<Feed>>, see: Change -> bool) returns (end: PullEnd)
      requires feeds != []
      modifies store
      ensures State() == Pulled(old(State()), feeds, see, PULL_LIMIT)
      ensures end == PullPages(PullState(old(store.recs), old(store.cursor), 0), feeds, see, PULL_LIMIT).1
    {
      var p;
      p, end := ApplyPages(PullState(store.recs, store.cursor, 0), feeds, see);
      if end == Resynced {
        store.cursor := 0;
      } else if end.Finished? {
        store.cursor := p.cursor;
      }
    }

    method ApplyPages(start: PullState, feeds: seq<Option<Feed>>, see: Change -> bool)
      returns (p: PullState, end: PullEnd)
      requires feeds != [] && start.recs == store.recs
      modifies store`recs
      ensures (p, end) == PullPages(start, feeds, see, PULL_LIMIT) && store.recs == p.recs
    {
      p, end := RequestPage(start, feeds[0], see);
      var i := 1;
      while end == Finished(true) && i < |feeds|
        invariant 1 <= i <= |feeds| && store.recs == p.recs
        invariant PullPages(start, feeds, see, PULL_LIMIT) ==
                  if end == Finished(true) && i < |feeds| then PullPages(p, feeds[i..], see, PULL_LIMIT) else (p, end)
      {
        ghost var rest := feeds[i..];
        p, end := RequestPage(p, feeds[i], see);
        i := i + 1;
        assert rest[1..] == feeds[i..];
      }
    }

    /** One page request: what it brings is applied, a failure or a demand for a resync changes nothing. */
    method RequestPage(p: PullState, feed: Option<Feed>, see: Change -> bool) returns (next: PullState, end: PullEnd)
      requires p.recs == store.recs
      modifies store`recs
      ensures (next, end) == OnePage(p, feed, see, PULL_LIMIT) && store.recs == next.recs
    {
      if feed.None? { return p, Interrupted; }
      var page := Pull(feed.value, see, p.cursor, PULL_LIMIT);
      if page == FullResync { return p, Resynced; }
      ApplyPage(page.changes);
      return PullState(store.recs, page.cursor, p.pulled + |page.changes|), Finished(page.hasMore);
    }

    method ApplyPage(changes: seq<Change>)
      modifies store`recs
      ensures store.recs == RemoteAll(old(store.recs), changes)
    {
      for i := 0 to |changes|
        invariant RemoteAll(store.recs, changes[i..]) == RemoteAll(old(store.recs), changes)
      {
        assert changes[i..][1..] == changes[i + 1..];
        var ch := changes[i];
        store.recs := store.recs[ch.key := Remote(Lookup(store.recs, ch.key), ch)];
      }
    }

    method ResolveConflict(o: OpId, local: bool, now: int)
      modifies store
      ensures State() == if local then TookLocal(old(State()), o, now) else TookServer(old(State()), o)
    {
      if o !in store.conflicts { return; }
      var c := store.conflicts[o];
      if !local {
        store.recs := store.recs[c.key := Rec(0, false, c.server)];
        store.conflicts := store.conflicts - {o};
        store.ResolvePending(o);
        return;
      }
      store.conflicts := store.conflicts[Forced(o) := c] - {o};
      store.ResolvePending(o);
      store.AddPending(ForcedOp(o, c, now));
    }
  }

  /** Sending the batches in turn; a failing request ends the cycle with the cursor as it was. */
  function Pushed(d: Device, batches: seq<seq<Op>>, replies: seq<Option<PushReply>>, top: nat): (Device, bool)
    requires |replies| >= |batches|
    decreases batches
  {
    if batches == [] then (d.(cursor := top), true)
    else if replies[0].None? || replies[0].value == BadRequest then (d, false)
    else Pushed(AnsweredAll(d, replies[0].value.results), batches[1..], replies[1..],
      Max(top, replies[0].value.nextCursor))
  }
}
