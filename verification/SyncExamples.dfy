/** Runs in which the system does not do what its design promises: each input is one the server and the app accept. */
module SyncExamples {
  import opened Prelude
  import opened Values
  import opened SyncMeta
  import opened SyncProtocol
  import opened SyncServer
  import opened SyncServerLaws
  import opened SyncDevice
  import opened PushPlan
  import opened Sorting
  import opened SyncOverlap
  import opened SyncSystem
  import opened SyncOutboxLaws

  // ---- a small plant: one device, one clerk ----

  const CLERK_ACCESS: Access :=
    Access({"sync.push", "maint.wo.cancel"}, false, One(Str("u")), One(Str("f")), One(Str("d")), One(Str("s")))
  const CLERK: Env :=
    Env(CLERK_ACCESS, None, {"title", "description", "status", "deletedAt"}, map[], One(Str("now")), NoFault)

  function Plant(rows: map<Key, Row>): Sys {
    Sys(Server(rows, map[], [], [], 0, map[], []), map[0 := FRESH], [], {}, multiset{}, {}, {})
  }

  lemma {:induction false} PlantIsInitial(rows: map<Key, Row>, see: DeviceId -> Change -> bool)
    ensures Initial(Plant(rows)) && Reachable(Plant(rows), see)
  {
    assert After(Plant(rows), [], see) == Plant(rows);
  }

  lemma {:induction false} ClerkIsAdmitted(op: Op)
    requires op.entity == WorkOrder || (op.entity == LabSample && op.kind != Delete)
    ensures Admitted(op, CLERK.access)
  {}

  // ---- one event at a time ----

  lemma {:induction false} AfterSnoc(s: Sys, es: seq<Event>, e: Event, see: DeviceId -> Change -> bool)
    ensures After(s, es + [e], see) == Next(After(s, es, see), e, see)
    decreases es
  {
    if es == [] {
      assert [] + [e] == [e];
      assert After(s, [e], see) == After(Next(s, e, see), [e][1..], see);
    } else {
      assert (es + [e])[1..] == es[1..] + [e];
      AfterSnoc(Next(s, es[0], see), es[1..], e, see);
    }
  }

  lemma {:induction false} Goes(s: Sys, e: Event, see: DeviceId -> Change -> bool) returns (t: Sys)
    requires Reachable(s, see)
    ensures t == Next(s, e, see) && Reachable(t, see)
  {
    t := Next(s, e, see);
    var start, es :| Initial(start) && After(start, es, see) == s;
    AfterSnoc(start, es, e, see);
  }

  lemma {:induction false} PlanOfOne(op: Op)
    ensures Plan([op], BATCH_SIZE) == [[op]]
  {
    assert [op][1..] == [] && [op][..1] == [op];
    assert Sort([op], OpLe) == Insert(op, Sort([], OpLe), OpLe) == [op];
    assert Cut([op], BATCH_SIZE) == [[op][..1]] + Cut([op][1..], BATCH_SIZE);
  }

  function FirstOp(m: Mutation, text: string): Op { QueuedOp(FRESH.local, m, Issued(0, text), 0) }

  /** A record id and an operation id that the server and its request schema accept. */
  predicate Fits(id: string, text: string) { IsUuid(id) && Between(8, text, 64) }

  lemma {:induction false} PlainOp(m: Mutation, text: string)
    requires Fits(m.key.id, text) && MetaOf(m.key.entity).clientGeneratedIds
    requires (m.kind == Patch ==> m.data != map[]) && (m.kind == Delete ==> m.data == map[])
    ensures FirstOp(m, text) == Op(Issued(0, text), m.key.entity, m.key.id, m.kind, m.data, 0)
    ensures WellFormed(FirstOp(m, text))
  {
    assert map[] + m.data == m.data;
  }

  /** A device with one operation in its outbox sends it. */
  lemma {:induction false} StartWithOne(s: Sys, op: Op, see: DeviceId -> Change -> bool)
    requires 0 in s.devs && s.devs[0].phase == Idle && s.devs[0].local.queue == [Pending(op, 0)] && WellFormed(op)
    ensures ValidBatch([op])
    ensures Next(s, StartCycle(0), see) ==
            s.(devs := s.devs[0 := s.devs[0].(phase := Pushing([[op]], s.devs[0].local.cursor))], wire := s.wire + {op})
  {
    var d := s.devs[0];
    assert Ops(d.local.queue) == [op];
    PlanOfOne(op);
    assert Started(d) == d.(phase := Pushing([[op]], d.local.cursor));
    assert Sent(Started(d)) == {op} by { assert [op][0] == op; }
  }

  lemma {:induction false} EditFresh(s: Sys, m: Mutation, text: string, see: DeviceId -> Change -> bool)
    requires s.devs == map[0 := FRESH] && s.issued == [] && !MetaOf(m.key.entity).restOnly
    ensures var t := Next(s, Edit(0, m, text, 0), see);
            && t == s.(devs := t.devs, issued := t.issued) && 0 in t.devs && t.issued == [FirstOp(m, text)]
            && t.devs[0] == Edited(FRESH, m, Issued(0, text), 0)
            && t.devs[0].local.queue == [Pending(FirstOp(m, text), 0)]
  {
    assert Sent(Edited(FRESH, m, Issued(0, text), 0)) == {};
  }

  /** The fresh device queues one acceptable mutation and sends it. */
  lemma {:induction false} SendOne(s: Sys, m: Mutation, text: string, see: DeviceId -> Change -> bool) returns (t: Sys)
    requires Reachable(s, see) && s.devs == map[0 := FRESH] && s.issued == []
    requires !MetaOf(m.key.entity).restOnly && WellFormed(FirstOp(m, text))
    ensures Reachable(t, see) && ValidBatch([FirstOp(m, text)]) && 0 in t.devs
    ensures t == s.(devs := t.devs, issued := t.issued, wire := t.wire) && FirstOp(m, text) in t.wire
    ensures t.devs[0] == Edited(FRESH, m, Issued(0, text), 0).(phase := Pushing([[FirstOp(m, text)]], 0))
  {
    EditFresh(s, m, text, see);
    var q := Goes(s, Edit(0, m, text, 0), see);
    StartWithOne(q, FirstOp(m, text), see);
    t := Goes(q, StartCycle(0), see);
  }

  /** The server takes the operation up and finishes it. */
  lemma {:induction false} AnswerOne(s: Sys, op: Op, see: DeviceId -> Change -> bool) returns (t: Sys)
    requires Reachable(s, see) && op in s.wire && IsUuid(op.recordId) && op.opId !in s.server.stamps
    ensures Reachable(t, see) && t.server == Processed(s.server, op, CLERK).0 && t.devs == s.devs
    ensures (op, Processed(s.server, op, CLERK).1) in t.answers && t.wire == s.wire
  {
    var u := Goes(s, Begin(op, CLERK), see);
    t := Goes(u, Complete(Ticket(op, CLERK)), see);
  }

  /** The device gets the reply to its only operation. */
  lemma {:induction false} ReplyOne(s: Sys, op: Op, r: Result, next: nat, see: DeviceId -> Change -> bool)
    returns (t: Sys)
    requires Reachable(s, see) && (op, r) in s.answers && ValidBatch([op])
    requires 0 in s.devs && s.devs[0].phase == Pushing([[op]], 0) && next <= s.server.head
    ensures Reachable(t, see) && t.server == s.server && 0 in t.devs && t.devs[0] == Replied(s.devs[0], [r], next)
  {
    assert AnswerTo(s, [op], [r]);
    t := Goes(s, Reply(0, [r], next), see);
  }

  // ---- a push reply jumps over a change ----

  const ORDER_DATA: Record := map["title" := One(Str("Pump")), "description" := One(Str("The pump is leaking oil"))]

  function NewOrder(id: string): Mutation { Mutation(Key(WorkOrder, id), Upsert, ORDER_DATA) }

  lemma {:induction false} StampsTheCreator(data: Record, env: Env)
    ensures data + ServerStamp(WorkOrder, env.access) != map[]
  {
    assert "createdById" in data + ServerStamp(WorkOrder, env.access);
  }

  lemma {:induction false} OrderPassesInsert(s: Server, op: Op)
    requires op.entity == WorkOrder && op.data == ORDER_DATA
    ensures Reported(s, op, CLERK) == s && Bookkeeping(op, CLERK) == map[]
    ensures Sanitize(op.data, SafeColumns(CLERK)) + ServerStamp(op.entity, CLERK.access) != map[]
  {
    assert Overrides(op, CLERK.access) == {};
    StampsTheCreator(Sanitize(op.data, SafeColumns(CLERK)), CLERK);
  }

  /** A creation of a work order that the server does not have yet. */
  ghost predicate Creates(s: Server, op: Op) {
    op.entity == WorkOrder && op.kind == Upsert && op.data == ORDER_DATA && KeyOf(op) !in s.rows
  }

  lemma {:induction false} OrderIsInserted(s: Server, op: Op)
    requires Creates(s, op)
    ensures var (t, r) := Inserted(s, op, CLERK); r.outcome == Applied && t.head == s.head + 1 && s.feed <= t.feed
  {
    OrderPassesInsert(s, op);
  }

  lemma {:induction false} OrderIsAccepted(s: Server, op: Op)
    requires Creates(s, op)
    ensures var (t, r) := Processed(s, op, CLERK); r.outcome == Applied && t.head == s.head + 1 && s.feed <= t.feed
  {
    OrderPassesInsert(s, op);
    OrderIsInserted(s, op);
    ClerkIsAdmitted(op);
    GoesToInsert(s, op, CLERK);
  }

  lemma {:induction false} ChangedElsewhere(c: Change, see: DeviceId -> Change -> bool) returns (s: Sys)
    requires c.seqNo == 1
    ensures Reachable(s, see) && s == Plant(map[]).(server := Plant(map[]).server.(feed := [c], head := 1))
  {
    PlantIsInitial(map[], see);
    var s0 := Plant(map[]);
    var after := s0.server.(feed := [c], head := 1);
    assert WrittenElsewhere(s0.server, after);
    s := Goes(s0, Elsewhere(after), see);
  }

  lemma {:induction false} AppliedReply(d: Dev, op: Op, r: Result, next: nat)
    requires d.phase == Pushing([[op]], 0) && d.local.queue == [Pending(op, 0)] && r.opId == op.opId
    requires r.outcome == Applied
    ensures var e := Replied(d, [r], next); e.local.queue == [] && e.local.cursor == next && e.applied == d.applied
  {
    assert AnsweredAll(d.local, [r]) == AnsweredAll(Answered(d.local, r), [r][1..]) == Answered(d.local, r);
    assert Without([Pending(op, 0)], op.opId) == [];
  }

  lemma {:induction false} OrderSentAfterChange(c: Change, id: string, text: string, see: DeviceId -> Change -> bool)
    returns (s: Sys)
    requires c.seqNo == 1 && Fits(id, text)
    ensures Reachable(s, see) && FirstOp(NewOrder(id), text) in s.wire && ValidBatch([FirstOp(NewOrder(id), text)])
    ensures 0 in s.devs
    ensures s.server == Plant(map[]).server.(feed := [c], head := 1)
    ensures var edited := Edited(FRESH, NewOrder(id), Issued(0, text), 0);
            s.devs[0] == edited.(phase := Pushing([[FirstOp(NewOrder(id), text)]], 0))
    ensures s.devs[0].local.queue == [Pending(FirstOp(NewOrder(id), text), 0)]
  {
    var s1 := ChangedElsewhere(c, see);
    PlainOp(NewOrder(id), text);
    s := SendOne(s1, NewOrder(id), text, see);
  }

  /** A change made elsewhere while the device's outbox was not empty: the device's own operation is accepted, its
      reply moves the cursor above the change, and the change was never pulled. */
  lemma {:induction false} PushCanJumpOverChange(c: Change, id: string, text: string, see: DeviceId -> Change -> bool)
    returns (s: Sys)
    requires c.seqNo == 1 && see(0)(c) && Fits(id, text)
    ensures Reachable(s, see) && 0 in s.devs && s.devs[0].local.queue == []
    ensures c in s.server.feed && c.seqNo <= s.devs[0].local.cursor && c.seqNo !in s.devs[0].applied
  {
    var op := FirstOp(NewOrder(id), text);
    PlainOp(NewOrder(id), text);
    var s2 := OrderSentAfterChange(c, id, text, see);
    assert c in s2.server.feed by { assert s2.server.feed[0] == c; }
    OrderIsAccepted(s2.server, op);
    var s3 := AnswerOne(s2, op, see);
    var r := Processed(s2.server, op, CLERK).1;
    AppliedReply(s3.devs[0], op, r, 2);
    s := ReplyOne(s3, op, r, 2, see);
  }

  // ---- two overlapping requests ----

  function OldRow(key: Key): map<Key, Row> { map[key := Row(1, map[])] }

  function DeleteOrder(id: string): Mutation { Mutation(Key(WorkOrder, id), Delete, map[]) }

  /** A deletion of a work order that the server has and nobody approved. */
  ghost predicate Deletes(s: Server, op: Op) {
    op.entity == WorkOrder && op.kind == Delete && KeyOf(op) in s.rows && "status" !in s.rows[KeyOf(op)].cols
  }

  lemma {:induction false} ClerkMayDelete(s: Server, op: Op)
    requires Deletes(s, op)
    ensures WouldWrite(s, op, CLERK) && Deletes(Processed(s, op, CLERK).0, op)
  {
    var row := s.rows[KeyOf(op)];
    assert Get(ReadRow(row, SafeColumns(CLERK)), "status") == One(Null);
  }

  lemma {:induction false} DeleteRunsOnceMore(s: Server, op: Op)
    requires Deletes(s, op)
    ensures Processed(s, op, CLERK).0.effects == s.effects + [op.opId]
  {
    ClerkMayDelete(s, op);
    ProcessedWritesIff(s, op, CLERK);
  }

  lemma {:induction false} BeginTwice(s: Sys, op: Op, see: DeviceId -> Change -> bool) returns (t: Sys)
    requires Reachable(s, see) && op in s.wire && IsUuid(op.recordId) && op.opId !in s.server.stamps
    requires s.inHand == multiset{}
    ensures Reachable(t, see) && t.server == s.server && t.inHand == multiset{Ticket(op, CLERK), Ticket(op, CLERK)}
  {
    var u := Goes(s, Begin(op, CLERK), see);
    t := Goes(u, Begin(op, CLERK), see);
  }

  lemma {:induction false} CompleteTwice(s: Sys, op: Op, see: DeviceId -> Change -> bool) returns (t: Sys)
    requires Reachable(s, see) && s.inHand == multiset{Ticket(op, CLERK), Ticket(op, CLERK)}
    ensures Reachable(t, see) && t.server == Processed(Processed(s.server, op, CLERK).0, op, CLERK).0
  {
    var u := Goes(s, Complete(Ticket(op, CLERK)), see);
    t := Goes(u, Complete(Ticket(op, CLERK)), see);
  }

  lemma {:induction false} DeletedTwice(s: Server, op: Op)
    requires Deletes(s, op) && s.effects == []
    ensures TimesRun(Processed(Processed(s, op, CLERK).0, op, CLERK).0, op.opId) == 2
  {
    DeleteRunsOnceMore(s, op);
    ClerkMayDelete(s, op);
    DeleteRunsOnceMore(Processed(s, op, CLERK).0, op);
    assert [] + [op.opId] + [op.opId] == [op.opId, op.opId];
  }

  /** A request and its re-send are both past the duplicate check before either has stamped the operation: the
      deletion runs twice. */
  lemma {:induction false} OverlapCanRepeat(id: string, text: string, see: DeviceId -> Change -> bool) returns (s: Sys)
    requires Fits(id, text)
    ensures Reachable(s, see) && TimesRun(s.server, Issued(0, text)) == 2
  {
    var op := FirstOp(DeleteOrder(id), text);
    var s0 := Plant(OldRow(Key(WorkOrder, id)));
    PlantIsInitial(s0.server.rows, see);
    PlainOp(DeleteOrder(id), text);
    var s1 := SendOne(s0, DeleteOrder(id), text, see);
    var s2 := BeginTwice(s1, op, see);
    s := CompleteTwice(s2, op, see);
    DeletedTwice(s1.server, op);
  }

  // ---- one deletion stops a device ----

  /** The client queues the deletion of an asset; the operation is malformed, so the device is stuck from then on. */
  lemma {:induction false} DeletedAssetStopsSync(id: string, text: string, see: DeviceId -> Change -> bool)
    returns (s: Sys)
    ensures Reachable(s, see) && Stuck(s, 0, Issued(0, text), 0, {})
  {
    PlantIsInitial(map[], see);
    var m := Mutation(Key(Asset, id), Delete, map[]);
    EditFresh(Plant(map[]), m, text, see);
    s := Goes(Plant(map[]), Edit(0, m, text, 0), see);
    assert s.devs[0].local.queue[0].op.opId == Issued(0, text);
  }
}
