/** Conflicts that reachable runs lead to, and what deciding them does. */
module SyncConflictExamples {
  import opened Values
  import opened SyncMeta
  import opened SyncProtocol
  import opened SyncServer
  import opened SyncServerLaws
  import opened SyncDevice
  import opened SyncSystem
  import opened SyncSystemLaws
  import opened SyncOutboxLaws
  import opened SyncExamples

  /** A status set offline; work orders and samples both protect theirs. */
  const STATUS: Record := map["status" := One(Str("CLOSED"))]

  function SetStatus(key: Key): Mutation { Mutation(key, Patch, STATUS) }

  predicate ProtectsStatus(e: Entity) { e == WorkOrder || e == LabSample }

  const EXISTING: Record :=
      map["title" := One(Null), "description" := One(Null), "status" := One(Null), "deletedAt" := One(Null)]

  lemma {:induction false} RowAsCreated()
    ensures SafeColumns(CLERK) == EXISTING.Keys && ReadRow(Row(1, map[]), EXISTING.Keys) == EXISTING
  {}

  lemma {:induction false} NothingChanges(e: Entity)
    requires ProtectsStatus(e)
    ensures Merged(EXISTING, STATUS, MetaOf(e)) == EXISTING && Changed(EXISTING, EXISTING, EXISTING.Keys) == map[]
    ensures KeptFromServer(STATUS, MetaOf(e)) == {"status"}
  {}

  /** An operation that sets nothing but a status, on a record the server has as it was created. */
  ghost predicate OnlyStatus(s: Server, op: Op) {
    && ProtectsStatus(op.entity) && op.kind != Delete && Sanitize(op.data, EXISTING.Keys) == STATUS
    && KeyOf(op) in s.rows && s.rows[KeyOf(op)] == Row(1, map[])
  }

  /** The server has the record unapproved, and all the operation would change is kept from the client. */
  ghost predicate AllKept(s: Server, op: Op) {
    && KeyOf(op) in s.rows && MetaOf(op.entity).merge == FieldMerge && SafeColumns(CLERK) != {}
    && !IsApproved(ReadRow(s.rows[KeyOf(op)], SafeColumns(CLERK)), op.entity)
    && ChangedBy(s.rows[KeyOf(op)], op, CLERK, true, MetaOf(op.entity)) == map[]
    && KeptFromServer(Sanitize(op.data, SafeColumns(CLERK)), MetaOf(op.entity)) != {}
  }

  lemma {:induction false} StatusChangesNothing(s: Server, op: Op)
    requires OnlyStatus(s, op)
    ensures AllKept(s, op)
  {
    RowAsCreated();
    NothingChanges(op.entity);
  }

  lemma {:induction false} UpdateKeeps(s: Server, op: Op)
    requires AllKept(s, op)
    ensures var (t, r) := Updated(s, op, CLERK, s.rows[KeyOf(op)]);
            t.rows == s.rows && t.stamps == s.stamps && Told(r, op)
  {}

  lemma {:induction false} StatusIsKept(s: Server, op: Op)
    requires OnlyStatus(s, op)
    ensures var (t, r) := Processed(s, op, CLERK); t.rows == s.rows && t.stamps == s.stamps && Told(r, op)
  {
    StatusChangesNothing(s, op);
    UpdateKeeps(s, op);
    ClerkIsAdmitted(op);
    GoesToUpdate(s, op, CLERK);
  }

  lemma {:induction false} StatusData(data: Record)
    requires data == STATUS || data == STATUS["version" := NumCell(1)]
    ensures Sanitize(data, EXISTING.Keys) == STATUS && "status" in STATUS
  {}

  /** The device is told of the conflict. */
  ghost predicate Told(r: Result, op: Op) {
    r.opId == op.opId && r.recordId == op.recordId && r.outcome == Conflict && r.serverRecord.Some?
  }

  /** What the device makes of that: the conflict is listed, the operation stays queued. */
  ghost predicate Listed(d: Device, e: Device, op: Op, r: Result) {
    var key := Key(EntityOf(d, op.opId), op.recordId);
    && op.opId in e.conflicts && r.serverRecord.Some?
    && e.conflicts[op.opId] == LocalConflict(key, r.serverRecord.value, LocalData(d, key))
    && e.queue == d.queue && e.opEntity == d.opEntity && e.cursor == 0
  }

  lemma {:induction false} ConflictReply(d: Dev, op: Op, r: Result)
    requires d.phase == Pushing([[op]], 0) && Told(r, op)
    ensures Listed(d.local, Replied(d, [r], 0).local, op, r)
  {
    assert AnsweredAll(d.local, [r]) == AnsweredAll(Answered(d.local, r), [r][1..]) == Answered(d.local, r);
  }

  lemma {:induction false} EndCycle(s: Sys, see: DeviceId -> Change -> bool) returns (t: Sys)
    requires Reachable(s, see) && 0 in s.devs && !s.devs[0].phase.Idle?
    ensures Reachable(t, see) && t == s.(devs := s.devs[0 := s.devs[0].(phase := Idle)])
  {
    t := Goes(s, Fail(0), see);
  }

  lemma {:induction false} GetReply(s: Sys, op: Op, r: Result, see: DeviceId -> Change -> bool) returns (t: Sys)
    requires Reachable(s, see) && (op, r) in s.answers && ValidBatch([op])
    requires 0 in s.devs && s.devs[0].phase == Pushing([[op]], 0)
    ensures Reachable(t, see) && t == s.(devs := s.devs[0 := Replied(s.devs[0], [r], 0)])
  {
    assert AnswerTo(s, [op], [r]);
    t := Goes(s, Reply(0, [r], 0), see);
  }

  /** From the reply with a conflict to the end of that cycle. */
  lemma {:induction false} ConflictListed(s: Sys, op: Op, r: Result, see: DeviceId -> Change -> bool) returns (t: Sys)
    requires Reachable(s, see) && (op, r) in s.answers && ValidBatch([op]) && Told(r, op)
    requires 0 in s.devs && s.devs[0].phase == Pushing([[op]], 0)
    ensures Reachable(t, see) && t.server == s.server && t.answers == s.answers && t.wire == s.wire && 0 in t.devs
    ensures t.devs[0].phase == Idle && Listed(s.devs[0].local, t.devs[0].local, op, r)
  {
    ConflictReply(s.devs[0], op, r);
    var u := GetReply(s, op, r, see);
    t := EndCycle(u, see);
  }

  /** Device 0 rests, with this operation in its outbox and nothing pulled yet. */
  ghost predicate Rests(s: Sys, op: Op) {
    && 0 in s.devs && s.devs[0].phase == Idle && s.devs[0].local.cursor == 0
       && s.devs[0].local.queue == [Pending(op, 0)]
    && WellFormed(op) && IsUuid(op.recordId) && op.opId !in s.server.stamps
  }

  lemma {:induction false} SendQueued(s: Sys, op: Op, see: DeviceId -> Change -> bool) returns (t: Sys)
    requires Reachable(s, see) && Rests(s, op)
    ensures Reachable(t, see) && t.server == s.server && op in t.wire && t.answers == s.answers && ValidBatch([op])
    ensures 0 in t.devs
    ensures t.devs[0] == s.devs[0].(phase := Pushing([[op]], 0))
  {
    StartWithOne(s, op, see);
    t := Goes(s, StartCycle(0), see);
  }

  lemma {:induction false} AnswerConflict(s: Sys, op: Op, see: DeviceId -> Change -> bool) returns (t: Sys, r: Result)
    requires Reachable(s, see) && op in s.wire && IsUuid(op.recordId) && op.opId !in s.server.stamps
    requires OnlyStatus(s.server, op)
    ensures Told(r, op) && Reachable(t, see) && (op, r) in t.answers && t.devs == s.devs && t.wire == s.wire
    ensures t.server.rows == s.server.rows && t.server.stamps == s.server.stamps
  {
    StatusIsKept(s.server, op);
    t := AnswerOne(s, op, see);
    r := Processed(s.server, op, CLERK).1;
  }

  /** A device with one queued operation that sets nothing but a status sends it and is told of the conflict. */
  lemma {:induction false} ConflictOverStatus(s: Sys, op: Op, see: DeviceId -> Change -> bool)
    returns (t: Sys, r: Result)
    requires Reachable(s, see) && Rests(s, op) && OnlyStatus(s.server, op)
    ensures Told(r, op) && Reachable(t, see) && op in t.wire && (op, r) in t.answers
    ensures t.server.rows == s.server.rows && t.server.stamps == s.server.stamps && 0 in t.devs
    ensures t.devs[0].phase == Idle && Listed(s.devs[0].local, t.devs[0].local, op, r)
  {
    var u := SendQueued(s, op, see);
    var v;
    v, r := AnswerConflict(u, op, see);
    t := ConflictListed(v, op, r, see);
  }

  function StatusOp(key: Key, text: string): Op { Op(Issued(0, text), key.entity, key.id, Patch, STATUS, 0) }

  lemma {:induction false} StatusOpFits(key: Key, text: string)
    requires ProtectsStatus(key.entity) && Fits(key.id, text)
    ensures FirstOp(SetStatus(key), text) == StatusOp(key, text) && WellFormed(StatusOp(key, text))
  {
    StatusData(STATUS);
    PlainOp(SetStatus(key), text);
  }

  /** The device queues the status. */
  lemma {:induction false} StatusQueued(key: Key, text: string, see: DeviceId -> Change -> bool) returns (s: Sys)
    requires ProtectsStatus(key.entity) && Fits(key.id, text)
    ensures Reachable(s, see) && s.server == Plant(OldRow(key)).server && Rests(s, StatusOp(key, text))
    ensures s.devs[0] == Edited(FRESH, SetStatus(key), Issued(0, text), 0)
  {
    var s0 := Plant(OldRow(key));
    PlantIsInitial(OldRow(key), see);
    StatusOpFits(key, text);
    EditFresh(s0, SetStatus(key), text, see);
    s := Goes(s0, Edit(0, SetStatus(key), text, 0), see);
  }

  lemma {:induction false} OldRowTakesStatus(s: Server, key: Key, text: string)
    requires ProtectsStatus(key.entity) && s.rows == OldRow(key)
    ensures OnlyStatus(s, StatusOp(key, text))
  {
    StatusData(STATUS);
  }

  lemma {:induction false} StatusShown(key: Key, text: string)
    requires ProtectsStatus(key.entity)
    ensures var d := Edited(FRESH, SetStatus(key), Issued(0, text), 0).local;
            && LocalData(d, key) == STATUS["version" := NumCell(1)] && d.opEntity == map[Issued(0, text) := key.entity]
            && EntityOf(d, Issued(0, text)) == key.entity
  {
    assert map[] + STATUS == STATUS;
  }

  /** A status set offline on a record the server has is kept from the client and listed as a conflict, under that
      record. */
  lemma {:induction false} StatusPatchConflicts(key: Key, text: string, see: DeviceId -> Change -> bool)
    returns (s: Sys, r: Result)
    requires ProtectsStatus(key.entity) && Fits(key.id, text)
    ensures var op := StatusOp(key, text);
            && Told(r, op) && Reachable(s, see) && Rests(s, op) && (op, r) in s.answers
            && s.server.rows == OldRow(key) && s.server.stamps == map[]
               && s.devs[0].local.opEntity == map[op.opId := key.entity]
            && op.opId in s.devs[0].local.conflicts
            && s.devs[0].local.conflicts[op.opId] ==
               LocalConflict(key, r.serverRecord.value, STATUS["version" := NumCell(1)])
  {
    var q := StatusQueued(key, text, see);
    OldRowTakesStatus(q.server, key, text);
    StatusShown(key, text);
    s, r := ConflictOverStatus(q, StatusOp(key, text), see);
  }

  lemma {:induction false} RestartForgets(s: Sys, op: Op, see: DeviceId -> Change -> bool) returns (t: Sys)
    requires Reachable(s, see) && Rests(s, op)
    ensures Reachable(t, see) && t.server == s.server && Rests(t, op) && t.devs[0].local.opEntity == map[]
  {
    t := Goes(s, Restart(0), see);
  }

  /** After a restart the conflict over a sample is filed under a work order. */
  lemma {:induction false} RestartMisfiles(id: string, text: string, see: DeviceId -> Change -> bool)
    returns (s: Sys, op: Op)
    requires Fits(id, text)
    ensures Reachable(s, see) && 0 in s.devs && op in s.wire && Key(op.entity, op.recordId) == Key(LabSample, id)
    ensures op.opId in s.devs[0].local.conflicts && s.devs[0].local.conflicts[op.opId].key == Key(WorkOrder, id)
  {
    op := StatusOp(Key(LabSample, id), text);
    var queued := StatusQueued(Key(LabSample, id), text, see);
    var again := RestartForgets(queued, op, see);
    OldRowTakesStatus(again.server, Key(LabSample, id), text);
    var r;
    s, r := ConflictOverStatus(again, op, see);
  }

  lemma {:induction false} KeptAlone(d: Device, o: OpId, op: Op, now: int)
    requires d.queue == [Pending(op, 0)] && op.opId == o && o in d.conflicts
    ensures TookLocal(d, o, now).queue == [Pending(ForcedOp(o, d.conflicts[o], now), 0)]
  {
    assert [Pending(op, 0)][1..] == [];
    assert Without([Pending(op, 0)], o) == [];
  }

  lemma {:induction false} KeptOpIsStatus(s: Server, o: OpId, c: LocalConflict)
    requires ProtectsStatus(c.key.entity) && s.rows == OldRow(c.key) && c.client == STATUS["version" := NumCell(1)]
    ensures OnlyStatus(s, ForcedOp(o, c, 0))
  {
    StatusData(c.client);
  }

  /** The user keeps the copy; it waits under the forced id, of which the client object knows nothing. */
  lemma {:induction false} KeepsCopy(s: Sys, op: Op, see: DeviceId -> Change -> bool) returns (t: Sys, forced: Op)
    requires Reachable(s, see) && Rests(s, op) && op.opId in s.devs[0].local.conflicts
    requires s.server.stamps == map[] && |OpText(op.opId)| <= 57
    requires s.devs[0].local.conflicts[op.opId].key.id == op.recordId
    ensures forced == ForcedOp(op.opId, s.devs[0].local.conflicts[op.opId], 0)
    ensures Reachable(t, see) && t.server == s.server && Rests(t, forced)
    ensures t.devs[0].local.opEntity == s.devs[0].local.opEntity
  {
    forced := ForcedOp(op.opId, s.devs[0].local.conflicts[op.opId], 0);
    KeptAlone(s.devs[0].local, op.opId, op, 0);
    t := Goes(s, Decide(0, op.opId, true, 0), see);
  }

  /** Without any restart: the user keeps the sample's copy, and the conflict over it is filed under a work order. */
  lemma {:induction false} KeptCopyMisfiled(id: string, text: string, see: DeviceId -> Change -> bool)
    returns (s: Sys, op: Op)
    requires Fits(id, text) && |text| <= 57
    ensures Reachable(s, see) && 0 in s.devs && op in s.wire && op.opId.Forced?
    ensures Key(op.entity, op.recordId) == Key(LabSample, id)
    ensures op.opId in s.devs[0].local.conflicts && s.devs[0].local.conflicts[op.opId].key == Key(WorkOrder, id)
  {
    var first := StatusOp(Key(LabSample, id), text);
    var before, r := StatusPatchConflicts(Key(LabSample, id), text, see);
    var kept, again;
    kept, op := KeepsCopy(before, first, see);
    KeptOpIsStatus(kept.server, first.opId, before.devs[0].local.conflicts[first.opId]);
    s, again := ConflictOverStatus(kept, op, see);
  }

  /** A conflict may be listed again while its kept copy is still to be sent: the operation was on its way a second
      time. */
  lemma {:induction false} ListedAgain(id: string, text: string, see: DeviceId -> Change -> bool)
    returns (s: Sys, o: OpId)
    requires Fits(id, text)
    ensures Reachable(s, see) && 0 in s.devs && o in s.devs[0].local.conflicts
    ensures HasPending(s.devs[0].local.queue, Forced(o))
  {
    var key := Key(WorkOrder, id);
    var op := StatusOp(key, text);
    o := op.opId;
    var before, r := StatusPatchConflicts(key, text, see);
    var sent := SendQueued(before, op, see);
    var d := sent.devs[0];
    KeptAlone(d.local, o, op, 0);
    var kept := Goes(sent, Decide(0, o, true, 0), see);
    s := ConflictListed(kept, op, r, see);
    assert s.devs[0].local.queue[0].op.opId == Forced(o);
  }

  // ---- deciding the same conflict again and again ----

  lemma {:induction false} KeepMine(s: Sys, i: DeviceId, o: OpId, see: DeviceId -> Change -> bool) returns (t: Sys)
    requires Reachable(s, see) && i in s.devs && s.devs[i].phase == Idle && o in s.devs[i].local.conflicts
    ensures Reachable(t, see) && i in t.devs && t.devs[i].phase == Idle && t.issued == s.issued
    ensures Forced(o) in t.devs[i].local.conflicts && HasPending(t.devs[i].local.queue, Forced(o))
  {
    var d := s.devs[i];
    EnqueuedHolds(Without(d.local.queue, o), ForcedOp(o, d.local.conflicts[o], 0), Forced(o));
    t := Goes(s, Decide(i, o, true, 0), see);
  }

  /** "Keep mine" on the same conflict as often as it takes for the id to outgrow the request schema: the device is
      stuck. */
  lemma {:induction false} KeepMineWearsOut(s: Sys, i: DeviceId, o: OpId, k: nat, see: DeviceId -> Change -> bool)
    returns (t: Sys)
    requires Reachable(s, see) && i in s.devs && s.devs[i].phase == Idle && o in s.devs[i].local.conflicts && k > 0
    ensures Reachable(t, see) && i in t.devs && t.devs[i].phase == Idle
    ensures ForcedTimes(o, k) in t.devs[i].local.conflicts
    ensures |OpText(o)| + 7 * k > 64 ==> Stuck(t, i, ForcedTimes(o, k), t.devs[i].local.cursor, t.devs[i].applied)
  {
    var before := s;
    if k > 1 { before := KeepMineWearsOut(s, i, o, k - 1, see); }
    t := KeepMine(before, i, ForcedTimes(o, k - 1), see);
    ForcedIdFitsIff(o, k);
  }
}
