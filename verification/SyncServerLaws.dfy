/**
 What holds of the server over every history of deliveries: whichever operations arrive, from
 whichever sessions, however often and in whatever order, with any statement failing.
 */
module SyncServerLaws {
  import opened Prelude
  import opened Values
  import opened SyncMeta
  import opened SyncProtocol
  import opened SyncServer

  datatype Delivery = Delivery(op: Op, env: Env)

  function Step(s: Server, d: Delivery): Server { Delivered(s, d.op, d.env).0 }

  function Answer(s: Server, d: Delivery): Result { Delivered(s, d.op, d.env).1 }

  function Run(s: Server, h: seq<Delivery>): Server
    decreases h
  {
    if h == [] then s else Run(Step(s, h[0]), h[1..])
  }

  lemma {:induction false} RunAppend(s: Server, h: seq<Delivery>, k: seq<Delivery>)
    ensures Run(s, h + k) == Run(Run(s, h), k)
    decreases h
  {
    if h == [] {
      assert h + k == k;
    } else {
      assert (h + k)[1..] == h[1..] + k;
      RunAppend(Step(s, h[0]), h[1..], k);
    }
  }

  function Deliveries(ops: seq<Op>, envs: seq<Env>): seq<Delivery>
    requires |ops| == |envs|
  {
    if ops == [] then []
    else Deliveries(ops[..|ops| - 1], envs[..|envs| - 1]) + [Delivery(ops[|ops| - 1], envs[|envs| - 1])]
  }

  lemma {:induction false} RunSnoc(s: Server, h: seq<Delivery>, d: Delivery)
    ensures Run(s, h + [d]) == Step(Run(s, h), d)
  {
    RunAppend(s, h, [d]);
    assert [d][1..] == [];
  }

  /** A push is the history of its operations, one after the other: what holds of histories holds of pushes. */
  lemma {:induction false} PushIsRun(s: Server, ops: seq<Op>, envs: seq<Env>)
    requires |ops| == |envs|
    ensures DeliveredAll(s, ops, envs).0 == Run(s, Deliveries(ops, envs)) && |Deliveries(ops, envs)| == |ops|
    ensures forall k :: 0 <= k < |ops| ==>
              DeliveredAll(s, ops, envs).1[k] == Answer(Run(s, Deliveries(ops, envs)[..k]), Deliveries(ops, envs)[k])
    decreases ops
  {
    if ops != [] {
      var n := |ops| - 1;
      var before := Deliveries(ops[..n], envs[..n]);
      PushIsRun(s, ops[..n], envs[..n]);
      RunSnoc(s, before, Delivery(ops[n], envs[n]));
      var all := Deliveries(ops, envs);
      assert all[..n] == before;
      assert forall k :: 0 <= k < n ==> all[..k] == before[..k] && all[k] == before[k];
    }
  }

  /** A row's columns, and what a caller restricted to `safe` columns is shown of them. */
  function ColsAt(s: Server, key: Key): Record { if key in s.rows then s.rows[key].cols else map[] }

  function Shown(cols: Record, safe: set<string>): Record { ReadRow(Row(0, cols), safe) }

  // ---- where an admitted operation goes ----

  lemma {:induction false} GoesToUpdate(s: Server, op: Op, env: Env)
    requires Admitted(op, env.access) && env.inScope != Some(false) && env.fault != QueryFault
    requires op.kind != Delete && KeyOf(op) in s.rows && SafeColumns(env) != {}
    ensures Processed(s, op, env) == Updated(s, op, env, s.rows[KeyOf(op)])
  {}

  lemma {:induction false} GoesToInsert(s: Server, op: Op, env: Env)
    requires Admitted(op, env.access) && env.inScope != Some(false) && env.fault != QueryFault
    requires op.kind == Upsert && KeyOf(op) !in s.rows
    ensures Processed(s, op, env) == Inserted(Reported(s, op, env), op, env)
  {}

  lemma {:induction false} InsertLeaves(s: Server, op: Op, env: Env)
    requires KeyOf(op) !in s.rows && env.fault == NoFault
    requires Sanitize(op.data, SafeColumns(env)) + ServerStamp(op.entity, env.access) != map[]
    requires InsertCols(op, env, NextNumber(s, op.entity)).Keys !! Bookkeeping(op, env).Keys
    ensures Inserted(s, op, env).1.outcome == Applied && KeyOf(op) in Inserted(s, op, env).0.rows
    ensures ColsAt(Inserted(s, op, env).0, KeyOf(op)) ==
            env.defaults + InsertCols(op, env, NextNumber(s, op.entity)) + Bookkeeping(op, env)
  {}

  // ---- the normal form of a delivery ----

  /** Besides log lines and consumed numbers a delivery does one of three things. */
  datatype Effect =
    | Quiet
    | Ack(outcome: Outcome, kept: set<string>)
    | Write(cols: Record, outcome: Outcome, kept: set<string>)

  function Acknowledged(q: Server, op: Op, e: Effect): (Server, Result)
    requires e != Quiet
  {
    Succeeded(if e.Ack? then q else Written(q, KeyOf(op), e.cols, op.opId), op, e.outcome, e.kept)
  }

  function Performed(q: Server, op: Op, e: Effect): Server {
    if e == Quiet then q else Acknowledged(q, op, e).0
  }

  /** `r` is `e` carried out: a success answer exactly when something was acknowledged. */
  ghost predicate CarriesOut(r: (Server, Result), q: Server, op: Op, e: Effect) {
    if e == Quiet then r.0 == q && !OkOutcome(r.1.outcome) else r == Acknowledged(q, op, e)
  }

  ghost predicate OnlyLogged(s: Server, q: Server) {
    q == s.(conflicts := q.conflicts, numbers := q.numbers) && s.conflicts <= q.conflicts
  }

  ghost predicate Accepting(e: Effect) { e.Quiet? || e.outcome in {Applied, MergedIn} }

  /** The row an INSERT leaves when `n` is the number drawn. */
  ghost predicate LegalInsert(op: Op, env: Env, n: nat, cols: Record) {
    && op.kind == Upsert && cols == env.defaults + InsertCols(op, env, n) + Bookkeeping(op, env)
    && InsertCols(op, env, n).Keys !! Bookkeeping(op, env).Keys
  }

  /** The row a data statement leaves, for each kind of operation. */
  ghost predicate LegalWrite(s: Server, op: Op, env: Env, cols: Record) {
    if KeyOf(op) !in s.rows then LegalInsert(op, env, NextNumber(s, op.entity), cols)
    else if op.kind == Delete then cols == s.rows[KeyOf(op)].cols["deletedAt" := env.now]
    else
      var row := s.rows[KeyOf(op)];
      && Resolve(op.entity, IsApproved(ReadRow(row, SafeColumns(env)), op.entity)) in {ApplyClient, Merge}
      && cols == row.cols + ChangedBy(row, op, env, MetaOf(op.entity).merge == FieldMerge, MetaOf(op.entity))
  }

  lemma {:induction false} CreatedForm(s: Server, op: Op, env: Env) returns (q: Server, e: Effect)
    requires op.kind != Delete
    ensures OnlyLogged(s, q) && Accepting(e) && CarriesOut(Created(s, op, env), q, op, e)
    ensures !e.Ack? && (e.Write? ==> KeyOf(op) !in s.rows && q.numbers == Numbered(s, op).numbers)
    ensures e.Write? ==> LegalInsert(op, env, NextNumber(s, op.entity), e.cols)
  {
    if op.kind == Patch { return s, Quiet; }
    var s1 := ReportedForm(s, op, env);
    q, e := InsertedForm(s1, op, env);
  }

  lemma {:induction false} ReportedForm(s: Server, op: Op, env: Env) returns (s1: Server)
    ensures s1 == Reported(s, op, env) && s1 == s.(conflicts := s1.conflicts) && s.conflicts <= s1.conflicts
    ensures NextNumber(s1, op.entity) == NextNumber(s, op.entity) && Numbered(s1, op).numbers == Numbered(s, op).numbers
  {
    s1 := Reported(s, op, env);
  }

  lemma {:induction false} InsertedForm(s: Server, op: Op, env: Env) returns (q: Server, e: Effect)
    requires op.kind == Upsert
    ensures OnlyLogged(s, q) && q.conflicts == s.conflicts && Accepting(e) && CarriesOut(Inserted(s, op, env), q, op, e)
    ensures !e.Ack? && (e.Write? ==> KeyOf(op) !in s.rows && q.numbers == Numbered(s, op).numbers)
    ensures e.Write? ==> LegalInsert(op, env, NextNumber(s, op.entity), e.cols)
  {
    if Sanitize(op.data, SafeColumns(env)) + ServerStamp(op.entity, env.access) == map[] { return s, Quiet; }
    var cols := InsertCols(op, env, NextNumber(s, op.entity));
    if env.fault == WriteFault || KeyOf(op) in s.rows || cols.Keys * Bookkeeping(op, env).Keys != {} {
      return Numbered(s, op), Quiet;
    }
    return Numbered(s, op), Write(env.defaults + cols + Bookkeeping(op, env), Applied, {});
  }

  lemma {:induction false} SettledForm(s: Server, op: Op, fault: Fault, row: Row, incoming: Record, existing: Record,
                                       changed: Record,
                                       outcome: Outcome, kept: set<string>) returns (q: Server, e: Effect)
    requires outcome in {Applied, MergedIn}
    ensures OnlyLogged(s, q) && Accepting(e)
    ensures CarriesOut(Settled(s, op, fault, row, incoming, existing, changed, outcome, kept), q, op, e)
    ensures (e.Write? ==> e.cols == row.cols + changed) && (e.Ack? ==> changed == map[])
  {
    if changed == map[] && kept != {} {
      return Logged(s, op, ServerWinsLog, incoming, existing, kept), Quiet;
    }
    if changed == map[] { return s, Ack(Applied, {}); }
    if fault == WriteFault { return s, Quiet; }
    return s, Write(row.cols + changed, outcome, kept);
  }

  lemma {:induction false} AmendedForm(s: Server, op: Op, env: Env, row: Row, merge: bool, meta: Meta)
    returns (q: Server, e: Effect)
    ensures OnlyLogged(s, q) && Accepting(e) && CarriesOut(Amended(s, op, env, row, merge, meta), q, op, e)
    ensures (e.Write? ==> e.cols == row.cols + ChangedBy(row, op, env, merge, meta))
    ensures (e.Ack? ==> ChangedBy(row, op, env, merge, meta) == map[])
  {
    var incoming := Sanitize(op.data, SafeColumns(env));
    q, e := SettledForm(s, op, env.fault, row, incoming, ReadRow(row, SafeColumns(env)),
        ChangedBy(row, op, env, merge, meta),
                        if merge then MergedIn else Applied, if merge then KeptFromServer(incoming, meta) else {});
  }

  lemma {:induction false} UpdatedForm(s: Server, op: Op, env: Env, row: Row) returns (q: Server, e: Effect)
    requires op.kind != Delete && KeyOf(op) in s.rows && row == s.rows[KeyOf(op)]
    ensures OnlyLogged(s, q) && Accepting(e) && CarriesOut(Updated(s, op, env, row), q, op, e)
    ensures e.Write? ==> LegalWrite(s, op, env, e.cols)
  {
    var cols := SafeColumns(env);
    var incoming := Sanitize(op.data, cols);
    var existing := ReadRow(row, cols);
    var action := Resolve(op.entity, IsApproved(existing, op.entity));
    ResolveByPolicy(op.entity, IsApproved(existing, op.entity));
    if action == RejectOp {
      return Logged(s, op, RejectedLog, incoming, existing, incoming.Keys), Quiet;
    }
    if action == KeepServer {
      return Logged(s, op, ServerWinsLog, incoming, existing, incoming.Keys), Quiet;
    }
    q, e := AmendedForm(s, op, env, row, action == Merge, MetaOf(op.entity));
  }

  lemma {:induction false} ErasedForm(s: Server, op: Op, env: Env) returns (q: Server, e: Effect)
    requires op.kind == Delete
    ensures q == s && Accepting(e) && Performed(q, op, e) == Erased(s, op, env).0
    ensures e != Quiet ==> Erased(s, op, env) == Acknowledged(q, op, e)
    ensures e.Write? ==> KeyOf(op) in s.rows && LegalWrite(s, op, env, e.cols)
    ensures e == Quiet && OkOutcome(Erased(s, op, env).1.outcome) ==> KeyOf(op) !in s.rows
    ensures !e.Ack? && Erased(s, op, env).1.outcome != Deduplicated
  {
    if "deletedAt" !in SafeColumns(env) || KeyOf(op) !in s.rows { return s, Quiet; }
    var row := s.rows[KeyOf(op)];
    if (IsApproved(ReadRow(row, SafeColumns(env)), op.entity) && !env.access.facilityWide) || env.fault == WriteFault {
      return s, Quiet;
    }
    return s, Write(row.cols["deletedAt" := env.now], Applied, {});
  }

  /** The same of a request past the duplicate check, whatever has been stamped in the meantime. */
  lemma {:induction false} ProcessedForm(s: Server, op: Op, env: Env) returns (q: Server, e: Effect)
    ensures OnlyLogged(s, q) && Accepting(e) && Processed(s, op, env).0 == Performed(q, op, e)
    ensures e.Write? ==> LegalWrite(s, op, env, e.cols) && Admitted(op, env.access)
    ensures e.Write? && KeyOf(op) !in s.rows ==> q.numbers == Numbered(s, op).numbers
    ensures e != Quiet ==> Processed(s, op, env) == Acknowledged(q, op, e)
    ensures e == Quiet && OkOutcome(Processed(s, op, env).1.outcome) ==>
              op.kind == Delete && KeyOf(op) !in s.rows && q == s
    ensures Processed(s, op, env).1.outcome != Deduplicated
  {
    if !Admitted(op, env.access) || env.inScope == Some(false) || env.fault == QueryFault {
      return s, Quiet;
    }
    if op.kind == Delete {
      q, e := ErasedForm(s, op, env);
    } else if KeyOf(op) in s.rows && SafeColumns(env) != {} {
      q, e := UpdatedForm(s, op, env, s.rows[KeyOf(op)]);
    } else {
      q, e := CreatedForm(s, op, env);
    }
  }

  lemma {:induction false} NormalForm(s: Server, op: Op, env: Env) returns (q: Server, e: Effect)
    ensures OnlyLogged(s, q) && Accepting(e) && Step(s, Delivery(op, env)) == Performed(q, op, e)
    ensures op.opId in s.stamps ==> e == Quiet && q == s
    ensures e.Write? ==> LegalWrite(s, op, env, e.cols) && Admitted(op, env.access)
    ensures e.Write? && KeyOf(op) !in s.rows ==> q.numbers == Numbered(s, op).numbers
    ensures e != Quiet ==> IsUuid(op.recordId) && Delivered(s, op, env) == Acknowledged(q, op, e)
    ensures e == Quiet && op.opId !in s.stamps && OkOutcome(Delivered(s, op, env).1.outcome) ==>
              op.kind == Delete && KeyOf(op) !in s.rows && q == s
  {
    if !IsUuid(op.recordId) || op.opId in s.stamps { return s, Quiet; }
    q, e := ProcessedForm(s, op, env);
  }

  // ---- at most one effect ----

  /** Every data statement is stamped, stamps record acceptances, the feed ascends. */
  ghost predicate Recorded(s: Server) {
    && (forall o :: o in s.effects ==> o in s.stamps)
    && (forall o :: o in s.stamps ==> s.stamps[o].outcome in {Applied, MergedIn} && s.stamps[o].serverSeq <= s.head)
    && FeedAscends(s.feed, s.head)
  }

  /** And none ran twice. */
  ghost predicate Consistent(s: Server) { Recorded(s) && Distinct(s.effects) }

  ghost predicate FeedAscends(feed: seq<Change>, head: nat) {
    && (forall i :: 0 <= i < |feed| ==> 0 < feed[i].seqNo <= head)
    && (forall i, j :: 0 <= i < j < |feed| ==> feed[i].seqNo < feed[j].seqNo)
  }

  /** The server only grows: stamps stay as they are, rows and effects stay, the feed is appended to. */
  ghost predicate Grows(s: Server, t: Server) {
    && s.head <= t.head && s.feed <= t.feed && s.effects <= t.effects && s.conflicts <= t.conflicts
    && s.rows.Keys <= t.rows.Keys
    && (forall o :: o in s.stamps ==> o in t.stamps && t.stamps[o] == s.stamps[o])
  }

  lemma {:induction false} FeedAppends(feed: seq<Change>, head: nat, c: Change)
    requires FeedAscends(feed, head) && c.seqNo == head + 1
    ensures FeedAscends(feed + [c], head + 1)
  {}

  lemma {:induction false} DistinctAppend<T>(s: seq<T>, x: T)
    requires Distinct(s) && x !in s
    ensures Distinct(s + [x])
  {}

  lemma {:induction false} PerformedEffects(q: Server, op: Op, e: Effect)
    ensures Performed(q, op, e).effects == q.effects + if e.Write? then [op.opId] else []
    ensures e != Quiet ==> op.opId in Performed(q, op, e).stamps
  {}

  lemma {:induction false} PerformedRecorded(q: Server, op: Op, e: Effect)
    requires Recorded(q) && Accepting(e)
    ensures Recorded(Performed(q, op, e))
  {
    if e != Quiet {
      var w := if e.Ack? then q else Written(q, KeyOf(op), e.cols, op.opId);
      var t := Performed(q, op, e);
      assert t.feed == w.feed && t.head == w.head;
      assert t.stamps == if op.opId in q.stamps then q.stamps
          else q.stamps[op.opId := Stamp(e.outcome, w.head, e.kept)];
      if e.Write? { FeedAppends(q.feed, q.head, w.feed[|q.feed|]); }
      PerformedEffects(q, op, e);
    }
  }

  lemma {:induction false} StepKeepsConsistent(s: Server, d: Delivery)
    requires Consistent(s)
    ensures Consistent(Step(s, d))
  {
    var q, e := NormalForm(s, d.op, d.env);
    PerformedRecorded(q, d.op, e);
    PerformedEffects(q, d.op, e);
    if e.Write? { DistinctAppend(q.effects, d.op.opId); }
  }

  lemma {:induction false} PerformedGrows(q: Server, op: Op, e: Effect)
    ensures Grows(q, Performed(q, op, e))
  {}

  /** What carrying out an effect does to the rows. */
  lemma {:induction false} PerformedRow(q: Server, op: Op, e: Effect, key: Key)
    ensures key in Performed(q, op, e).rows <==> key in q.rows || (e.Write? && key == KeyOf(op))
    ensures ColsAt(Performed(q, op, e), key) == if e.Write? && key == KeyOf(op) then e.cols else ColsAt(q, key)
    ensures Performed(q, op, e).numbers == q.numbers
  {}

  lemma {:induction false} StepGrows(s: Server, d: Delivery)
    ensures Grows(s, Step(s, d))
  {
    var q, e := NormalForm(s, d.op, d.env);
    PerformedGrows(q, d.op, e);
  }

  lemma {:induction false} RunKeepsConsistent(s: Server, h: seq<Delivery>)
    requires Consistent(s)
    ensures Consistent(Run(s, h))
    decreases h
  {
    if h != [] {
      StepKeepsConsistent(s, h[0]);
      RunKeepsConsistent(Step(s, h[0]), h[1..]);
    }
  }

  lemma {:induction false} RunGrows(s: Server, h: seq<Delivery>)
    ensures Grows(s, Run(s, h))
    decreases h
  {
    if h != [] {
      StepGrows(s, h[0]);
      RunGrows(Step(s, h[0]), h[1..]);
    }
  }

  ghost function TimesRun(s: Server, o: OpId): nat { multiset(s.effects)[o] }

  /** Exactly-once effect: over every history each operation's data statement runs at most once. */
  lemma {:induction false} EffectAtMostOnce(s: Server, h: seq<Delivery>, o: OpId)
    requires Consistent(s)
    ensures TimesRun(Run(s, h), o) <= 1
    ensures TimesRun(Run(s, h), o) == 1 ==> o in Run(s, h).stamps
  {
    RunKeepsConsistent(s, h);
    DistinctOnce(Run(s, h).effects, o);
  }

  /** An answer the device counts as success means the operation is stamped, or deleted a row that is not there. */
  lemma {:induction false} OkMeansStamped(s: Server, d: Delivery)
    requires OkOutcome(Answer(s, d).outcome)
    ensures d.op.opId in Step(s, d).stamps || (d.op.kind == Delete && KeyOf(d.op) !in s.rows && Step(s, d) == s)
  {
    var q, e := NormalForm(s, d.op, d.env);
    if e != Quiet { PerformedEffects(q, d.op, e); }
  }

  // ---- retransmission ----

  ghost predicate SameAnswer(a: Result, b: Result) {
    a.opId == b.opId && a.recordId == b.recordId && a.outcome == b.outcome && a.serverSeq == b.serverSeq
        && a.kept == b.kept
  }

  /** A delivery of a stamped operation changes nothing at all. */
  lemma {:induction false} StampedIsInert(s: Server, d: Delivery)
    requires d.op.opId in s.stamps
    ensures Step(s, d) == s
  {
    var q, e := NormalForm(s, d.op, d.env);
  }

  /** What is left of a history once deliveries of already stamped operations are struck out. */
  function WithoutResends(s: Server, h: seq<Delivery>): seq<Delivery>
    decreases h
  {
    if h == [] then []
    else if h[0].op.opId in s.stamps then WithoutResends(s, h[1..])
    else [h[0]] + WithoutResends(Step(s, h[0]), h[1..])
  }

  /** Retransmission is invisible: same tables, conflict log, feed, numbers and stamps as without it. */
  lemma {:induction false} RetransmissionInvisible(s: Server, h: seq<Delivery>)
    ensures Run(s, h) == Run(s, WithoutResends(s, h))
    decreases h
  {
    if h != [] {
      if h[0].op.opId in s.stamps {
        StampedIsInert(s, h[0]);
        RetransmissionInvisible(s, h[1..]);
      } else {
        var w := WithoutResends(Step(s, h[0]), h[1..]);
        assert ([h[0]] + w)[1..] == w;
        RetransmissionInvisible(Step(s, h[0]), h[1..]);
      }
    }
  }

  /** Once accepted, an operation gets its first answer for ever, whatever happened in between and whoever asks. */
  lemma {:induction false} ResendGetsFirstAnswer(s: Server, d: Delivery, between: seq<Delivery>, again: Delivery)
    requires d.op.opId !in s.stamps && d.op.opId in Step(s, d).stamps && again.op == d.op
    ensures SameAnswer(Answer(Run(Step(s, d), between), again), Answer(s, d))
    ensures Step(Run(Step(s, d), between), again) == Run(Step(s, d), between)
  {
    var q, e := NormalForm(s, d.op, d.env);
    RunGrows(Step(s, d), between);
    StampedIsInert(Run(Step(s, d), between), again);
  }

  /** A refused or conflicting operation is not stamped, and sending it again can log the conflict again. */
  lemma {:induction false} UnacceptedIsRetried(s: Server, d: Delivery)
    requires d.op.opId !in s.stamps
    ensures d.op.opId in Step(s, d).stamps <==> OkOutcome(Answer(s, d).outcome) && Answer(s, d).serverSeq.Some?
  {
    var q, e := NormalForm(s, d.op, d.env);
  }

  // ---- the columns push can never reach ----

  /** Columns of an existing row that no push may change, by merge policy. */
  predicate Guarded(e: Entity, col: string) {
    && col != "deletedAt"
    && (|| col in DENIED
        || MetaOf(e).merge in {ServerWins, Reject}
        || (MetaOf(e).merge == FieldMerge && col in MetaOf(e).protectedFields))
  }

  lemma {:induction false} ChangedAvoidsGuarded(row: Row, op: Op, env: Env, merge: bool, meta: Meta, col: string)
    requires col in DENIED || (merge && col in meta.protectedFields)
    ensures col !in ChangedBy(row, op, env, merge, meta)
  {
    var existing := ReadRow(row, SafeColumns(env));
    if merge && col in meta.protectedFields && col in existing {
      MergeGuards(existing, Sanitize(op.data, SafeColumns(env)), meta);
      assert Get(existing, col) == existing[col];
    }
  }

  lemma {:induction false} WriteFrame(s: Server, op: Op, env: Env, cols: Record, col: string)
    requires KeyOf(op) in s.rows && LegalWrite(s, op, env, cols) && Guarded(op.entity, col)
    ensures Get(cols, col) == Get(s.rows[KeyOf(op)].cols, col)
  {
    var row := s.rows[KeyOf(op)];
    if op.kind != Delete {
      var meta := MetaOf(op.entity);
      ResolveByPolicy(op.entity, IsApproved(ReadRow(row, SafeColumns(env)), op.entity));
      ChangedAvoidsGuarded(row, op, env, meta.merge == FieldMerge, meta, col);
    }
  }

  lemma {:induction false} GuardedStep(s: Server, d: Delivery, key: Key, col: string)
    requires key in s.rows && Guarded(key.entity, col)
    ensures key in Step(s, d).rows && Get(ColsAt(Step(s, d), key), col) == Get(ColsAt(s, key), col)
  {
    var q, e := NormalForm(s, d.op, d.env);
    PerformedRow(q, d.op, e, key);
    if e.Write? && KeyOf(d.op) == key { WriteFrame(s, d.op, d.env, e.cols, col); }
  }

  /** Over every history, protected and denied columns of an existing row keep their values. */
  lemma {:induction false} PushNeverWritesGuarded(s: Server, h: seq<Delivery>, key: Key, col: string)
    requires key in s.rows && Guarded(key.entity, col)
    ensures Get(ColsAt(Run(s, h), key), col) == Get(ColsAt(s, key), col)
    decreases h
  {
    if h != [] {
      GuardedStep(s, h[0], key, col);
      PushNeverWritesGuarded(Step(s, h[0]), h[1..], key, col);
    }
  }

  predicate LeavesDeletedAt(op: Op) { op.kind == Delete || "deletedAt" !in op.data }

  lemma {:induction false} AppendOnlyStep(s: Server, d: Delivery, key: Key)
    requires key in s.rows && MetaOf(key.entity).merge == AppendOnly && LeavesDeletedAt(d.op)
    ensures key in Step(s, d).rows && Get(ColsAt(Step(s, d), key), "deletedAt") == Get(ColsAt(s, key), "deletedAt")
  {
    var q, e := NormalForm(s, d.op, d.env);
    PerformedRow(q, d.op, e, key);
  }

  /** An append-only row is never marked deleted by a DELETE, and only data naming `deletedAt` could do it otherwise. */
  lemma {:induction false} AppendOnlyNeverDeleted(s: Server, h: seq<Delivery>, key: Key)
    requires key in s.rows && MetaOf(key.entity).merge == AppendOnly
    requires forall i :: 0 <= i < |h| ==> LeavesDeletedAt(h[i].op)
    ensures Get(ColsAt(Run(s, h), key), "deletedAt") == Get(ColsAt(s, key), "deletedAt")
    decreases h
  {
    if h != [] {
      AppendOnlyStep(s, h[0], key);
      AppendOnlyNeverDeleted(Step(s, h[0]), h[1..], key);
    }
  }

  lemma {:induction false} ChangedShowsPayload(cols: Record, payload: Record, safe: set<string>, col: string)
    requires payload.Keys == safe && forall c :: c in safe ==> c !in DENIED
    requires Get(payload, col) == Undefined ==> Get(Shown(cols, safe), col) == Undefined
    ensures var after := cols + Changed(Shown(cols, safe), payload, safe);
            if col in safe then SameValue(Get(Shown(after, safe), col), Get(payload, col))
            else Get(after, col) == Get(cols, col)
  {}

  lemma {:induction false} AmendedCols(s: Server, op: Op, env: Env, row: Row, merge: bool, meta: Meta)
    requires KeyOf(op) in s.rows && s.rows[KeyOf(op)] == row
    requires OkOutcome(Amended(s, op, env, row, merge, meta).1.outcome)
    ensures ColsAt(Amended(s, op, env, row, merge, meta).0, KeyOf(op)) ==
            row.cols + ChangedBy(row, op, env, merge, meta)
  {
    var q, e := AmendedForm(s, op, env, row, merge, meta);
    PerformedRow(q, op, e, KeyOf(op));
    if e.Ack? { assert row.cols + map[] == row.cols; }
  }

  lemma {:induction false} AmendedShowsMerge(s: Server, op: Op, env: Env, row: Row, meta: Meta, col: string)
    requires KeyOf(op) in s.rows && s.rows[KeyOf(op)] == row
    requires OkOutcome(Amended(s, op, env, row, true, meta).1.outcome)
    ensures var safe, after := SafeColumns(env), ColsAt(Amended(s, op, env, row, true, meta).0, KeyOf(op));
            if col in safe then
              SameValue(Get(Shown(after, safe), col),
                  Get(Merged(Shown(row.cols, safe), Sanitize(op.data, safe), meta), col))
            else Get(after, col) == Get(row.cols, col)
  {
    var safe := SafeColumns(env);
    assert Shown(row.cols, safe) == ReadRow(row, safe);
    AmendedCols(s, op, env, row, true, meta);
    ChangedShowsPayload(row.cols, Merged(ReadRow(row, safe), Sanitize(op.data, safe), meta), safe, col);
  }

  lemma {:induction false} GoesToAmend(s: Server, op: Op, env: Env)
    requires KeyOf(op) in s.rows && MetaOf(op.entity).merge == FieldMerge && op.kind != Delete
    requires SafeColumns(env) != {} && op.opId !in s.stamps && OkOutcome(Delivered(s, op, env).1.outcome)
    ensures Delivered(s, op, env) == Amended(s, op, env, s.rows[KeyOf(op)], true, MetaOf(op.entity))
  {
    ResolveByPolicy(op.entity, IsApproved(ReadRow(s.rows[KeyOf(op)], SafeColumns(env)), op.entity));
  }

  /** What an accepted update leaves: each safe column shows the field-wise merge of the stored row with the
      client's fields (a number may stay stored where its text arrived), every other column is untouched. */
  lemma {:induction false} UpdateShowsMerge(s: Server, d: Delivery, col: string)
    requires KeyOf(d.op) in s.rows && MetaOf(d.op.entity).merge == FieldMerge && d.op.kind != Delete
    requires d.op.opId !in s.stamps && OkOutcome(Answer(s, d).outcome)
    ensures var safe, before, after := SafeColumns(d.env), ColsAt(s, KeyOf(d.op)), ColsAt(Step(s, d), KeyOf(d.op));
            if col in safe then
              SameValue(Get(Shown(after, safe), col),
                        Get(Merged(Shown(before, safe), Sanitize(d.op.data, safe), MetaOf(d.op.entity)), col))
            else Get(after, col) == Get(before, col)
  {
    var op, env, row := d.op, d.env, s.rows[KeyOf(d.op)];
    if SafeColumns(env) == {} {
      var q, e := CreatedForm(s, op, env);
    } else {
      GoesToAmend(s, op, env);
      AmendedShowsMerge(s, op, env, row, MetaOf(op.entity), col);
    }
  }

  lemma {:induction false} InsertColsShape(op: Op, env: Env, n: nat, col: string)
    ensures col in ServerStamp(op.entity, env.access) ==>
            Get(InsertCols(op, env, n), col) == ServerStamp(op.entity, env.access)[col]
    ensures col in NumberCell(op.entity, n) ==> Get(InsertCols(op, env, n), col) == NumberCell(op.entity, n)[col]
    ensures col !in ServerStamp(op.entity, env.access) && col !in NumberCell(op.entity, n) ==>
              Get(InsertCols(op, env, n), col) == Get(Sanitize(op.data, SafeColumns(env)), col)
  {}

  /** A created row carries the session's identity and the next number of its entity whatever the client sent, and the
      client's other columns as they are; the number is then used up. */
  lemma {:induction false} CreationIsStamped(s: Server, d: Delivery, col: string)
    requires KeyOf(d.op) !in s.rows && KeyOf(d.op) in Step(s, d).rows
    ensures var after, identity := ColsAt(Step(s, d), KeyOf(d.op)), ServerStamp(d.op.entity, d.env.access);
            var number := NumberCell(d.op.entity, NextNumber(s, d.op.entity));
            && (col in identity ==> Get(after, col) == identity[col])
            && (col in number ==> Get(after, col) == number[col])
            && (col in Sanitize(d.op.data, SafeColumns(d.env)) && col !in identity && col !in number ==>
               Get(after, col) == d.op.data[col])
    ensures NumberColumn(d.op.entity).Some? ==> NextNumber(Step(s, d), d.op.entity) == NextNumber(s, d.op.entity) + 1
  {
    var q, e := NormalForm(s, d.op, d.env);
    PerformedRow(q, d.op, e, KeyOf(d.op));
    var inserted := InsertCols(d.op, d.env, NextNumber(s, d.op.entity));
    InsertColsShape(d.op, d.env, NextNumber(s, d.op.entity), col);
    assert col !in inserted.Keys * Bookkeeping(d.op, d.env).Keys;
  }

  /** An accepted deletion marks the row and touches nothing else of it. */
  lemma {:induction false} DeletionOnlyMarks(s: Server, d: Delivery)
    requires d.op.kind == Delete && KeyOf(d.op) in s.rows && d.op.opId !in s.stamps && OkOutcome(Answer(s, d).outcome)
    ensures ColsAt(Step(s, d), KeyOf(d.op)) == ColsAt(s, KeyOf(d.op))["deletedAt" := d.env.now]
    ensures forall key :: key in s.rows && key != KeyOf(d.op) ==> ColsAt(Step(s, d), key) == ColsAt(s, key)
  {
    var q, e := NormalForm(s, d.op, d.env);
    forall key ensures ColsAt(Step(s, d), key) == if e.Write? && key == KeyOf(d.op) then e.cols else ColsAt(q, key) {
      PerformedRow(q, d.op, e, key);
    }
    assert e.Write?;
  }

  /** The conflict log gained exactly this line. */
  ghost predicate LastLogged(s: Server, t: Server, op: Op, kept: set<string>) {
    && |t.conflicts| == |s.conflicts| + 1 && t.conflicts[..|s.conflicts|] == s.conflicts
    && t.conflicts[|s.conflicts|].key == KeyOf(op) && t.conflicts[|s.conflicts|].strategy == ServerWinsLog
    && t.conflicts[|s.conflicts|].kept == kept
  }

  lemma {:induction false} SettledLogs(s: Server, op: Op, fault: Fault, row: Row, incoming: Record, existing: Record,
                                       changed: Record,
                                       outcome: Outcome, kept: set<string>)
    ensures var (t, r) := Settled(s, op, fault, row, incoming, existing, changed, outcome, kept);
            r.kept != {} ==> r.kept == kept && LastLogged(s, t, op, kept)
  {}

  lemma {:induction false} UpdatedLogs(s: Server, op: Op, env: Env, row: Row)
    ensures var (t, r) := Updated(s, op, env, row);
            && (r.kept != {} ==> LastLogged(s, t, op, r.kept))
            && (r.kept != {} && MetaOf(op.entity).merge == FieldMerge ==>
                  r.kept == Sanitize(op.data, SafeColumns(env)).Keys * MetaOf(op.entity).protectedFields)
  {
    var incoming := Sanitize(op.data, SafeColumns(env));
    var existing := ReadRow(row, SafeColumns(env));
    var action := Resolve(op.entity, IsApproved(existing, op.entity));
    ResolveByPolicy(op.entity, IsApproved(existing, op.entity));
    var merge := action == Merge;
    SettledLogs(s, op, env.fault, row, incoming, existing, ChangedBy(row, op, env, merge, MetaOf(op.entity)),
                if merge then MergedIn else Applied, if merge then KeptFromServer(incoming, MetaOf(op.entity)) else {});
  }

  lemma {:induction false} KeptComesFromUpdate(s: Server, op: Op, env: Env)
    requires op.opId !in s.stamps && Delivered(s, op, env).1.kept != {}
    ensures KeyOf(op) in s.rows && Delivered(s, op, env) == Updated(s, op, env, s.rows[KeyOf(op)])
  {}

  /** Nothing the client sent is kept back silently: fields the answer reports as kept are in the conflict log, as one
      line for this record, and for a field-merged entity they are exactly the protected fields it sent. */
  lemma {:induction false} KeptFieldsAreLogged(s: Server, d: Delivery)
    requires d.op.opId !in s.stamps && Answer(s, d).kept != {}
    ensures LastLogged(s, Step(s, d), d.op, Answer(s, d).kept)
    ensures MetaOf(d.op.entity).merge == FieldMerge ==>
              Answer(s, d).kept == Sanitize(d.op.data, SafeColumns(d.env)).Keys * MetaOf(d.op.entity).protectedFields
  {
    KeptComesFromUpdate(s, d.op, d.env);
    UpdatedLogs(s, d.op, d.env, s.rows[KeyOf(d.op)]);
  }
}
