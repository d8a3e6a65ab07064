/** What the outbox may hold for the device to get anything through at all. */
module SyncOutboxLaws {
  import opened Prelude
  import opened SyncMeta
  import opened SyncProtocol
  import opened SyncServer
  import opened SyncServerLaws
  import opened SyncDevice
  import opened PushPlan
  import opened SyncSystem
  import opened SyncSystemLaws
  import opened SyncDeviceLaws

  // ---- names: an issued id always means the operation it was issued for ----

  ghost predicate Named(s: Sys, op: Op) {
    op.opId.Issued? ==> op.opId.n < |s.issued| && s.issued[op.opId.n] == op
  }

  function QueueOps(queue: seq<Pending>): set<Op> { set p | p in queue :: p.op }

  ghost predicate DistinctIds(queue: seq<Pending>) {
    forall j, k :: 0 <= j < k < |queue| ==> queue[j].op.opId != queue[k].op.opId
  }

  /** The user is only ever asked about operations the server has judged, and those were well formed. */
  ghost predicate Judged(s: Sys, o: OpId) {
    o.Issued? ==> o.n < |s.issued| && s.issued[o.n].opId == o && WellFormed(s.issued[o.n])
  }

  /** The client object files an operation under the entity it was issued for; forced operations it never files. */
  ghost predicate FilesRightly(s: Sys, opEntity: map<OpId, Entity>) {
    forall o :: o in opEntity ==>
      o.Issued? && o.n < |s.issued| && s.issued[o.n].opId == o && opEntity[o] == s.issued[o.n].entity
  }

  ghost predicate DevTidy(s: Sys, d: Dev) {
    && DistinctIds(d.local.queue)
    && (forall op :: op in QueueOps(d.local.queue) ==> Named(s, op))
    && (d.phase.Pushing? ==> forall op :: op in Flatten(d.phase.left) ==> Named(s, op))
    && (forall o :: o in d.local.conflicts ==> Judged(s, o))
    && FilesRightly(s, d.local.opEntity)
  }

  ghost predicate Tidy(s: Sys) {
    && (forall op :: op in s.wire ==> Named(s, op) && WellFormed(op))
    && (forall t :: t in s.inHand ==> t.op in s.wire)
    && (forall a :: a in s.answers ==> a.0 in s.wire && a.1.opId == a.0.opId)
    && (forall i :: i in s.devs ==> DevTidy(s, s.devs[i]))
  }

  lemma {:induction false} IdsStayDistinct(queue: seq<Pending>, o: OpId)
    requires DistinctIds(queue)
    ensures DistinctIds(Without(queue, o)) && DistinctIds(Retried(queue, o))
  {
    if queue != [] {
      assert forall k :: 0 <= k < |queue[1..]| ==> queue[1..][k] == queue[k + 1];
      IdsStayDistinct(queue[1..], o);
      QueueOnlyShrinks(queue[1..], o);
      assert forall op :: op in QueueOps(queue[1..]) ==> op.opId != queue[0].op.opId;
      ConsDistinct(queue[0], Without(queue[1..], o));
      ConsDistinct(queue[0], Retried(queue[1..], o));
      ConsDistinct(queue[0].(attempts := queue[0].attempts + 1), queue[1..]);
    }
  }

  lemma {:induction false} ConsDistinct(p: Pending, rest: seq<Pending>)
    requires DistinctIds(rest) && forall op :: op in QueueOps(rest) ==> op.opId != p.op.opId
    ensures DistinctIds([p] + rest)
  {
    forall k | 0 <= k < |rest| ensures rest[k].op.opId != p.op.opId { assert rest[k].op in QueueOps(rest); }
  }

  lemma {:induction false} QueueOnlyShrinks(queue: seq<Pending>, o: OpId)
    ensures QueueOps(Without(queue, o)) <= QueueOps(queue) && QueueOps(Retried(queue, o)) <= QueueOps(queue)
  {
    if queue != [] {
      QueueOnlyShrinks(queue[1..], o);
      QueueOpsHead(queue);
      if queue[0].op.opId == o {
        var again := [queue[0].(attempts := queue[0].attempts + 1)] + queue[1..];
        QueueOpsHead(again);
        assert again[1..] == queue[1..];
      } else {
        QueueOpsHead([queue[0]] + Without(queue[1..], o));
        QueueOpsHead([queue[0]] + Retried(queue[1..], o));
        assert ([queue[0]] + Without(queue[1..], o))[1..] == Without(queue[1..], o);
        assert ([queue[0]] + Retried(queue[1..], o))[1..] == Retried(queue[1..], o);
      }
    }
  }

  lemma {:induction false} QueueOpsHead(queue: seq<Pending>)
    requires queue != []
    ensures QueueOps(queue) == {queue[0].op} + QueueOps(queue[1..])
  {
    assert forall p :: p in queue <==> p == queue[0] || p in queue[1..];
  }

  lemma {:induction false} EnqueuedOps(queue: seq<Pending>, op: Op)
    ensures QueueOps(Enqueued(queue, op)) <= QueueOps(queue) + {op}
    ensures DistinctIds(queue) ==> DistinctIds(Enqueued(queue, op))
  {
    assert forall p :: p in queue + [Pending(op, 0)] <==> p in queue || p == Pending(op, 0);
  }

  lemma {:induction false} AnswersOnlyShrink(d: Device, rs: seq<Result>)
    ensures QueueOps(AnsweredAll(d, rs).queue) <= QueueOps(d.queue)
    ensures DistinctIds(d.queue) ==> DistinctIds(AnsweredAll(d, rs).queue)
    ensures AnsweredAll(d, rs).opEntity == d.opEntity
    ensures forall o :: o in AnsweredAll(d, rs).conflicts ==>
              o in d.conflicts || exists k :: 0 <= k < |rs| && rs[k].opId == o
    decreases rs
  {
    if rs != [] {
      var d' := Answered(d, rs[0]);
      QueueOnlyShrinks(d.queue, rs[0].opId);
      if DistinctIds(d.queue) { IdsStayDistinct(d.queue, rs[0].opId); }
      AnswersOnlyShrink(d', rs[1..]);
      forall o | o in AnsweredAll(d, rs).conflicts && o !in d.conflicts
        ensures exists k :: 0 <= k < |rs| && rs[k].opId == o
      {
        if o !in d'.conflicts {
          var k :| 0 <= k < |rs[1..]| && rs[1..][k].opId == o;
          assert rs[k + 1].opId == o;
        } else {
          assert rs[0].opId == o;
        }
      }
    }
  }

  lemma {:induction false} OpsMembers(queue: seq<Pending>)
    ensures forall op :: op in Ops(queue) <==> op in QueueOps(queue)
  {
    if queue != [] {
      OpsMembers(queue[1..]);
      QueueOpsHead(queue);
    }
  }

  lemma {:induction false} PlanMembers(ops: seq<Op>)
    ensures forall op :: op in Flatten(Plan(ops, BATCH_SIZE)) <==> op in ops
  {
    PlanPermutesAndSorts(ops, BATCH_SIZE);
    forall op ensures op in Flatten(Plan(ops, BATCH_SIZE)) <==> op in ops {
      assert op in multiset(Flatten(Plan(ops, BATCH_SIZE))) <==> op in multiset(ops);
    }
  }

  lemma {:induction false} NamesLast(s: Sys, t: Sys, d: Dev)
    requires DevTidy(s, d) && s.issued <= t.issued
    ensures DevTidy(t, d)
  {}

  lemma {:induction false} RepliedTidy(s: Sys, d: Dev, results: seq<Result>, next: nat)
    requires Tidy(s) && DevTidy(s, d) && d.phase.Pushing? && d.phase.left != []
    requires ValidBatch(d.phase.left[0]) && AnswerTo(s, d.phase.left[0], results)
    ensures DevTidy(s, Replied(d, results, next))
  {
    AnswersOnlyShrink(d.local, results);
    var d' := Replied(d, results, next);
    forall o | o in d'.local.conflicts ensures Judged(s, o) {
      if o !in d.local.conflicts {
        var k :| 0 <= k < |results| && results[k].opId == o;
        assert (d.phase.left[0][k], results[k]) in s.answers;
      }
    }
  }

  lemma {:induction false} DecidedTidy(s: Sys, d: Dev, o: OpId, mine: bool, now: int)
    requires DevTidy(s, d)
    ensures DevTidy(s, Decided(d, o, mine, now))
  {
    if o in d.local.conflicts {
      QueueOnlyShrinks(d.local.queue, o);
      IdsStayDistinct(d.local.queue, o);
      EnqueuedOps(Without(d.local.queue, o), ForcedOp(o, d.local.conflicts[o], now));
    }
  }

  lemma {:induction false} StartedTidy(s: Sys, d: Dev)
    requires DevTidy(s, d)
    ensures DevTidy(s, Started(d))
  {
    PlanMembers(Ops(d.local.queue));
    OpsMembers(d.local.queue);
  }

  lemma {:induction false} EditedTidy(s: Sys, t: Sys, d: Dev, m: Mutation, text: string, now: int)
    requires DevTidy(s, d) && !MetaOf(m.key.entity).restOnly
    requires t.issued == s.issued + [QueuedOp(d.local, m, Issued(|s.issued|, text), now)]
    ensures DevTidy(t, Edited(d, m, Issued(|s.issued|, text), now))
  {
    var op := QueuedOp(d.local, m, Issued(|s.issued|, text), now);
    NamesLast(s, t, d);
    EnqueuedOps(d.local.queue, op);
    assert Named(t, op);
  }

  /** Failures, pages, full resyncs and restarts touch neither outbox nor conflicts, and leave nothing to send. */
  lemma {:induction false} QuietTidy(s: Sys, d: Dev, d': Dev)
    requires DevTidy(s, d) && d'.local.queue == d.local.queue && d'.local.conflicts == d.local.conflicts
    requires !d'.phase.Pushing?
    requires d'.local.opEntity == d.local.opEntity || d'.local.opEntity == map[]
    ensures DevTidy(s, d')
  {}

  lemma {:induction false} UnissuedTidy(s: Sys, e: Event, see: DeviceId -> Change -> bool)
    requires Tidy(s) && Enabled(s, e) && OnDevice(e) && !e.Edit?
    ensures DevTidy(s, DeviceAfter(s, e, see))
  {
    var d := s.devs[e.i];
    if e.StartCycle? {
      StartedTidy(s, d);
    } else if e.Reply? {
      RepliedTidy(s, d, e.results, e.next);
    } else if e.Decide? {
      DecidedTidy(s, d, e.o, e.mine, e.now);
    } else {
      QuietTidy(s, d, DeviceAfter(s, e, see));
    }
  }

  lemma {:induction false} DeviceEventTidy(s: Sys, e: Event, see: DeviceId -> Change -> bool)
    requires Tidy(s) && Enabled(s, e) && OnDevice(e)
    ensures DevTidy(Next(s, e, see), DeviceAfter(s, e, see))
  {
    if e.Edit? {
      EditedTidy(s, Next(s, e, see), s.devs[e.i], e.m, e.text, e.now);
    } else {
      UnissuedTidy(s, e, see);
      NamesLast(s, Next(s, e, see), DeviceAfter(s, e, see));
    }
  }

  lemma {:induction false} SentTidy(s: Sys, d: Dev)
    requires DevTidy(s, d)
    ensures forall op :: op in Sent(d) ==> Named(s, op) && WellFormed(op)
  {
    if d.phase.Pushing? && d.phase.left != [] && ValidBatch(d.phase.left[0]) {
      assert forall op :: op in d.phase.left[0] ==> op in Flatten(d.phase.left);
    }
  }

  lemma {:induction false} DevicesStayTidy(s: Sys, t: Sys)
    requires Tidy(s) && t.devs == s.devs && s.issued <= t.issued
    ensures forall i :: i in t.devs ==> DevTidy(t, t.devs[i])
  {
    forall i | i in t.devs ensures DevTidy(t, t.devs[i]) { NamesLast(s, t, s.devs[i]); }
  }

  lemma {:induction false} BegunTidy(s: Sys, op: Op, env: Env)
    requires Tidy(s) && op in s.wire
    ensures Tidy(Begun(s, op, env))
  {
    var t := Begun(s, op, env);
    DevicesStayTidy(s, t);
    assert forall u :: u in t.inHand ==> u in s.inHand || u.op == op;
  }

  lemma {:induction false} CompletedTidy(s: Sys, t: Ticket)
    requires Tidy(s) && t in s.inHand
    ensures Tidy(Completed(s, t))
  {
    var u := Completed(s, t);
    DevicesStayTidy(s, u);
    assert forall x :: x in u.inHand ==> x in s.inHand;
  }

  lemma {:induction false} ServerEventTidy(s: Sys, e: Event, see: DeviceId -> Change -> bool)
    requires Tidy(s) && Enabled(s, e) && !OnDevice(e)
    ensures Tidy(Next(s, e, see))
  {
    if e.Begin? {
      BegunTidy(s, e.op, e.env);
    } else if e.Complete? {
      CompletedTidy(s, e.t);
    } else {
      DevicesStayTidy(s, Next(s, e, see));
    }
  }

  lemma {:induction false} NextTidy(s: Sys, e: Event, see: DeviceId -> Change -> bool)
    requires Tidy(s)
    ensures Tidy(Next(s, e, see))
  {
    if Enabled(s, e) {
      if OnDevice(e) {
        var t := Next(s, e, see);
        DeviceEventTidy(s, e, see);
        SentTidy(t, t.devs[e.i]);
        forall i | i in t.devs && i != e.i ensures DevTidy(t, t.devs[i]) { NamesLast(s, t, s.devs[i]); }
      } else {
        ServerEventTidy(s, e, see);
      }
    }
  }

  lemma {:induction false} AlwaysTidy(s: Sys, es: seq<Event>, see: DeviceId -> Change -> bool)
    requires Tidy(s)
    ensures Tidy(After(s, es, see))
    decreases es
  {
    if es != [] {
      NextTidy(s, es[0], see);
      AlwaysTidy(Next(s, es[0], see), es[1..], see);
    }
  }

  lemma {:induction false} ReachableTidy(s: Sys, see: DeviceId -> Change -> bool)
    requires Reachable(s, see)
    ensures Tidy(s)
  {
    var start, es :| Initial(start) && After(start, es, see) == s;
    forall k | k in start.devs ensures DevTidy(start, start.devs[k]) { assert start.devs[k] == FRESH; }
    AlwaysTidy(start, es, see);
  }

  // ---- one malformed operation ----

  /** No operation under this id can be well formed. */
  ghost predicate Doomed(s: Sys, o: OpId) {
    match o
    case Issued(n, _) => n < |s.issued| && s.issued[n].opId == o && !WellFormed(s.issued[n])
    case Forced(_) => |OpText(o)| > 64
  }

  lemma {:induction false} DoomedIsMalformed(s: Sys, op: Op)
    requires Named(s, op) && Doomed(s, op.opId)
    ensures !WellFormed(op)
  {}

  ghost predicate Waits(batches: seq<seq<Op>>, o: OpId) { exists op :: op in Flatten(batches) && op.opId == o }

  /** A device with operation `o` in its outbox and, while it pushes, in the batches to send. */
  ghost predicate Carries(d: Dev, o: OpId, cursor: nat, applied: set<nat>) {
    && HasPending(d.local.queue, o)
    && !d.phase.Pulling?
    && (d.phase.Pushing? ==> Waits(d.phase.left, o))
    && d.local.cursor == cursor && d.applied == applied
  }

  /** Device `i` waits with a malformed operation in its outbox, at cursor `cursor` and having applied `applied`. */
  ghost predicate Stuck(s: Sys, i: DeviceId, o: OpId, cursor: nat, applied: set<nat>) {
    Doomed(s, o) && i in s.devs && Carries(s.devs[i], o, cursor, applied)
  }

  /** What alone can set such a device free: an explicit full resync, or a decision on an overlong forced operation. */
  predicate Frees(e: Event, i: DeviceId, o: OpId) {
    e == StartFullResync(i) || (o.Forced? && e.Decide? && e.i == i && e.o == o)
  }

  lemma {:induction false} PendingIsPlanned(d: Dev, o: OpId)
    requires HasPending(d.local.queue, o)
    ensures d.local.queue != [] && Waits(Plan(Ops(d.local.queue), BATCH_SIZE), o)
  {
    var k :| 0 <= k < |d.local.queue| && d.local.queue[k].op.opId == o;
    var op := d.local.queue[k].op;
    assert d.local.queue[k] in d.local.queue;
    assert op in QueueOps(d.local.queue);
    OpsMembers(d.local.queue);
    PlanMembers(Ops(d.local.queue));
    assert op in Flatten(Plan(Ops(d.local.queue), BATCH_SIZE)) && op.opId == o;
  }

  lemma {:induction false} StuckThroughReply(s: Sys, i: DeviceId, o: OpId, results: seq<Result>, next: nat)
    requires Tidy(s) && i in s.devs && Doomed(s, o) && Carries(s.devs[i], o, s.devs[i].local.cursor, s.devs[i].applied)
    requires Enabled(s, Reply(i, results, next))
    ensures Carries(Replied(s.devs[i], results, next), o, s.devs[i].local.cursor, s.devs[i].applied)
  {
    var d := s.devs[i];
    var batch := d.phase.left[0];
    forall k | 0 <= k < |batch| ensures batch[k].opId != o {
      assert batch[k] in Flatten(d.phase.left);
      if batch[k].opId == o { DoomedIsMalformed(s, batch[k]); }
    }
    forall k | 0 <= k < |results| ensures results[k].opId != o {
      assert (batch[k], results[k]) in s.answers;
    }
    AnswersKeepPending(d.local, results, o);
    AnswersKeepCursor(d.local, results);
    var bad :| bad in Flatten(d.phase.left) && bad.opId == o;
    assert bad !in batch;
    assert bad in Flatten(d.phase.left[1..]);
  }

  lemma {:induction false} StuckThroughDecision(d: Dev, o: OpId, x: OpId, mine: bool, now: int)
    requires HasPending(d.local.queue, o) && (x == o ==> x !in d.local.conflicts)
    ensures HasPending(Decided(d, x, mine, now).local.queue, o)
  {
    if x in d.local.conflicts {
      PendingStays(d.local.queue, x, o);
      EnqueuedHolds(Without(d.local.queue, x), ForcedOp(x, d.local.conflicts[x], now), o);
    }
  }

  lemma {:induction false} DoomedLasts(s: Sys, t: Sys, o: OpId)
    requires Doomed(s, o) && s.issued <= t.issued
    ensures Doomed(t, o)
  {}

  lemma {:induction false} StuckOwnStep(s: Sys, e: Event, see: DeviceId -> Change -> bool, o: OpId)
    requires Tidy(s) && Enabled(s, e) && OnDevice(e) && !Frees(e, e.i, o)
    requires Doomed(s, o) && Carries(s.devs[e.i], o, s.devs[e.i].local.cursor, s.devs[e.i].applied)
    ensures Carries(DeviceAfter(s, e, see), o, s.devs[e.i].local.cursor, s.devs[e.i].applied)
  {
    var d := s.devs[e.i];
    if e.Edit? {
      EnqueuedHolds(d.local.queue, QueuedOp(d.local, e.m, Issued(|s.issued|, e.text), e.now), o);
    } else if e.StartCycle? {
      PendingIsPlanned(d, o);
    } else if e.Reply? {
      StuckThroughReply(s, e.i, o, e.results, e.next);
    } else if e.Decide? {
      assert DevTidy(s, d);
      StuckThroughDecision(d, o, e.o, e.mine, e.now);
    }
  }

  lemma {:induction false} StuckStep(s: Sys, e: Event, see: DeviceId -> Change -> bool, i: DeviceId, o: OpId,
                                     cursor: nat, applied: set<nat>)
    requires Tidy(s) && Stuck(s, i, o, cursor, applied) && !Frees(e, i, o)
    ensures Stuck(Next(s, e, see), i, o, cursor, applied)
  {
    OneDeviceMoves(s, e, see);
    DoomedLasts(s, Next(s, e, see), o);
    if Enabled(s, e) && OnDevice(e) && e.i == i { StuckOwnStep(s, e, see, o); }
  }

  /**
   One malformed operation (a DELETE of a server-numbered entity, a PATCH without fields, a record id or an operation id
   outside the request schema's bounds) stops the device for good: over every run in which nothing frees it, it stays in
   the outbox, the cursor does not move, and nothing is ever pulled again, because the batch that carries it is turned
   down as a whole.
   */
  lemma {:induction false} MalformedOpStopsSync(s: Sys, es: seq<Event>, see: DeviceId -> Change -> bool, i: DeviceId,
                                                o: OpId)
    requires Reachable(s, see) && i in s.devs && Stuck(s, i, o, s.devs[i].local.cursor, s.devs[i].applied)
    requires forall k :: 0 <= k < |es| ==> !Frees(es[k], i, o)
    ensures Stuck(After(s, es, see), i, o, s.devs[i].local.cursor, s.devs[i].applied)
  {
    ReachableTidy(s, see);
    StuckForEver(s, es, see, i, o, s.devs[i].local.cursor, s.devs[i].applied);
  }

  lemma {:induction false} StuckForEver(s: Sys, es: seq<Event>, see: DeviceId -> Change -> bool, i: DeviceId, o: OpId,
                                        cursor: nat, applied: set<nat>)
    requires Tidy(s) && Stuck(s, i, o, cursor, applied) && forall k :: 0 <= k < |es| ==> !Frees(es[k], i, o)
    ensures Stuck(After(s, es, see), i, o, cursor, applied)
    decreases es
  {
    if es != [] {
      StuckStep(s, es[0], see, i, o, cursor, applied);
      NextTidy(s, es[0], see);
      assert forall k :: 0 <= k < |es[1..]| ==> es[1..][k] == es[k + 1];
      StuckForEver(Next(s, es[0], see), es[1..], see, i, o, cursor, applied);
    }
  }

  // ---- how forced ids wear out ----

  function ForcedTimes(o: OpId, k: nat): OpId { if k == 0 then o else Forced(ForcedTimes(o, k - 1)) }

  /** "Keep mine" appends a suffix each time: after `k` decisions the id still fits the request schema exactly up to
      this length. */
  lemma {:induction false} ForcedIdFitsIff(o: OpId, k: nat)
    ensures |OpText(ForcedTimes(o, k))| == |OpText(o)| + 7 * k
    ensures Between(8, OpText(ForcedTimes(o, k)), 64) <==> 8 <= |OpText(o)| + 7 * k <= 64
  {
    if k > 0 { ForcedIdFitsIff(o, k - 1); }
  }

  // ---- which answers are filed where ----

  /** In every reachable state the client object, where it knows an operation, knows its entity, and it knows no
      forced one. */
  lemma {:induction false} ClientRemembers(s: Sys, see: DeviceId -> Change -> bool, i: DeviceId, op: Op)
    requires Reachable(s, see) && i in s.devs && op in s.wire
    ensures Remembers(s.devs[i].local, op) && (op.opId.Forced? ==> op.opId !in s.devs[i].local.opEntity)
  {
    ReachableTidy(s, see);
  }

  /** In every reachable state: a conflict over a copy the user had decided to keep is filed under its own record only
      if that is a work order, restart or not. */
  lemma {:induction false} ForcedConflictFiledRightIff(s: Sys, see: DeviceId -> Change -> bool, i: DeviceId, op: Op,
                                                       r: Result)
    requires Reachable(s, see) && i in s.devs && op in s.wire && op.opId.Forced?
    requires r.opId == op.opId && r.recordId == op.recordId && r.outcome == Conflict && r.serverRecord.Some?
    ensures op.opId in Answered(s.devs[i].local, r).conflicts
    ensures Answered(s.devs[i].local, r).conflicts[op.opId].key == Key(op.entity, op.recordId) <==>
            op.entity == WorkOrder
  {
    ClientRemembers(s, see, i, op);
    ConflictFiledRightIff(s.devs[i].local, op, r, 0);
  }

  // ---- and only that ----

  ghost predicate DistinctOps(ops: seq<Op>) { forall j, k :: 0 <= j < k < |ops| ==> ops[j].opId != ops[k].opId }

  lemma {:induction false} PartsDistinct(a: seq<Op>, b: seq<Op>)
    requires DistinctOps(a + b)
    ensures DistinctOps(a) && DistinctOps(b)
  {
    forall j, k | 0 <= j < k < |b| ensures b[j].opId != b[k].opId {
      assert (a + b)[|a| + j] == b[j] && (a + b)[|a| + k] == b[k];
    }
    forall j, k | 0 <= j < k < |a| ensures a[j].opId != a[k].opId {
      assert (a + b)[j] == a[j] && (a + b)[k] == a[k];
    }
  }

  lemma {:induction false} BatchDistinct(batches: seq<seq<Op>>, b: nat)
    requires DistinctOps(Flatten(batches)) && b < |batches|
    ensures DistinctOps(batches[b]) && forall op :: op in batches[b] ==> op in Flatten(batches)
  {
    PartsDistinct(batches[0], Flatten(batches[1..]));
    if b > 0 { BatchDistinct(batches[1..], b - 1); }
  }

  lemma {:induction false} OpsAt(queue: seq<Pending>)
    ensures |Ops(queue)| == |queue| && forall k :: 0 <= k < |queue| ==> Ops(queue)[k] == queue[k].op
  {
    if queue != [] { OpsAt(queue[1..]); }
  }

  /** Rearranging operations with distinct ids leaves them with distinct ids. */
  lemma {:induction false} RearrangedDistinct(queue: seq<Pending>, sorted: seq<Op>, j: nat, k: nat)
    requires DistinctIds(queue) && multiset(sorted) == multiset(Ops(queue)) && j < k < |sorted|
    ensures sorted[j].opId != sorted[k].opId
  {
    var ops := Ops(queue);
    OpsAt(queue);
    assert sorted[j] in multiset(ops) && sorted[k] in multiset(ops);
    var a :| 0 <= a < |ops| && ops[a] == sorted[j];
    var b :| 0 <= b < |ops| && ops[b] == sorted[k];
    assert Distinct(ops) by {
      forall x, y | 0 <= x < y < |ops| ensures ops[x] != ops[y] { assert queue[x].op.opId != queue[y].op.opId; }
    }
    if a == b {
      OccursTwice(sorted, j, k);
      DistinctOnce(ops, ops[a]);
    } else {
      assert queue[a].op.opId != queue[b].op.opId;
    }
  }

  ghost predicate AllValid(batches: seq<seq<Op>>) { forall k :: 0 <= k < |batches| ==> ValidBatch(batches[k]) }

  ghost predicate AllWellFormed(ops: set<Op>) { forall op :: op in ops ==> WellFormed(op) }

  lemma {:induction false} InSomeBatch(batches: seq<seq<Op>>, op: Op)
    requires op in Flatten(batches) && AllValid(batches)
    ensures WellFormed(op)
  {
    if op !in batches[0] {
      assert forall k :: 0 <= k < |batches[1..]| ==> batches[1..][k] == batches[k + 1];
      InSomeBatch(batches[1..], op);
    } else {
      assert ValidBatch(batches[0]);
    }
  }

  /** The server takes every batch of a cycle exactly when every queued operation is well formed. */
  lemma {:induction false} OutboxAcceptedIff(queue: seq<Pending>)
    requires DistinctIds(queue)
    ensures AllValid(Plan(Ops(queue), BATCH_SIZE)) <==> AllWellFormed(QueueOps(queue))
  {
    var plan := Plan(Ops(queue), BATCH_SIZE);
    OpsMembers(queue);
    PlanMembers(Ops(queue));
    PlanPermutesAndSorts(Ops(queue), BATCH_SIZE);
    if AllWellFormed(QueueOps(queue)) {
      forall j, k | 0 <= j < k < |Flatten(plan)| ensures Flatten(plan)[j].opId != Flatten(plan)[k].opId {
        RearrangedDistinct(queue, Flatten(plan), j, k);
      }
      forall b | 0 <= b < |plan| ensures ValidBatch(plan[b]) { BatchDistinct(plan, b); assert |plan[b]| <= BATCH_SIZE; }
    }
    if AllValid(plan) {
      forall op | op in QueueOps(queue) ensures WellFormed(op) { InSomeBatch(plan, op); }
    }
  }

  /** In every reachable state: a cycle can get through exactly when its outbox holds no malformed operation. */
  lemma {:induction false} CycleCanPassIff(s: Sys, see: DeviceId -> Change -> bool, i: DeviceId)
    requires Reachable(s, see) && i in s.devs
    ensures AllValid(Plan(Ops(s.devs[i].local.queue), BATCH_SIZE)) <==> AllWellFormed(QueueOps(s.devs[i].local.queue))
  {
    ReachableTidy(s, see);
    OutboxAcceptedIff(s.devs[i].local.queue);
  }

  // ---- conflicts wait for the user ----

  ghost predicate NeverDeduplicated(s: Sys) {
    Recorded(s.server) && forall a :: a in s.answers ==> a.1.outcome != Deduplicated
  }

  lemma {:induction false} AnswersKeepConflict(d: Device, rs: seq<Result>, o: OpId)
    requires o in d.conflicts && forall k :: 0 <= k < |rs| ==> rs[k].outcome != Deduplicated
    ensures o in AnsweredAll(d, rs).conflicts
    decreases rs
  {
    if rs != [] { AnswersKeepConflict(Answered(d, rs[0]), rs[1..], o); }
  }

  lemma {:induction false} NextNeverDeduplicated(s: Sys, e: Event, see: DeviceId -> Change -> bool)
    requires NeverDeduplicated(s)
    ensures NeverDeduplicated(Next(s, e, see))
  {
    if Enabled(s, e) && e.Complete? {
      ProcessedGrows(s.server, e.t.op, e.t.env);
      var q, f := ProcessedForm(s.server, e.t.op, e.t.env);
    }
  }

  lemma {:induction false} AlwaysNeverDeduplicated(s: Sys, es: seq<Event>, see: DeviceId -> Change -> bool)
    requires NeverDeduplicated(s)
    ensures NeverDeduplicated(After(s, es, see))
    decreases es
  {
    if es != [] {
      NextNeverDeduplicated(s, es[0], see);
      AlwaysNeverDeduplicated(Next(s, es[0], see), es[1..], see);
    }
  }

  lemma {:induction false} ConflictStep(s: Sys, e: Event, see: DeviceId -> Change -> bool, i: DeviceId, o: OpId)
    requires NeverDeduplicated(s) && i in s.devs && o in s.devs[i].local.conflicts
    requires !(e.Decide? && e.i == i && e.o == o)
    ensures i in Next(s, e, see).devs && o in Next(s, e, see).devs[i].local.conflicts
  {
    if Enabled(s, e) && e.Reply? && e.i == i {
      forall k | 0 <= k < |e.results| ensures e.results[k].outcome != Deduplicated {
        assert (s.devs[i].phase.left[0][k], e.results[k]) in s.answers;
      }
      AnswersKeepConflict(s.devs[i].local, e.results, o);
    }
  }

  lemma {:induction false} ConflictStays(s: Sys, es: seq<Event>, see: DeviceId -> Change -> bool, i: DeviceId, o: OpId)
    requires NeverDeduplicated(s) && i in s.devs && o in s.devs[i].local.conflicts
    requires forall k :: 0 <= k < |es| ==> !(es[k].Decide? && es[k].i == i && es[k].o == o)
    ensures i in After(s, es, see).devs && o in After(s, es, see).devs[i].local.conflicts
    decreases es
  {
    if es != [] {
      ConflictStep(s, es[0], see, i, o);
      NextNeverDeduplicated(s, es[0], see);
      ConflictStays(Next(s, es[0], see), es[1..], see, i, o);
    }
  }

  /** A conflict leaves the review list only by its user's decision: no answer of the server ever clears one, not even
      acceptance of the copy the user chose to keep. */
  lemma {:induction false} ConflictWaitsForUser(s: Sys, es: seq<Event>, see: DeviceId -> Change -> bool, i: DeviceId,
                                                o: OpId)
    requires Reachable(s, see) && i in s.devs && o in s.devs[i].local.conflicts
    requires forall k :: 0 <= k < |es| ==> !(es[k].Decide? && es[k].i == i && es[k].o == o)
    ensures i in After(s, es, see).devs && o in After(s, es, see).devs[i].local.conflicts
  {
    var start, before :| Initial(start) && After(start, before, see) == s;
    AlwaysNeverDeduplicated(start, before, see);
    ConflictStays(s, es, see, i, o);
  }
}
