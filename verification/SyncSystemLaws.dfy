/** What holds in every state the whole system can reach, whatever is lost, repeated, delayed or interleaved. */
module SyncSystemLaws {
  import opened SyncMeta
  import opened SyncProtocol
  import opened SyncServer
  import opened SyncServerLaws
  import opened SyncDevice
  import opened SyncOverlap
  import opened SyncSystem

  /** An event changes at most the device it names, and issued operations stay. */
  lemma {:induction false} OneDeviceMoves(s: Sys, e: Event, see: DeviceId -> Change -> bool)
    ensures s.issued <= Next(s, e, see).issued
    ensures Next(s, e, see).devs ==
            if Enabled(s, e) && OnDevice(e) then s.devs[e.i := DeviceAfter(s, e, see)] else s.devs
  {
    if Enabled(s, e) && !OnDevice(e) { ServerMovesNoDevice(s, e, see); }
  }

  lemma {:induction false} ServerMovesNoDevice(s: Sys, e: Event, see: DeviceId -> Change -> bool)
    requires Enabled(s, e) && !OnDevice(e)
    ensures Next(s, e, see).devs == s.devs && Next(s, e, see).issued == s.issued
  {}

  // ---- operations are never lost, and run at most once ----

  ghost predicate Settled(s: Sys, o: OpId) {
    o in s.server.stamps || exists op :: op in s.absent && op.opId == o && op.kind == Delete
  }

  /** Everything the device ever queued is still in its outbox, settled on the server, or closed by its user. */
  ghost predicate Accounted(s: Sys, d: Dev) {
    forall o :: o in d.asked ==> HasPending(d.local.queue, o) || Settled(s, o) || o in d.closed
  }

  ghost predicate Truthful(s: Sys, a: (Op, Result)) {
    a.1.opId == a.0.opId && (OkOutcome(a.1.outcome) ==> Settled(s, a.0.opId))
  }

  ghost predicate Lossless(s: Sys) {
    && Recorded(s.server)
    && (forall a :: a in s.answers ==> Truthful(s, a))
    && (forall i :: i in s.devs ==> Accounted(s, s.devs[i]))
  }

  lemma {:induction false} PendingStays(queue: seq<Pending>, gone: OpId, o: OpId)
    requires HasPending(queue, o)
    ensures o != gone ==> HasPending(Without(queue, gone), o)
    ensures HasPending(Retried(queue, gone), o)
  {
    var i :| 0 <= i < |queue| && queue[i].op.opId == o;
    if i > 0 {
      assert queue[1..][i - 1].op.opId == o;
      PendingStays(queue[1..], gone, o);
      var w, r := Without(queue[1..], gone), Retried(queue[1..], gone);
      var j :| 0 <= j < |r| && r[j].op.opId == o;
      assert ([queue[0]] + r)[j + 1] == r[j];
      if o != gone {
        var k :| 0 <= k < |w| && w[k].op.opId == o;
        assert ([queue[0]] + w)[k + 1] == w[k];
      }
      if queue[0].op.opId == gone { assert Retried(queue, gone)[i].op.opId == o; }
    } else {
      assert Retried(queue, gone)[0].op.opId == o;
      if o != gone { assert Without(queue, gone)[0].op.opId == o; }
    }
  }

  lemma {:induction false} EnqueuedHolds(queue: seq<Pending>, op: Op, o: OpId)
    requires HasPending(queue, o) || o == op.opId
    ensures HasPending(Enqueued(queue, op), o)
  {
    if !HasPending(queue, op.opId) {
      assert Enqueued(queue, op)[|queue|].op == op;
      if HasPending(queue, o) {
        var i :| 0 <= i < |queue| && queue[i].op.opId == o;
        assert Enqueued(queue, op)[i] == queue[i];
      }
    }
  }

  /** Answers take out of the outbox only what they call done, and never touch the cursor. */
  lemma {:induction false} AnswersKeepPending(d: Device, rs: seq<Result>, o: OpId)
    requires HasPending(d.queue, o) && forall k :: 0 <= k < |rs| && rs[k].opId == o ==> !OkOutcome(rs[k].outcome)
    ensures HasPending(AnsweredAll(d, rs).queue, o)
    decreases rs
  {
    if rs != [] {
      PendingStays(d.queue, rs[0].opId, o);
      AnswersKeepPending(Answered(d, rs[0]), rs[1..], o);
    }
  }

  lemma {:induction false} AnswersKeepCursor(d: Device, rs: seq<Result>)
    ensures AnsweredAll(d, rs).cursor == d.cursor
    decreases rs
  {
    if rs != [] { AnswersKeepCursor(Answered(d, rs[0]), rs[1..]); }
  }

  lemma {:induction false} SettledStays(s: Sys, t: Sys, o: OpId)
    requires Settled(s, o) && Grows(s.server, t.server) && s.absent <= t.absent
    ensures Settled(t, o)
  {}

  lemma {:induction false} AccountedStays(s: Sys, t: Sys, d: Dev)
    requires Accounted(s, d) && Grows(s.server, t.server) && s.absent <= t.absent
    ensures Accounted(t, d)
  {
    forall o | o in d.asked ensures HasPending(d.local.queue, o) || Settled(t, o) || o in d.closed {
      if Settled(s, o) { SettledStays(s, t, o); }
    }
  }

  lemma {:induction false} RepliedAccounted(s: Sys, d: Dev, results: seq<Result>, next: nat)
    requires Accounted(s, d) && (forall a :: a in s.answers ==> Truthful(s, a))
    requires d.phase.Pushing? && d.phase.left != [] && AnswerTo(s, d.phase.left[0], results)
    ensures Accounted(s, Replied(d, results, next))
  {
    forall o | o in d.asked && HasPending(d.local.queue, o) && !Settled(s, o)
      ensures HasPending(AnsweredAll(d.local, results).queue, o)
    {
      forall k | 0 <= k < |results| && results[k].opId == o ensures !OkOutcome(results[k].outcome) {
        assert Truthful(s, (d.phase.left[0][k], results[k]));
      }
      AnswersKeepPending(d.local, results, o);
    }
  }

  lemma {:induction false} DecidedAccounted(s: Sys, d: Dev, o: OpId, mine: bool, now: int)
    requires Accounted(s, d)
    ensures Accounted(s, Decided(d, o, mine, now))
  {
    var d' := Decided(d, o, mine, now);
    if o in d.local.conflicts {
      var c := d.local.conflicts[o];
      forall x | x in d'.asked ensures HasPending(d'.local.queue, x) || Settled(s, x) || x in d'.closed {
        if x == o || !(HasPending(d.local.queue, x) || x == Forced(o)) {
        } else {
          if HasPending(d.local.queue, x) { PendingStays(d.local.queue, o, x); }
          if mine { EnqueuedHolds(Without(d.local.queue, o), ForcedOp(o, c, now), x); }
        }
      }
    }
  }

  lemma {:induction false} EditedAccounted(s: Sys, d: Dev, m: Mutation, opId: OpId, now: int)
    requires Accounted(s, d) && !MetaOf(m.key.entity).restOnly
    ensures Accounted(s, Edited(d, m, opId, now))
  {
    var op := QueuedOp(d.local, m, opId, now);
    assert Edited(d, m, opId, now).local.queue == Enqueued(d.local.queue, op);
    forall o | o in d.asked + {opId} && (HasPending(d.local.queue, o) || o == opId)
      ensures HasPending(Enqueued(d.local.queue, op), o)
    {
      EnqueuedHolds(d.local.queue, op, o);
    }
  }

  lemma {:induction false} DeviceEventLossless(s: Sys, e: Event, see: DeviceId -> Change -> bool)
    requires Lossless(s) && Enabled(s, e) && OnDevice(e)
    ensures Accounted(s, DeviceAfter(s, e, see))
  {
    var d := s.devs[e.i];
    match e
    case Edit(_, m, text, now) => EditedAccounted(s, d, m, Issued(|s.issued|, text), now);
    case Reply(_, results, next) => RepliedAccounted(s, d, results, next);
    case Decide(_, o, mine, now) => DecidedAccounted(s, d, o, mine, now);
    case Begin(_, _) =>
    case Complete(_) =>
    case Elsewhere(_) =>
    case _ =>
      var d' := DeviceAfter(s, e, see);
      assert d'.asked == d.asked && d'.closed == d.closed && d'.local.queue == d.local.queue;
  }

  lemma {:induction false} AnswersStayTruthful(s: Sys, t: Sys, op: Op, r: Result)
    requires (forall a :: a in s.answers ==> Truthful(s, a)) && Grows(s.server, t.server) && s.absent <= t.absent
    requires t.answers == s.answers + {(op, r)} && Truthful(t, (op, r))
    ensures forall a :: a in t.answers ==> Truthful(t, a)
  {
    forall a | a in t.answers ensures Truthful(t, a) {
      if a in s.answers {
        assert Truthful(s, a);
        if Settled(s, a.0.opId) { SettledStays(s, t, a.0.opId); }
      }
    }
  }

  lemma {:induction false} BegunLossless(s: Sys, op: Op, env: Env)
    requires Lossless(s)
    ensures Lossless(Begun(s, op, env))
  {
    var t := Begun(s, op, env);
    forall i | i in t.devs ensures Accounted(t, t.devs[i]) { AccountedStays(s, t, s.devs[i]); }
    if !IsUuid(op.recordId) {
      AnswersStayTruthful(s, t, op, Refusal(op));
    } else if op.opId in s.server.stamps {
      AnswersStayTruthful(s, t, op, FirstAnswer(s.server, op));
    } else {
      forall a | a in t.answers ensures Truthful(t, a) {
        assert Truthful(s, a);
        if Settled(s, a.0.opId) { SettledStays(s, t, a.0.opId); }
      }
    }
  }

  /** What one completed request does to the server. */
  lemma {:induction false} ProcessedGrows(s: Server, op: Op, env: Env)
    requires Recorded(s)
    ensures Recorded(Processed(s, op, env).0) && Grows(s, Processed(s, op, env).0)
    ensures OkOutcome(Processed(s, op, env).1.outcome) ==>
              op.opId in Processed(s, op, env).0.stamps || op.kind == Delete
  {
    var q, e := ProcessedForm(s, op, env);
    PerformedRecorded(q, op, e);
    PerformedGrows(q, op, e);
    PerformedEffects(q, op, e);
  }

  lemma {:induction false} CompletedLossless(s: Sys, t: Ticket)
    requires Lossless(s)
    ensures Lossless(Completed(s, t))
  {
    ProcessedGrows(s.server, t.op, t.env);
    var u := Completed(s, t);
    forall i | i in u.devs ensures Accounted(u, u.devs[i]) { AccountedStays(s, u, s.devs[i]); }
    var r := Processed(s.server, t.op, t.env).1;
    assert OkOutcome(r.outcome) && t.op.opId !in u.server.stamps ==> t.op in u.absent;
    AnswersStayTruthful(s, u, t.op, r);
  }

  lemma {:induction false} ElsewhereLossless(s: Sys, server: Server)
    requires Lossless(s) && WrittenElsewhere(s.server, server)
    ensures Lossless(s.(server := server))
  {
    var t := s.(server := server);
    forall a | a in t.answers ensures Truthful(t, a) {
      assert Truthful(s, a); assert Settled(s, a.0.opId) ==> Settled(t, a.0.opId);
    }
    forall i | i in t.devs ensures Accounted(t, t.devs[i]) {
      assert Accounted(s, s.devs[i]);
      assert forall o :: Settled(s, o) ==> Settled(t, o);
    }
  }

  lemma {:induction false} NextLossless(s: Sys, e: Event, see: DeviceId -> Change -> bool)
    requires Lossless(s)
    ensures Lossless(Next(s, e, see))
  {
    if Enabled(s, e) {
      if e.Begin? {
        BegunLossless(s, e.op, e.env);
      } else if e.Complete? {
        CompletedLossless(s, e.t);
      } else if e.Elsewhere? {
        ElsewhereLossless(s, e.server);
      } else {
        DeviceEventLossless(s, e, see);
        var t := Next(s, e, see);
        assert forall o :: Settled(s, o) ==> Settled(t, o);
        forall a | a in t.answers ensures Truthful(t, a) { assert Truthful(s, a); }
      }
    }
  }

  lemma {:induction false} AlwaysLossless(s: Sys, es: seq<Event>, see: DeviceId -> Change -> bool)
    requires Lossless(s)
    ensures Lossless(After(s, es, see))
    decreases es
  {
    if es != [] {
      NextLossless(s, es[0], see);
      AlwaysLossless(Next(s, es[0], see), es[1..], see);
    }
  }

  // ---- how often a statement runs ----

  /** A request still in hand goes on although operation `o` has already run its statement, and its guards let it
      write again. */
  ghost predicate Repeats(s: Sys, e: Event, o: OpId) {
    e.Complete? && Enabled(s, e) && e.t.op.opId == o && o in s.server.effects && WouldWrite(s.server, e.t.op, e.t.env)
  }

  ghost predicate NeverRepeats(s: Sys, es: seq<Event>, see: DeviceId -> Change -> bool, o: OpId)
    decreases es
  {
    es == [] || (!Repeats(s, es[0], o) && NeverRepeats(Next(s, es[0], see), es[1..], see, o))
  }

  lemma {:induction false} TimesRunStep(s: Sys, e: Event, see: DeviceId -> Change -> bool, o: OpId)
    ensures TimesRun(Next(s, e, see).server, o) == TimesRun(s.server, o) +
            if e.Complete? && Enabled(s, e) && e.t.op.opId == o && WouldWrite(s.server, e.t.op, e.t.env) then 1 else 0
  {
    if Enabled(s, e) && e.Complete? { ProcessedWritesIff(s.server, e.t.op, e.t.env); }
  }

  lemma {:induction false} TimesRunGrows(s: Sys, es: seq<Event>, see: DeviceId -> Change -> bool, o: OpId)
    ensures TimesRun(After(s, es, see).server, o) >= TimesRun(s.server, o)
    decreases es
  {
    if es != [] {
      TimesRunStep(s, es[0], see, o);
      TimesRunGrows(Next(s, es[0], see), es[1..], see, o);
    }
  }

  lemma {:induction false} AtMostOnceIff(s: Sys, es: seq<Event>, see: DeviceId -> Change -> bool, o: OpId)
    requires TimesRun(s.server, o) <= 1
    ensures TimesRun(After(s, es, see).server, o) <= 1 <==> NeverRepeats(s, es, see, o)
    decreases es
  {
    if es != [] {
      TimesRunStep(s, es[0], see, o);
      if Repeats(s, es[0], o) {
        TimesRunGrows(Next(s, es[0], see), es[1..], see, o);
      } else {
        AtMostOnceIff(Next(s, es[0], see), es[1..], see, o);
      }
    }
  }

  /**
   Over every run, whatever is lost, repeated, delayed or overlapping: an operation that left its device's outbox was
   stamped by the server, or deleted a row that was not there, or was closed by its user; a statement that ran is
   stamped; and it ran at most once exactly when no overlapping request of the same operation went on to write after it.
   */
  lemma {:induction false} ExactlyOnce(start: Sys, es: seq<Event>, see: DeviceId -> Change -> bool, i: DeviceId,
                                       o: OpId)
    requires Initial(start) && i in After(start, es, see).devs
    ensures var s := After(start, es, see);
            && (o in s.devs[i].asked && !HasPending(s.devs[i].local.queue, o) ==>
               Settled(s, o) || o in s.devs[i].closed)
            && (TimesRun(s.server, o) > 0 ==> o in s.server.stamps)
            && (TimesRun(s.server, o) <= 1 <==> NeverRepeats(start, es, see, o))
  {
    AlwaysLossless(start, es, see);
    AtMostOnceIff(start, es, see, o);
    var s := After(start, es, see);
    assert Accounted(s, s.devs[i]);
  }

  // ---- copies the user decided to keep ----

  /** A kept copy is written by its delivery exactly when nothing was stamped under its id before and the guards let
      it. */
  lemma {:induction false} KeptCopyIsWrittenIff(s: Server, o: OpId, c: LocalConflict, now: int, env: Env)
    ensures var kept := ForcedOp(o, c, now);
            Delivered(s, kept, env).0.effects == s.effects + [kept.opId] <==>
            IsUuid(c.key.id) && Forced(o) !in s.stamps && WouldWrite(s, kept, env)
  {
    ProcessedWritesIff(s, ForcedOp(o, c, now), env);
    assert s.effects + [Forced(o)] != s.effects by { assert |s.effects + [Forced(o)]| != |s.effects|; }
  }

  /** So the copy of a second decision on the same conflict never reaches the server once the first one was accepted,
      whatever is delivered in between: it gets the first one's answer, which takes it out of the outbox. */
  lemma {:induction false} SecondCopyIsLost(s: Server, h: seq<Delivery>, o: OpId, c: LocalConflict, now: int, env: Env)
    requires Consistent(s) && Forced(o) in s.stamps && IsUuid(c.key.id)
    ensures var d := Delivery(ForcedOp(o, c, now), env);
            Step(Run(s, h), d) == Run(s, h) && OkOutcome(Answer(Run(s, h), d).outcome)
  {
    RunKeepsConsistent(s, h);
    RunGrows(s, h);
    StampedIsInert(Run(s, h), Delivery(ForcedOp(o, c, now), env));
  }

  // ---- requests that do not overlap ----

  /** No request of this run starts on operation `o` while another one works on it. */
  ghost predicate OneAtATime(s: Sys, es: seq<Event>, see: DeviceId -> Change -> bool, o: OpId)
    decreases es
  {
    es == [] || (&& (es[0].Begin? && es[0].op.opId == o ==> !InHand(s, o))
                 && OneAtATime(Next(s, es[0], see), es[1..], see, o))
  }

  ghost predicate InHand(s: Sys, o: OpId) { exists t :: t in s.inHand && t.op.opId == o }

  /** At most one request works on `o`, and only before `o` is stamped. */
  ghost predicate Alone(s: Sys, o: OpId) {
    && (forall t, u :: t in s.inHand && u in s.inHand && t.op.opId == o && u.op.opId == o ==> t == u)
    && (forall t :: t in s.inHand && t.op.opId == o ==> s.inHand[t] == 1 && o !in s.server.stamps)
  }

  lemma {:induction false} AloneBegin(s: Sys, op: Op, env: Env, o: OpId)
    requires Alone(s, o) && (op.opId == o ==> !InHand(s, o))
    ensures Alone(Begun(s, op, env), o)
  {
    var t := Begun(s, op, env);
    forall u | u in t.inHand && u.op.opId == o ensures u in s.inHand || u == Ticket(op, env) {}
  }

  lemma {:induction false} ProcessedStamps(s: Server, op: Op, env: Env)
    ensures forall o :: o in Processed(s, op, env).0.stamps ==> o in s.stamps || o == op.opId
  {
    var q, e := ProcessedForm(s, op, env);
    PerformedStamps(q, op, e);
  }

  lemma {:induction false} PerformedStamps(q: Server, op: Op, e: Effect)
    ensures forall o :: o in Performed(q, op, e).stamps ==> o in q.stamps || o == op.opId
  {}

  lemma {:induction false} AloneComplete(s: Sys, t: Ticket, o: OpId)
    requires Alone(s, o) && t in s.inHand
    ensures Alone(Completed(s, t), o)
  {
    ProcessedStamps(s.server, t.op, t.env);
    var u := Completed(s, t);
    forall x | x in u.inHand && x.op.opId == o ensures x in s.inHand && x != t && t.op.opId != o && u.inHand[x] == 1 {}
  }

  lemma {:induction false} AloneStep(s: Sys, e: Event, see: DeviceId -> Change -> bool, o: OpId)
    requires Lossless(s) && Alone(s, o) && (e.Begin? && e.op.opId == o ==> !InHand(s, o))
    ensures Alone(Next(s, e, see), o) && !Repeats(s, e, o)
  {
    if Enabled(s, e) {
      if e.Begin? { AloneBegin(s, e.op, e.env, o); }
      if e.Complete? { AloneComplete(s, e.t, o); }
    }
  }

  lemma {:induction false} AlwaysAlone(s: Sys, es: seq<Event>, see: DeviceId -> Change -> bool, o: OpId)
    requires Lossless(s) && Alone(s, o) && OneAtATime(s, es, see, o)
    ensures NeverRepeats(s, es, see, o)
    decreases es
  {
    if es != [] {
      AloneStep(s, es[0], see, o);
      NextLossless(s, es[0], see);
      AlwaysAlone(Next(s, es[0], see), es[1..], see, o);
    }
  }

  /** If no two requests work on an operation at the same time, its statement runs at most once. */
  lemma {:induction false} OnceIfOneAtATime(start: Sys, es: seq<Event>, see: DeviceId -> Change -> bool, o: OpId)
    requires Initial(start) && OneAtATime(start, es, see, o)
    ensures TimesRun(After(start, es, see).server, o) <= 1
  {
    AlwaysAlone(start, es, see, o);
    AtMostOnceIff(start, es, see, o);
  }
}
