/** What a device's cursor means, in every state the system can reach. */
module SyncCursorLaws {
  import opened Prelude
  import opened SyncProtocol
  import opened SyncServer
  import opened SyncServerLaws
  import opened SyncFeed
  import opened SyncDevice
  import opened SyncSystem
  import opened SyncSystemLaws

  /** Change `n` lies in an interval the cursor was moved over by a push reply. */
  ghost predicate Jumped(d: Dev, n: nat) {
    exists k :: 0 <= k < |d.jumps| && d.jumps[k].0 < n <= d.jumps[k].1
  }

  ghost predicate CoveredUpTo(f: Feed, see: Change -> bool, d: Dev, hi: nat) {
    forall c :: c in f.entries && c.seqNo <= hi && see(c) ==> c.seqNo in d.applied || Jumped(d, c.seqNo)
  }

  /** Pulls applied only changes of the feed that this device may see. */
  ghost predicate Genuine(f: Feed, see: Change -> bool, applied: set<nat>) {
    forall n :: n in applied ==> exists c :: c in f.entries && c.seqNo == n && see(c)
  }

  ghost predicate AppliedBetween(f: Feed, see: Change -> bool, applied: set<nat>, lo: nat, hi: nat) {
    forall c :: c in f.entries && lo < c.seqNo <= hi && see(c) ==> c.seqNo in applied
  }

  ghost predicate CursorSound(f: Feed, see: Change -> bool, d: Dev) {
    && d.local.cursor <= f.head && CoveredUpTo(f, see, d, d.local.cursor) && Genuine(f, see, d.applied)
    && (d.phase.Pushing? ==> d.phase.left != [] && d.local.cursor <= d.phase.top <= f.head)
    && (d.phase.Pulling? ==>
          d.local.cursor <= d.phase.cursor <= f.head
              && AppliedBetween(f, see, d.applied, d.local.cursor, d.phase.cursor))
  }

  ghost predicate Tracked(s: Sys, see: DeviceId -> Change -> bool) {
    Sound(FeedOf(s.server)) && forall i :: i in s.devs ==> CursorSound(FeedOf(s.server), see(i), s.devs[i])
  }

  lemma {:induction false} ProcessedExtendsFeed(s: Server, op: Op, env: Env)
    requires Sound(FeedOf(s))
    ensures Extends(FeedOf(s), FeedOf(Processed(s, op, env).0)) && Sound(FeedOf(Processed(s, op, env).0))
  {
    var q, e := ProcessedForm(s, op, env);
    PerformedExtendsFeed(q, op, e);
  }

  lemma {:induction false} PerformedExtendsFeed(q: Server, op: Op, e: Effect)
    requires Sound(FeedOf(q))
    ensures Extends(FeedOf(q), FeedOf(Performed(q, op, e))) && Sound(FeedOf(Performed(q, op, e)))
  {
    if e.Write? {
      var w := Written(q, KeyOf(op), e.cols, op.opId);
      FeedAppends(q.feed, q.head, w.feed[|q.feed|]);
      assert FeedOf(Performed(q, op, e)) == FeedOf(w);
    }
  }

  lemma {:induction false} FeedGrowthKeepsCursor(f: Feed, g: Feed, see: Change -> bool, d: Dev)
    requires CursorSound(f, see, d) && Extends(f, g)
    ensures CursorSound(g, see, d)
  {
    forall c | c in g.entries && c.seqNo <= f.head ensures c in f.entries {
      var i :| 0 <= i < |g.entries| && g.entries[i] == c;
      assert i < |f.entries| ==> f.entries[i] == c;
    }
    forall n | n in d.applied ensures exists c :: c in g.entries && c.seqNo == n && see(c) {
      var c :| c in f.entries && c.seqNo == n && see(c);
      assert c in g.entries;
    }
  }

  lemma {:induction false} CoverageGrows(f: Feed, see: Change -> bool, d: Dev, e: Dev, hi: nat, to: nat)
    requires CoveredUpTo(f, see, d, hi) && d.applied <= e.applied && d.jumps <= e.jumps
    requires forall c :: c in f.entries && hi < c.seqNo <= to && see(c) ==> c.seqNo in e.applied || Jumped(e, c.seqNo)
    ensures CoveredUpTo(f, see, e, to)
  {
    forall c | c in f.entries && c.seqNo <= hi && see(c) ensures c.seqNo in e.applied || Jumped(e, c.seqNo) {
      if c.seqNo !in d.applied {
        var k :| 0 <= k < |d.jumps| && d.jumps[k].0 < c.seqNo <= d.jumps[k].1;
        assert e.jumps[k] == d.jumps[k];
      }
    }
  }

  lemma {:induction false} RepliedSound(f: Feed, see: Change -> bool, d: Dev, results: seq<Result>, next: nat)
    requires CursorSound(f, see, d) && d.phase.Pushing? && next <= f.head
    ensures CursorSound(f, see, Replied(d, results, next))
  {
    var e := Replied(d, results, next);
    AnswersKeepCursor(d.local, results);
    if |d.phase.left| == 1 {
      assert e.jumps[|d.jumps|] == (d.local.cursor, e.local.cursor);
      CoverageGrows(f, see, d, e, d.local.cursor, e.local.cursor);
    } else {
      CoverageGrows(f, see, d, e, d.local.cursor, d.local.cursor);
    }
  }

  /** A page formed at an earlier state `f` of the feed, arriving when the feed is `g`. */
  lemma {:induction false} PageApplies(f: Feed, g: Feed, see: Change -> bool, cursor: nat, limit: int)
    requires Sound(f) && Extends(f, g) && cursor <= f.head && Pull(f, see, cursor, limit).Page?
    ensures var page := Pull(f, see, cursor, limit);
            && cursor <= page.cursor <= g.head && AppliedBetween(g, see, SeqNos(page.changes), cursor, page.cursor)
            && Genuine(g, see, SeqNos(page.changes)) && forall n :: n in SeqNos(page.changes) ==> cursor < n
  {
    PageIsWindow(f, see, cursor, limit);
    var page := Pull(f, see, cursor, limit);
    WindowStable(f, g, see, cursor, page.cursor);
    WindowMembers(g.entries, see, cursor, page.cursor);
    forall c | c in g.entries && cursor < c.seqNo <= page.cursor && see(c) ensures c.seqNo in SeqNos(page.changes) {
      assert Stripped(c) in page.changes && Stripped(c).seqNo == c.seqNo;
    }
  }

  lemma {:induction false} GotPageSound(f: Feed, g: Feed, see: Change -> bool, d: Dev)
    requires Sound(f) && Extends(f, g) && CursorSound(g, see, d) && d.phase.Pulling? && d.phase.cursor <= f.head
    ensures CursorSound(g, see, GotPage(d, f, see))
  {
    var e := GotPage(d, f, see);
    if Pull(f, see, d.phase.cursor, PULL_LIMIT) == FullResync {
      CoverageGrows(g, see, d, e, 0, 0);
    } else {
      PageApplies(f, g, see, d.phase.cursor, PULL_LIMIT);
      var page := Pull(f, see, d.phase.cursor, PULL_LIMIT);
      assert AppliedBetween(g, see, e.applied, d.local.cursor, page.cursor);
      CoverageGrows(g, see, d, e, d.local.cursor, e.local.cursor);
    }
  }

  lemma {:induction false} DeviceEventSound(s: Sys, e: Event, see: DeviceId -> Change -> bool)
    requires Tracked(s, see) && Enabled(s, e) && OnDevice(e)
    ensures CursorSound(FeedOf(s.server), see(e.i), DeviceAfter(s, e, see))
  {
    var f, d, d' := FeedOf(s.server), s.devs[e.i], DeviceAfter(s, e, see);
    match e
    case Reply(i, results, next) => RepliedSound(f, see(i), d, results, next);
    case PageArrives(i, page) => GotPageSound(page, f, see(i), d);
    case StartCycle(_) =>
      if d.local.queue != [] { PlanNotEmpty(d.local.queue); }
      CoverageGrows(f, see(e.i), d, d', d.local.cursor, d.local.cursor);
    case Edit(_, _, _, _) => CursorKept(f, see(e.i), d, d');
    case Decide(_, _, _, _) => CursorKept(f, see(e.i), d, d');
    case Fail(_) => CursorKept(f, see(e.i), d, d');
    case Restart(_) => CursorKept(f, see(e.i), d, d');
    case StartFullResync(_) => CoverageGrows(f, see(e.i), d, d', 0, 0);
    case Begin(_, _) =>
    case Complete(_) =>
    case Elsewhere(_) =>
  }

  lemma {:induction false} CursorKept(f: Feed, see: Change -> bool, d: Dev, e: Dev)
    requires CursorSound(f, see, d) && e.local.cursor == d.local.cursor && e.applied == d.applied && e.jumps == d.jumps
    requires e.phase == d.phase || e.phase == Idle
    ensures CursorSound(f, see, e)
  {}

  lemma {:induction false} ServerGrowthTracked(s: Sys, server: Server, see: DeviceId -> Change -> bool)
    requires Tracked(s, see) && Extends(FeedOf(s.server), FeedOf(server)) && Sound(FeedOf(server))
    ensures forall i :: i in s.devs ==> CursorSound(FeedOf(server), see(i), s.devs[i])
  {
    forall i | i in s.devs ensures CursorSound(FeedOf(server), see(i), s.devs[i]) {
      FeedGrowthKeepsCursor(FeedOf(s.server), FeedOf(server), see(i), s.devs[i]);
    }
  }

  lemma {:induction false} NextTracked(s: Sys, e: Event, see: DeviceId -> Change -> bool)
    requires Tracked(s, see)
    ensures Tracked(Next(s, e, see), see)
  {
    if Enabled(s, e) {
      if e.Complete? {
        ProcessedExtendsFeed(s.server, e.t.op, e.t.env);
        ServerGrowthTracked(s, Processed(s.server, e.t.op, e.t.env).0, see);
      } else if e.Elsewhere? {
        ServerGrowthTracked(s, e.server, see);
      } else if OnDevice(e) {
        DeviceEventSound(s, e, see);
      }
    }
  }

  lemma {:induction false} AlwaysTracked(s: Sys, es: seq<Event>, see: DeviceId -> Change -> bool)
    requires Tracked(s, see)
    ensures Tracked(After(s, es, see), see)
    decreases es
  {
    if es != [] {
      NextTracked(s, es[0], see);
      AlwaysTracked(Next(s, es[0], see), es[1..], see);
    }
  }

  lemma {:induction false} ReachableTracked(s: Sys, see: DeviceId -> Change -> bool)
    requires Reachable(s, see)
    ensures Tracked(s, see)
  {
    var start, es :| Initial(start) && After(start, es, see) == s;
    forall i | i in start.devs ensures CursorSound(FeedOf(start.server), see(i), start.devs[i]) {
      assert start.devs[i] == FRESH;
    }
    AlwaysTracked(start, es, see);
  }

  /** Cursor accounting: in every reachable state each visible change at or below the stored cursor was applied by a
      pull or lies in an interval jumped by a push reply, and pulls applied nothing else. */
  lemma {:induction false} CursorAccounting(s: Sys, see: DeviceId -> Change -> bool, i: DeviceId)
    requires Reachable(s, see) && i in s.devs
    ensures s.devs[i].local.cursor <= s.server.head
    ensures CoveredUpTo(FeedOf(s.server), see(i), s.devs[i], s.devs[i].local.cursor)
    ensures Genuine(FeedOf(s.server), see(i), s.devs[i].applied)
  {
    ReachableTracked(s, see);
  }

  // ---- which cycles jump ----

  /** Every cycle device `i` starts in this run finds its outbox empty. */
  ghost predicate OnlyEmptyCycles(s: Sys, es: seq<Event>, see: DeviceId -> Change -> bool, i: DeviceId)
    decreases es
  {
    es == [] || (&& (es[0] == StartCycle(i) && Enabled(s, es[0]) ==> s.devs[i].local.queue == [])
                 && OnlyEmptyCycles(Next(s, es[0], see), es[1..], see, i))
  }

  /** Cycles that start with an empty outbox add no jumped interval. */
  lemma {:induction false} EmptyCyclesNeverJump(s: Sys, es: seq<Event>, see: DeviceId -> Change -> bool, i: DeviceId)
    requires i in s.devs && !s.devs[i].phase.Pushing? && OnlyEmptyCycles(s, es, see, i)
    ensures i in After(s, es, see).devs && After(s, es, see).devs[i].jumps == s.devs[i].jumps
    decreases es
  {
    if es != [] {
      EmptyCycleStep(s, es[0], see, i);
      EmptyCyclesNeverJump(Next(s, es[0], see), es[1..], see, i);
    }
  }

  lemma {:induction false} EmptyCycleStep(s: Sys, e: Event, see: DeviceId -> Change -> bool, i: DeviceId)
    requires i in s.devs && !s.devs[i].phase.Pushing?
    requires e == StartCycle(i) && Enabled(s, e) ==> s.devs[i].local.queue == []
    ensures i in Next(s, e, see).devs && !Next(s, e, see).devs[i].phase.Pushing?
    ensures Next(s, e, see).devs[i].jumps == s.devs[i].jumps
  {
    if Enabled(s, e) && OnDevice(e) && e.i == i {
      var d' := DeviceAfter(s, e, see);
      assert !d'.phase.Pushing? && d'.jumps == s.devs[i].jumps;
    }
  }

  // ---- what is jumped is lost ----

  ghost predicate ResetsCursor(s: Sys, e: Event, see: DeviceId -> Change -> bool, i: DeviceId)
    requires i in s.devs
  {
    && Enabled(s, e)
    && (|| e == StartFullResync(i)
        || (e.PageArrives? && e.i == i && Pull(e.f, see(i), s.devs[i].phase.cursor, PULL_LIMIT) == FullResync))
  }

  ghost predicate NeverResets(s: Sys, es: seq<Event>, see: DeviceId -> Change -> bool, i: DeviceId)
    decreases es
  {
    es == [] || (i in s.devs && !ResetsCursor(s, es[0], see, i) && NeverResets(Next(s, es[0], see), es[1..], see, i))
  }

  lemma {:induction false} PastIsFrozenByPage(f: Feed, g: Feed, see: Change -> bool, d: Dev, n: nat)
    requires Sound(f) && Extends(f, g) && CursorSound(g, see, d) && d.phase.Pulling? && d.phase.cursor <= f.head
    requires n <= d.local.cursor
    requires Pull(f, see, d.phase.cursor, PULL_LIMIT) != FullResync
    ensures n <= GotPage(d, f, see).local.cursor && (n in GotPage(d, f, see).applied <==> n in d.applied)
  {
    PageApplies(f, g, see, d.phase.cursor, PULL_LIMIT);
  }

  lemma {:induction false} PastIsFrozen(s: Sys, e: Event, see: DeviceId -> Change -> bool, i: DeviceId, n: nat)
    requires Tracked(s, see) && i in s.devs && n <= s.devs[i].local.cursor && !ResetsCursor(s, e, see, i)
    ensures var t := Next(s, e, see);
            i in t.devs && n <= t.devs[i].local.cursor && (n in t.devs[i].applied <==> n in s.devs[i].applied)
  {
    if Enabled(s, e) && OnDevice(e) && e.i == i {
      if e.PageArrives? { PastIsFrozenByPage(e.f, FeedOf(s.server), see(i), s.devs[i], n); }
      if e.Reply? { AnswersKeepCursor(s.devs[i].local, e.results); }
    }
  }

  /** A change the cursor has passed is never pulled later: only a full resync can still bring it. */
  lemma {:induction false} PassedIsLost(s: Sys, es: seq<Event>, see: DeviceId -> Change -> bool, i: DeviceId, n: nat)
    requires Reachable(s, see) && i in s.devs && n <= s.devs[i].local.cursor && NeverResets(s, es, see, i)
    ensures i in After(s, es, see).devs
    ensures n in After(s, es, see).devs[i].applied <==> n in s.devs[i].applied
  {
    ReachableTracked(s, see);
    PassedStaysFrozen(s, es, see, i, n);
  }

  lemma {:induction false} PassedStaysFrozen(s: Sys, es: seq<Event>, see: DeviceId -> Change -> bool, i: DeviceId,
                                             n: nat)
    requires Tracked(s, see) && i in s.devs && n <= s.devs[i].local.cursor && NeverResets(s, es, see, i)
    ensures var t := After(s, es, see); i in t.devs && (n in t.devs[i].applied <==> n in s.devs[i].applied)
    decreases es
  {
    if es != [] {
      PastIsFrozen(s, es[0], see, i, n);
      NextTracked(s, es[0], see);
      PassedStaysFrozen(Next(s, es[0], see), es[1..], see, i, n);
    }
  }

  // ---- when the cursor means what it seems to mean ----

  /** Every visible change up to the cursor was pulled. */
  ghost predicate AllApplied(f: Feed, see: Change -> bool, d: Dev) {
    forall c :: c in f.entries && c.seqNo <= d.local.cursor && see(c) ==> c.seqNo in d.applied
  }

  /** The reply to the last batch would move the cursor over a visible change that was not pulled. */
  ghost predicate Skips(f: Feed, see: Change -> bool, d: Dev, next: nat)
    requires d.phase.Pushing?
  {
    exists c :: c in f.entries && see(c) && d.local.cursor < c.seqNo <= Max(d.phase.top, next) && c.seqNo !in d.applied
  }

  /** Exactly then the last reply makes the cursor mean less than it seems to. */
  lemma {:induction false} LastReplySkipsIff(f: Feed, see: Change -> bool, d: Dev, results: seq<Result>, next: nat)
    requires CursorSound(f, see, d) && d.phase.Pushing? && |d.phase.left| == 1
    ensures AllApplied(f, see, Replied(d, results, next)) <==> AllApplied(f, see, d) && !Skips(f, see, d, next)
  {
    var e := Replied(d, results, next);
    AnswersKeepCursor(d.local, results);
    assert e.applied == d.applied && e.local.cursor == Max(d.phase.top, next) >= d.local.cursor;
  }

  ghost predicate SkippingReply(s: Sys, e: Event, see: DeviceId -> Change -> bool, i: DeviceId)
    requires i in s.devs
  {
    && e.Reply? && e.i == i && Enabled(s, e) && |s.devs[i].phase.left| == 1
    && Skips(FeedOf(s.server), see(i), s.devs[i], e.next)
  }

  ghost predicate Intact(s: Sys, see: DeviceId -> Change -> bool, i: DeviceId)
    requires i in s.devs
  {
    AllApplied(FeedOf(s.server), see(i), s.devs[i])
  }

  lemma {:induction false} IntactUnderGrowth(f: Feed, g: Feed, see: Change -> bool, d: Dev)
    requires CursorSound(f, see, d) && Extends(f, g)
    ensures AllApplied(g, see, d) <==> AllApplied(f, see, d)
  {
    forall c | c in g.entries && c.seqNo <= f.head ensures c in f.entries {
      var i :| 0 <= i < |g.entries| && g.entries[i] == c;
      assert i < |f.entries| ==> f.entries[i] == c;
    }
    assert forall c :: c in f.entries ==> c in g.entries;
  }

  lemma {:induction false} PageKeepsIntact(f: Feed, g: Feed, see: Change -> bool, d: Dev)
    requires Sound(f) && Extends(f, g) && CursorSound(g, see, d) && d.phase.Pulling? && d.phase.cursor <= f.head
    requires AllApplied(g, see, d) && Pull(f, see, d.phase.cursor, PULL_LIMIT) != FullResync
    ensures AllApplied(g, see, GotPage(d, f, see))
  {
    PageApplies(f, g, see, d.phase.cursor, PULL_LIMIT);
    assert AppliedBetween(g, see, GotPage(d, f, see).applied, d.local.cursor,
        Pull(f, see, d.phase.cursor, PULL_LIMIT).cursor);
  }

  lemma {:induction false} ResetIsIntact(s: Sys, e: Event, see: DeviceId -> Change -> bool, i: DeviceId)
    requires Tracked(s, see) && i in s.devs && ResetsCursor(s, e, see, i)
    ensures i in Next(s, e, see).devs && Intact(Next(s, e, see), see, i)
  {
    assert Next(s, e, see).devs[i].local.cursor == 0;
  }

  lemma {:induction false} IntactOnServer(s: Sys, e: Event, see: DeviceId -> Change -> bool, i: DeviceId)
    requires Tracked(s, see) && i in s.devs && !(Enabled(s, e) && OnDevice(e) && e.i == i)
    ensures i in Next(s, e, see).devs && (Intact(Next(s, e, see), see, i) <==> Intact(s, see, i))
  {
    OneDeviceMoves(s, e, see);
    FeedExtends(s, e, see);
    IntactUnderGrowth(FeedOf(s.server), FeedOf(Next(s, e, see).server), see(i), s.devs[i]);
  }

  lemma {:induction false} FeedExtends(s: Sys, e: Event, see: DeviceId -> Change -> bool)
    requires Sound(FeedOf(s.server))
    ensures Extends(FeedOf(s.server), FeedOf(Next(s, e, see).server))
  {
    if Enabled(s, e) && e.Complete? { ProcessedExtendsFeed(s.server, e.t.op, e.t.env); }
  }

  lemma {:induction false} IntactOnDevice(s: Sys, e: Event, see: DeviceId -> Change -> bool)
    requires Tracked(s, see) && Enabled(s, e) && OnDevice(e) && !ResetsCursor(s, e, see, e.i) && Intact(s, see, e.i)
    ensures AllApplied(FeedOf(s.server), see(e.i), DeviceAfter(s, e, see)) <==> !SkippingReply(s, e, see, e.i)
  {
    var d := s.devs[e.i];
    if e.PageArrives? {
      PageKeepsIntact(e.f, FeedOf(s.server), see(e.i), d);
    } else if e.Reply? {
      AnswersKeepCursor(d.local, e.results);
      if |d.phase.left| == 1 { LastReplySkipsIff(FeedOf(s.server), see(e.i), d, e.results, e.next); }
    }
  }

  lemma {:induction false} IntactStays(s: Sys, e: Event, see: DeviceId -> Change -> bool, i: DeviceId)
    requires Tracked(s, see) && i in s.devs && !ResetsCursor(s, e, see, i) && Intact(s, see, i)
    ensures i in Next(s, e, see).devs && (Intact(Next(s, e, see), see, i) <==> !SkippingReply(s, e, see, i))
  {
    if Enabled(s, e) && OnDevice(e) && e.i == i {
      OneDeviceMoves(s, e, see);
      IntactOnDevice(s, e, see);
    } else {
      IntactOnServer(s, e, see, i);
    }
  }

  lemma {:induction false} BrokenStays(s: Sys, e: Event, see: DeviceId -> Change -> bool, i: DeviceId)
    requires Tracked(s, see) && i in s.devs && !ResetsCursor(s, e, see, i) && !Intact(s, see, i)
    ensures i in Next(s, e, see).devs && !Intact(Next(s, e, see), see, i)
  {
    var c :| c in s.server.feed && c.seqNo <= s.devs[i].local.cursor && see(i)(c) && c.seqNo !in s.devs[i].applied;
    PastIsFrozen(s, e, see, i, c.seqNo);
    FeedOnlyGrows(s, e, see);
    assert c in Next(s, e, see).server.feed;
  }

  lemma {:induction false} FeedOnlyGrows(s: Sys, e: Event, see: DeviceId -> Change -> bool)
    requires Sound(FeedOf(s.server))
    ensures s.server.feed <= Next(s, e, see).server.feed
  {
    if e.Complete? { ProcessedExtendsFeed(s.server, e.t.op, e.t.env); }
  }

  /** Whether a change is missing at the end of a run, told from its events: a reset makes good, a skipping reply does
      harm. */
  ghost predicate Missing(s: Sys, es: seq<Event>, see: DeviceId -> Change -> bool, i: DeviceId, already: bool)
    requires i in s.devs
    decreases es
  {
    if es == [] then already
    else
      i in Next(s, es[0], see).devs &&
      Missing(Next(s, es[0], see), es[1..], see, i, !ResetsCursor(s, es[0], see, i)
          && (already || SkippingReply(s, es[0], see, i)))
  }

  /** "Everything up to the cursor was pulled" holds after a run exactly when no push reply skipped an unpulled
      visible change since the cursor was last reset. */
  lemma {:induction false} EverythingPulledIff(s: Sys, es: seq<Event>, see: DeviceId -> Change -> bool, i: DeviceId)
    requires Reachable(s, see) && i in s.devs
    ensures i in After(s, es, see).devs
    ensures Intact(After(s, es, see), see, i) <==> !Missing(s, es, see, i, !Intact(s, see, i))
  {
    ReachableTracked(s, see);
    IntactIffNotMissing(s, es, see, i);
  }

  lemma {:induction false} IntactIffNotMissing(s: Sys, es: seq<Event>, see: DeviceId -> Change -> bool, i: DeviceId)
    requires Tracked(s, see) && i in s.devs
    ensures i in After(s, es, see).devs
    ensures Intact(After(s, es, see), see, i) <==> !Missing(s, es, see, i, !Intact(s, see, i))
    decreases es
  {
    if es != [] {
      var e, t := es[0], Next(s, es[0], see);
      NextTracked(s, e, see);
      if ResetsCursor(s, e, see, i) {
        ResetIsIntact(s, e, see, i);
      } else if Intact(s, see, i) {
        IntactStays(s, e, see, i);
      } else {
        BrokenStays(s, e, see, i);
      }
      IntactIffNotMissing(t, es[1..], see, i);
    }
  }
}
