/**
 The whole system as a state machine: devices that edit, push, pull, restart and decide conflicts,
 one server that works on many requests at once, and a network that may lose, delay, repeat and reorder every
 request and lose or delay every reply.
 Which changes a device may see is an arbitrary predicate per device; a device runs one cycle at a time.
 */
module SyncSystem {
  import opened Prelude
  import opened SyncMeta
  import opened SyncProtocol
  import opened SyncServer
  import opened SyncFeed
  import opened SyncDevice
  import opened PushPlan
  import opened Sorting

  type DeviceId = nat

  /** Where a device is in its cycle; `left[0]` is the batch it waits for. */
  datatype Phase = Idle | Pushing(left: seq<seq<Op>>, top: nat) | Pulling(cursor: nat, pages: nat)

  /**
   A device and its history: the operations it ever queued, those its user closed by a conflict decision,
   the sequence numbers its pulls applied, and the intervals its cursor was moved over by a push reply.
   */
  datatype Dev = Dev(local: Device, phase: Phase, asked: set<OpId>, closed: set<OpId>, applied: set<nat>,
      jumps: seq<(nat, nat)>)

  /** A request that is past the duplicate check and has not reached its statements. */
  datatype Ticket = Ticket(op: Op, env: Env)

  /** `wire` holds every operation ever sent in an acceptable batch, `inHand` the requests the server is working on,
      `answers` every answer it gave, `absent` the deletions it acknowledged because there was no such row. */
  datatype Sys = Sys(server: Server, devs: map<DeviceId, Dev>, issued: seq<Op>, wire: set<Op>, inHand: multiset<Ticket>,
                     answers: set<(Op, Result)>, absent: set<Op>)

  datatype Event =
    | Edit(i: DeviceId, m: Mutation, text: string, now: int)
    | StartCycle(i: DeviceId)
    | Begin(op: Op, env: Env)
    | Complete(t: Ticket)
    | Reply(i: DeviceId, results: seq<Result>, next: nat)
    | Fail(i: DeviceId)
    | PageArrives(i: DeviceId, f: Feed)
    | StartFullResync(i: DeviceId)
    | Decide(i: DeviceId, o: OpId, mine: bool, now: int)
    | Restart(i: DeviceId)
    | Elsewhere(server: Server)

  ghost predicate AnswerTo(s: Sys, batch: seq<Op>, results: seq<Result>) {
    |results| == |batch| && forall k :: 0 <= k < |batch| ==> (batch[k], results[k]) in s.answers
  }

  function FeedOf(s: Server): Feed { Feed(s.feed, s.head) }

  /** What other parts of the back end may do: anything to rows and numbers, new changes, no stamps. */
  ghost predicate WrittenElsewhere(s: Server, t: Server) {
    && t.stamps == s.stamps && t.effects == s.effects && s.conflicts <= t.conflicts
    && Extends(FeedOf(s), FeedOf(t)) && Sound(FeedOf(t))
  }

  ghost predicate Enabled(s: Sys, e: Event) {
    match e
    case Begin(op, env) => op in s.wire
    case Complete(t) => t in s.inHand
    case Elsewhere(t) => WrittenElsewhere(s.server, t)
    case Edit(i, m, text, now) => i in s.devs && !MetaOf(m.key.entity).restOnly
    case Reply(i, results, next) =>
      && i in s.devs && s.devs[i].phase.Pushing? && s.devs[i].phase.left != [] && next <= s.server.head
      && ValidBatch(s.devs[i].phase.left[0]) && AnswerTo(s, s.devs[i].phase.left[0], results)
    case StartCycle(i) => i in s.devs && s.devs[i].phase.Idle?
    case StartFullResync(i) => i in s.devs && s.devs[i].phase.Idle?
    case Fail(i) => i in s.devs && !s.devs[i].phase.Idle?
    case PageArrives(i, f) =>
      && i in s.devs && s.devs[i].phase.Pulling?
      && Sound(f) && Extends(f, FeedOf(s.server)) && s.devs[i].phase.cursor <= f.head
    case Decide(i, o, mine, now) => i in s.devs
    case Restart(i) => i in s.devs
  }

  // ---- what a device becomes ----

  function SeqNos(cs: seq<Change>): set<nat> { set c | c in cs :: c.seqNo }

  function Edited(d: Dev, m: Mutation, opId: OpId, now: int): Dev
    requires !MetaOf(m.key.entity).restOnly
  {
    d.(local := Queued(d.local, m, opId, now).value, asked := d.asked + {opId})
  }

  function Started(d: Dev): Dev {
    if d.local.queue == [] then d.(phase := Pulling(d.local.cursor, MAX_PULL_PAGES))
    else d.(phase := Pushing(Plan(Ops(d.local.queue), BATCH_SIZE), d.local.cursor))
  }

  lemma {:induction false} PlanNotEmpty(queue: seq<Pending>)
    requires queue != []
    ensures Plan(Ops(queue), BATCH_SIZE) != []
  {
    SortPermutes(Ops(queue), OpLe);
  }

  function Replied(d: Dev, results: seq<Result>, next: nat): Dev
    requires d.phase.Pushing? && d.phase.left != []
  {
    var top := Max(d.phase.top, next);
    var local := AnsweredAll(d.local, results);
    if |d.phase.left| == 1 then
      d.(local := local.(cursor := top), phase := Pulling(top, MAX_PULL_PAGES),
         jumps := d.jumps + [(d.local.cursor, top)])
    else d.(local := local, phase := Pushing(d.phase.left[1..], top))
  }

  function GotPage(d: Dev, f: Feed, see: Change -> bool): Dev
    requires d.phase.Pulling?
  {
    match Pull(f, see, d.phase.cursor, PULL_LIMIT)
    case FullResync => d.(local := d.local.(cursor := 0), phase := Idle)
    case Page(changes, cursor, hasMore) =>
      var d' := d.(local := d.local.(recs := RemoteAll(d.local.recs, changes)), applied := d.applied + SeqNos(changes));
      if !hasMore || d.phase.pages <= 1 then d'.(local := d'.local.(cursor := cursor), phase := Idle)
      else d'.(phase := Pulling(cursor, d.phase.pages - 1))
  }

  function Decided(d: Dev, o: OpId, mine: bool, now: int): Dev {
    if o !in d.local.conflicts then d
    else if mine then d.(local := TookLocal(d.local, o, now), asked := d.asked + {Forced(o)}, closed := d.closed + {o})
    else d.(local := TookServer(d.local, o), closed := d.closed + {o})
  }

  ghost function DeviceAfter(s: Sys, e: Event, see: DeviceId -> Change -> bool): Dev
    requires Enabled(s, e) && OnDevice(e)
  {
    var d := s.devs[e.i];
    match e
    case Edit(_, m, text, now) => Edited(d, m, Issued(|s.issued|, text), now)
    case StartCycle(_) => Started(d)
    case Reply(_, results, next) => Replied(d, results, next)
    case Fail(_) => d.(phase := Idle)
    case PageArrives(_, f) => GotPage(d, f, see(e.i))
    case StartFullResync(_) => d.(local := d.local.(cursor := 0), phase := Pulling(0, MAX_PULL_PAGES))
    case Decide(_, o, mine, now) => Decided(d, o, mine, now)
    case Restart(_) => d.(local := d.local.(opEntity := map[]), phase := Idle)
  }

  /** The batch a device now waits for is on the network, unless the server turns its shape down. */
  ghost function Sent(d: Dev): set<Op> {
    if d.phase.Pushing? && d.phase.left != [] && ValidBatch(d.phase.left[0]) then Elements(d.phase.left[0]) else {}
  }

  ghost function NewlyIssued(s: Sys, e: Event): seq<Op>
    requires Enabled(s, e)
  {
    if e.Edit? then [QueuedOp(s.devs[e.i].local, e.m, Issued(|s.issued|, e.text), e.now)] else []
  }

  ghost function WithAnswer(s: Sys, op: Op, r: Result): Sys { s.(answers := s.answers + {(op, r)}) }

  /** The duplicate check: a stamped operation is answered at once, any other goes on to its statements. */
  ghost function Begun(s: Sys, op: Op, env: Env): Sys {
    if !IsUuid(op.recordId) then WithAnswer(s, op, Refusal(op))
    else if op.opId in s.server.stamps then WithAnswer(s, op, FirstAnswer(s.server, op))
    else s.(inHand := s.inHand + multiset{Ticket(op, env)})
  }

  ghost function Completed(s: Sys, t: Ticket): Sys {
    var (server, r) := Processed(s.server, t.op, t.env);
    WithAnswer(s, t.op, r).(
      server := server, inHand := s.inHand - multiset{t},
      absent := s.absent + if OkOutcome(r.outcome) && t.op.opId !in server.stamps then {t.op} else {})
  }

  predicate OnDevice(e: Event) { !e.Begin? && !e.Complete? && !e.Elsewhere? }

  /** An event that cannot happen leaves the system as it is. */
  ghost function Next(s: Sys, e: Event, see: DeviceId -> Change -> bool): Sys {
    if !Enabled(s, e) then s
    else if e.Begin? then Begun(s, e.op, e.env)
    else if e.Complete? then Completed(s, e.t)
    else if e.Elsewhere? then s.(server := e.server)
    else
      var d := DeviceAfter(s, e, see);
      s.(devs := s.devs[e.i := d], wire := s.wire + Sent(d), issued := s.issued + NewlyIssued(s, e))
  }

  ghost function After(s: Sys, es: seq<Event>, see: DeviceId -> Change -> bool): Sys
    decreases es
  {
    if es == [] then s else After(Next(s, es[0], see), es[1..], see)
  }

  const FRESH: Dev := Dev(Device(map[], [], map[], 0, map[]), Idle, {}, {}, {}, [])

  ghost predicate Initial(s: Sys) {
    && s.server.stamps == map[] && s.server.effects == [] && Sound(FeedOf(s.server))
    && (forall i :: i in s.devs ==> s.devs[i] == FRESH)
    && s.issued == [] && s.wire == {} && s.inHand == multiset{} && s.answers == {} && s.absent == {}
  }

  /** Some run leads from a first state to `s`. */
  ghost predicate Reachable(s: Sys, see: DeviceId -> Change -> bool) {
    exists start, es :: Initial(start) && After(start, es, see) == s
  }
}
