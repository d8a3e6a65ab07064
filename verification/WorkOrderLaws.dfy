/** Work orders under any interleaving of users between reading an order and committing its move. */
module WorkOrderLaws {
  import opened Prelude
  import opened WorkOrders

  /** `tickets` are the requests that were checked and may commit, now, later or never; `arrived` holds the orders
      devices created, with the status each arrived in: the others were opened over REST. `moves` is history: the rows
      the service itself wrote into the log, which devices may add to and rewrite. */
  datatype Sys = Sys(desk: Desk, tickets: set<Ticket>, arrived: map<OrderId, State>, moves: seq<Entry>)

  datatype Event =
    | Open(id: OrderId, who: Session, requirePermit: bool, emergency: bool)
    | Arrive(id: OrderId, order: Order)
    | Look(id: OrderId, dto: Request, who: Session, now: int, permit: bool)
    | Commit(t: Ticket)
    | Touch(id: OrderId, order: Order)
    | PushRow(at: nat, row: Entry)
    | Rewrite(k: nat, at: nat, id: OrderId, from: Option<State>, to: Option<State>)

  predicate Kept<T(==)>(was: Option<T>, now: Option<T>) { was.Some? ==> now.Some? }

  /** What a pushed operation can insert: any status, but no approver, and nothing the table refuses. */
  predicate MayArrive(o: Order) { o.version == 1 && o.approver == None && RowOk(o) }

  /**
   Every other update of the row (labour hours, pushed edits, costs): the version goes up, status and approver stay,
   recorded times and a recorded cause are not blanked, and the table takes the row.
   */
  predicate OtherUpdate(was: Order, now: Order) {
    && now.version == was.version + 1 && now.status == was.status && now.approver == was.approver
    && Kept(was.actualStart, now.actualStart) && Kept(was.actualEnd, now.actualEnd)
       && (Given(was.rootCause) ==> Given(now.rootCause))
    && RowOk(now)
  }

  /** The service appends rows; what it appends is history too. */
  function Served(s: Sys, d: Desk): Sys {
    s.(desk := d, moves := s.moves + if |s.desk.log| <= |d.log| then d.log[|s.desk.log|..] else [])
  }

  function With(log: seq<Entry>, at: nat, row: Entry): seq<Entry>
    requires at <= |log|
  {
    log[..at] + [row] + log[at..]
  }

  function Less(log: seq<Entry>, k: nat): seq<Entry>
    requires k < |log|
  {
    log[..k] + log[k + 1..]
  }

  /** The log once row `k` has new values for the pushable columns; its time may be among them, so it may stand
      elsewhere. */
  function Rewritten(log: seq<Entry>, k: nat, at: nat, id: OrderId, from: Option<State>, to: Option<State>): seq<Entry>
    requires k < |log| && at < |log|
  {
    With(Less(log, k), at, log[k].(id := id, from := from, to := to))
  }

  /** A pushed log row, anywhere in the order of time, or new values for one that is there; it must name an order that
      exists. */
  function Pushed(d: Desk, e: Event): Desk {
    match e
    case PushRow(at, row) => if row.id in d.orders && at <= |d.log| then d.(log := With(d.log, at, row)) else d
    case Rewrite(k, at, id, from, to) =>
      if id in d.orders && k < |d.log| && at < |d.log| then d.(log := Rewritten(d.log, k, at, id, from, to)) else d
    case _ => d
  }

  predicate IsPush(e: Event) { e.PushRow? || e.Rewrite? }

  function Next(s: Sys, e: Event): Sys {
    match e
    case Open(id, who, requirePermit, emergency) => Served(s, Opened(s.desk, id, who, requirePermit, emergency))
    case Arrive(id, order) =>
      if id in s.desk.orders || !MayArrive(order) then s
      else s.(desk := s.desk.(orders := s.desk.orders[id := order]), arrived := s.arrived[id := order.status])
    case Look(id, dto, who, now, permit) =>
      var r := CheckRequest(s.desk, id, dto, who, now, permit);
      if r.Passed? then s.(tickets := s.tickets + {r.ticket}) else s
    case Commit(t) => if t in s.tickets then Served(s, Committed(s.desk, t)) else s
    case Touch(id, order) =>
      if id in s.desk.orders && OtherUpdate(s.desk.orders[id], order)
          then s.(desk := s.desk.(orders := s.desk.orders[id := order])) else s
    case _ => s.(desk := Pushed(s.desk, e))
  }

  function After(s: Sys, es: seq<Event>): Sys
    decreases es
  {
    if es == [] then s else After(Next(s, es[0]), es[1..])
  }

  const START: Sys := Sys(Desk(map[], []), {}, map[], [])

  // ---- the optimistic lock ----

  /** Versions never go back, and an equal version means an equal row. */
  ghost predicate Snapshot(d: Desk, id: OrderId, o: Order) {
    && id in d.orders && o.version <= d.orders[id].version
    && (o.version == d.orders[id].version ==> d.orders[id] == o)
  }

  /** What a request was checked for. */
  ghost predicate Justified(t: Ticket) {
    && CanTransition(t.order.status, t.dto.to, t.who.perms).Some?
    && FirstMissing(CanTransition(t.order.status, t.dto.to, t.who.perms).value.needs, t.dto) == None
    && (t.dto.to == InProgress && NeedsPermit(t.order) ==> t.permitSeen)
  }

  ghost predicate Locked(s: Sys) { forall t :: t in s.tickets ==> Snapshot(s.desk, t.id, t.order) && Justified(t) }

  lemma {:induction false} SnapshotStep(s: Sys, e: Event, id: OrderId, o: Order)
    requires Locked(s) && Snapshot(s.desk, id, o)
    ensures Snapshot(Next(s, e).desk, id, o)
  {}

  lemma {:induction false} NextLocked(s: Sys, e: Event)
    requires Locked(s)
    ensures Locked(Next(s, e))
  {
    forall t | t in Next(s, e).tickets ensures Snapshot(Next(s, e).desk, t.id, t.order) && Justified(t) {
      if t in s.tickets { SnapshotStep(s, e, t.id, t.order); }
    }
  }

  /** Row updates of one order along a run. */
  predicate Updates(s: Sys, e: Event, id: OrderId) {
    || (e.Commit? && e.t.id == id && e.t in s.tickets && CommitResult(s.desk, e.t) == Applied)
    || (e.Touch? && e.id == id && id in s.desk.orders && OtherUpdate(s.desk.orders[id], e.order))
  }

  function UpdateCount(s: Sys, es: seq<Event>, id: OrderId): nat
    decreases es
  {
    if es == [] then 0 else (if Updates(s, es[0], id) then 1 else 0) + UpdateCount(Next(s, es[0]), es[1..], id)
  }

  lemma {:induction false} VersionCountsUpdates(s: Sys, es: seq<Event>, id: OrderId)
    requires Locked(s) && id in s.desk.orders
    ensures id in After(s, es).desk.orders
    ensures After(s, es).desk.orders[id].version == s.desk.orders[id].version + UpdateCount(s, es, id)
    ensures UpdateCount(s, es, id) == 0 ==> After(s, es).desk.orders[id] == s.desk.orders[id]
    decreases es
  {
    if es != [] {
      NextLocked(s, es[0]);
      VersionCountsUpdates(Next(s, es[0]), es[1..], id);
    }
  }

  /** The times a move would leave break the table's CHECK: a start after the recorded end, or an end before the
      recorded start. */
  predicate BreaksTimes(t: Ticket) {
    || (t.dto.to == InProgress && !InOrder(OrElse(t.dto.actualStart, Some(t.now)), t.order.actualEnd))
    || (t.dto.to in {Completed, Closed} && !InOrder(t.order.actualStart, OrElse(t.dto.actualEnd, Some(t.now))))
  }

  lemma {:induction false} ProposedOkIff(d: Desk, t: Ticket)
    requires Justified(t) && t.id in d.orders && RowOk(t.order)
    ensures RowOk(Proposed(d, t)) <==> !BreaksTimes(t)
  {
    if t.dto.to == Closed { OnlyCompletedCloses(t.order.status, t.who.perms); }
  }

  /**
   No lost update: a checked request is applied exactly when nothing updated the order since it was read and its times
   are in order, and then to that very row; what an update came before is stale, and what breaks the times is refused.
   */
  lemma {:induction false} CommitAppliesIff(s: Sys, es: seq<Event>, t: Ticket)
    requires Locked(s) && t in s.tickets && t.id in s.desk.orders && t.order == s.desk.orders[t.id] && RowOk(t.order)
    ensures var d := After(s, es).desk;
            && (CommitResult(d, t) == Stale <==> UpdateCount(s, es, t.id) > 0)
            && (CommitResult(d, t) == Applied <==> UpdateCount(s, es, t.id) == 0 && !BreaksTimes(t))
            && (CommitResult(d, t) == Applied ==>
               d.orders[t.id] == t.order && Committed(d, t).orders[t.id] == Moved(t.order, t.dto, t.who, t.now))
  {
    VersionCountsUpdates(s, es, t.id);
    ProposedOkIff(After(s, es).desk, t);
  }

  // ---- the log is the order's path ----

  /** A row that records a step of the order, as against a note. */
  predicate IsStep(e: Entry, id: OrderId) { e.id == id && (e.from.Some? || e.to.Some?) }

  function StepOf(e: Entry, id: OrderId): seq<Entry> { if IsStep(e, id) then [e] else [] }

  /** The steps of one order in a log. */
  function EntriesOf(log: seq<Entry>, id: OrderId): seq<Entry> {
    if log == [] then [] else EntriesOf(log[..|log| - 1], id) + StepOf(log[|log| - 1], id)
  }

  /** The states they lead to. */
  function PathOf(es: seq<Entry>): seq<State> {
    if es == [] then []
    else PathOf(es[..|es| - 1]) + (if es[|es| - 1].to.Some? then [es[|es| - 1].to.value] else [])
  }

  /** Where a path that began in `origin` (`None` before anything happened) has led. */
  function EndOf(origin: Option<State>, es: seq<Entry>): Option<State> { if es == [] then origin else es[|es| - 1].to }

  /** The order is opened as a draft, or moved along an edge its mover was permitted, with a permit where one is
      required. */
  predicate GoodStep(e: Entry) {
    && e.to.Some?
    && (e.from.None? ==> e.to.value == Draft)
    && (e.from.Some? ==> CanTransition(e.from.value, e.to.value, e.who.perms).Some?)
    && (e.to.value == InProgress && e.needsPermit ==> e.permitSeen)
  }

  /** Every step leaves the state the step before reached, for another one. */
  ghost predicate Linked(origin: Option<State>, es: seq<Entry>) {
    && (es != [] ==> es[0].from == origin)
    && (forall k :: 0 <= k < |es| ==> es[k].from != es[k].to)
    && (forall j, k :: 0 <= j && j + 1 == k < |es| ==> es[k].from == es[j].to)
  }

  ghost predicate AllGood(es: seq<Entry>) { forall k :: 0 <= k < |es| ==> GoodStep(es[k]) }

  ghost predicate Connected(origin: Option<State>, es: seq<Entry>) { Linked(origin, es) && AllGood(es) }

  // ---- milestones ----

  const MILESTONES: seq<State> := [Submitted, Approved, Assigned, InProgress, Completed]

  /** The path visits the first `n` milestones in their order. */
  ghost predicate Visited(path: seq<State>, n: nat)
    requires n <= 5
  {
    exists at: seq<nat> :: |at| == n && (forall k :: 0 <= k < n ==> at[k] < |path| && path[at[k]] == MILESTONES[k])
                           && forall j, k :: 0 <= j < k < n ==> at[j] < at[k]
  }

  /** How many milestones an order in this state has certainly passed. */
  function Guaranteed(s: State): (n: nat)
    ensures n <= 5
  {
    match s
    case Draft => 0
    case Cancelled => 0
    case Rejected => 0
    case Submitted => 1
    case Approved => 2
    case Assigned => 3
    case OnHold => 3
    case AwaitingParts => 3
    case AwaitingPermit => 3
    case InProgress => 4
    case Completed => 5
    case Closed => 5
  }

  lemma {:induction false} EdgeGuarantee(from: State, to: State, perms: set<string>)
    requires CanTransition(from, to, perms).Some?
    ensures || Guaranteed(to) <= Guaranteed(from)
            || (Guaranteed(to) == Guaranteed(from) + 1 && to == MILESTONES[Guaranteed(from)])
  {
    FoundInTable(TransitionsFrom(from), to);
  }

  lemma {:induction false} VisitedFewer(path: seq<State>, n: nat, m: nat)
    requires m <= n <= 5 && Visited(path, n)
    ensures Visited(path, m)
  {
    var at: seq<nat> :| |at| == n && (forall k :: 0 <= k < n ==> at[k] < |path| && path[at[k]] == MILESTONES[k])
                        && forall j, k :: 0 <= j < k < n ==> at[j] < at[k];
    assert |at[..m]| == m;
  }

  lemma {:induction false} VisitedStep(path: seq<State>, n: nat, to: State)
    requires n <= 5 && Visited(path, n)
    ensures Visited(path + [to], n)
    ensures n < 5 && to == MILESTONES[n] ==> Visited(path + [to], n + 1)
  {
    var at: seq<nat> :| |at| == n && (forall k :: 0 <= k < n ==> at[k] < |path| && path[at[k]] == MILESTONES[k])
                        && forall j, k :: 0 <= j < k < n ==> at[j] < at[k];
    assert forall k :: 0 <= k < n ==> (path + [to])[at[k]] == MILESTONES[k];
    if n < 5 && to == MILESTONES[n] {
      var more: seq<nat> := at + [|path|];
      assert forall k :: 0 <= k < n + 1 ==> more[k] < |path + [to]| && (path + [to])[more[k]] == MILESTONES[k];
    }
  }

  // ---- what every run keeps ----

  /** The fields a state vouches for. */
  ghost predicate FieldsHeld(o: Order) {
    && (Guaranteed(o.status) >= 2 ==> o.approver.Some?)
    && (Guaranteed(o.status) >= 4 ==> o.actualStart.Some?)
    && (Guaranteed(o.status) >= 5 ==> o.actualEnd.Some?)
    && (o.status == Closed ==> Given(o.rootCause))
  }

  /** Opened over REST, or arrived as DRAFT, SUBMITTED, CANCELLED or REJECTED. */
  predicate Early(origin: Option<State>) { origin.Some? ==> Guaranteed(origin.value) <= 1 }

  function OriginOf(s: Sys, id: OrderId): Option<State> { Lookup(s.arrived, id) }

  /** The states an order has been in: the one it arrived in, then those its steps led to. */
  function Visits(origin: Option<State>, es: seq<Entry>): seq<State> {
    (if origin.Some? then [origin.value] else []) + PathOf(es)
  }

  /** The steps are a path from the origin to the status. */
  ghost predicate Led(d: Desk, origin: Option<State>, id: OrderId)
    requires id in d.orders
  {
    Connected(origin, EntriesOf(d.log, id)) && EndOf(origin, EntriesOf(d.log, id)) == Some(d.orders[id].status)
  }

  ghost predicate Vouched(d: Desk, origin: Option<State>, id: OrderId)
    requires id in d.orders
  {
    Early(origin) ==>
      && FieldsHeld(d.orders[id])
      && Visited(Visits(origin, EntriesOf(d.log, id)), Guaranteed(d.orders[id].status))
  }

  ghost predicate Traced(d: Desk, origin: Option<State>, id: OrderId) {
    id in d.orders && RowOk(d.orders[id]) && Led(d, origin, id) && Vouched(d, origin, id)
  }

  /** The orders together with what really happened to them. */
  function Told(s: Sys): Desk { Desk(s.desk.orders, s.moves) }

  predicate NamesOrders(d: Desk) { forall k :: 0 <= k < |d.log| ==> d.log[k].id in d.orders }

  ghost predicate Orderly(s: Sys) {
    && Locked(s)
    && (forall id :: id in s.desk.orders ==> Traced(Told(s), OriginOf(s, id), id))
    && (forall id :: id in s.arrived ==> id in s.desk.orders)
    && NamesOrders(s.desk) && NamesOrders(Told(s))
  }

  lemma {:induction false} EntriesAppend(log: seq<Entry>, e: Entry, id: OrderId)
    ensures EntriesOf(log + [e], id) == EntriesOf(log, id) + StepOf(e, id)
    ensures !IsStep(e, id) ==> EntriesOf(log + [e], id) == EntriesOf(log, id)
  {
    assert (log + [e])[..|log|] == log;
  }

  lemma {:induction false} NoEntries(log: seq<Entry>, id: OrderId)
    requires forall k :: 0 <= k < |log| ==> log[k].id != id
    ensures EntriesOf(log, id) == []
  {
    if log != [] { NoEntries(log[..|log| - 1], id); }
  }

  lemma {:induction false} FoundInTable(ts: seq<Transition>, to: State)
    ensures Find(ts, to).Some? ==> exists i :: 0 <= i < |ts| && ts[i] == Find(ts, to).value && ts[i].to == to
  {
    if ts != [] {
      FoundInTable(ts[1..], to);
      if ts[0].to != to && Find(ts[1..], to).Some? {
        var i :| 0 <= i < |ts[1..]| && ts[1..][i] == Find(ts[1..], to).value && ts[1..][i].to == to;
        assert ts[i + 1] == ts[1..][i];
      }
    }
  }

  lemma {:induction false} OnlyCompletedCloses(from: State, perms: set<string>)
    requires CanTransition(from, Closed, perms).Some?
    ensures from == Completed && CanTransition(from, Closed, perms).value.needs == [ActualTimes, RootCause]
  {
    FoundInTable(TransitionsFrom(from), Closed);
  }

  lemma {:induction false} ClosingGivesCause(dto: Request)
    requires FirstMissing([ActualTimes, RootCause], dto) == None && dto.to == Closed
    ensures Given(dto.rootCause)
  {
    assert [ActualTimes, RootCause][1..] == [RootCause];
    assert FirstMissing([RootCause], dto) == None;
  }

  lemma {:induction false} MovedHoldsFields(t: Ticket)
    requires Justified(t) && FieldsHeld(t.order)
    ensures FieldsHeld(Moved(t.order, t.dto, t.who, t.now))
  {
    EdgeGuarantee(t.order.status, t.dto.to, t.who.perms);
    if t.dto.to == Closed {
      OnlyCompletedCloses(t.order.status, t.who.perms);
      ClosingGivesCause(t.dto);
    }
  }

  lemma {:induction false} PathStep(path: seq<State>, from: State, to: State, perms: set<string>)
    requires Visited(path, Guaranteed(from)) && CanTransition(from, to, perms).Some?
    ensures Visited(path + [to], Guaranteed(to))
  {
    EdgeGuarantee(from, to, perms);
    VisitedStep(path, Guaranteed(from), to);
    if Guaranteed(to) <= Guaranteed(from) { VisitedFewer(path + [to], Guaranteed(from), Guaranteed(to)); }
  }

  lemma {:induction false} LinkedAppend(origin: Option<State>, es: seq<Entry>, e: Entry)
    ensures Linked(origin, es + [e]) <==> Linked(origin, es) && e.from == EndOf(origin, es) && e.from != e.to
    ensures EndOf(origin, es + [e]) == e.to
  {
    var all := es + [e];
    assert forall k :: 0 <= k < |es| ==> all[k] == es[k];
    assert all[|es|] == e;
  }

  lemma {:induction false} NoStepStays(e: Entry)
    requires GoodStep(e)
    ensures e.from != e.to
  {
    if e.from == e.to { FoundInTable(TransitionsFrom(e.from.value), e.from.value); }
  }

  lemma {:induction false} ConnectedAppend(origin: Option<State>, es: seq<Entry>, e: Entry)
    ensures Connected(origin, es + [e]) <==> Connected(origin, es) && e.from == EndOf(origin, es) && GoodStep(e)
    ensures EndOf(origin, es + [e]) == e.to
  {
    LinkedAppend(origin, es, e);
    var all := es + [e];
    assert forall k :: 0 <= k < |es| ==> all[k] == es[k];
    assert all[|es|] == e;
    if GoodStep(e) { NoStepStays(e); }
  }

  function MoveRow(t: Ticket): Entry {
    Entry(t.id, Some(t.order.status), Some(t.dto.to), t.who, NeedsPermit(t.order), t.permitSeen)
  }

  lemma {:induction false} CommitLed(d: Desk, origin: Option<State>, t: Ticket)
    requires t.id in d.orders && Led(d, origin, t.id) && Justified(t) && CommitResult(d, t) == Applied
    requires d.orders[t.id] == t.order
    ensures t.id in Committed(d, t).orders && Led(Committed(d, t), origin, t.id)
  {
    EntriesAppend(d.log, MoveRow(t), t.id);
    ConnectedAppend(origin, EntriesOf(d.log, t.id), MoveRow(t));
  }

  lemma {:induction false} VisitsAppend(origin: Option<State>, es: seq<Entry>, e: Entry)
    requires e.to.Some?
    ensures Visits(origin, es + [e]) == Visits(origin, es) + [e.to.value]
  {
    assert (es + [e])[..|es|] == es;
  }

  lemma {:induction false} MovedVouched(path: seq<State>, t: Ticket)
    requires Justified(t) && FieldsHeld(t.order) && Visited(path, Guaranteed(t.order.status))
    ensures FieldsHeld(Moved(t.order, t.dto, t.who, t.now)) && Visited(path + [t.dto.to], Guaranteed(t.dto.to))
  {
    MovedHoldsFields(t);
    PathStep(path, t.order.status, t.dto.to, t.who.perms);
  }

  lemma {:induction false} CommitVouched(d: Desk, origin: Option<State>, t: Ticket)
    requires t.id in d.orders && Vouched(d, origin, t.id) && Justified(t) && CommitResult(d, t) == Applied
    requires d.orders[t.id] == t.order
    ensures t.id in Committed(d, t).orders && Vouched(Committed(d, t), origin, t.id)
  {
    EntriesAppend(d.log, MoveRow(t), t.id);
    VisitsAppend(origin, EntriesOf(d.log, t.id), MoveRow(t));
    if Early(origin) { MovedVouched(Visits(origin, EntriesOf(d.log, t.id)), t); }
  }

  lemma {:induction false} CommitTraced(d: Desk, origin: Option<State>, t: Ticket)
    requires Traced(d, origin, t.id) && Justified(t) && CommitResult(d, t) == Applied && d.orders[t.id] == t.order
    ensures Traced(Committed(d, t), origin, t.id)
  {
    CommitLed(d, origin, t);
    CommitVouched(d, origin, t);
  }

  /** What happens to other orders, and updates that move nothing, leave an order traced. */
  lemma {:induction false} TracedElsewhere(d: Desk, f: Desk, origin: Option<State>, id: OrderId)
    requires Traced(d, origin, id) && id in f.orders
    requires f.orders[id] == d.orders[id] || OtherUpdate(d.orders[id], f.orders[id])
    requires EntriesOf(f.log, id) == EntriesOf(d.log, id)
    ensures Traced(f, origin, id)
  {}

  lemma {:induction false} NothingVisited(path: seq<State>)
    ensures Visited(path, 0)
  {
    var none: seq<nat> := [];
    assert |none| == 0;
  }

  lemma {:induction false} FirstEntry(log: seq<Entry>, e: Entry)
    requires EntriesOf(log, e.id) == [] && IsStep(e, e.id)
    ensures EntriesOf(log + [e], e.id) == [e]
  {
    EntriesAppend(log, e, e.id);
  }

  lemma {:induction false} FirstStep(id: OrderId, who: Session)
    ensures var e := Entry(id, None, Some(Draft), who, false, false);
            Connected(None, [e]) && EndOf(None, [e]) == Some(Draft) && Visited(Visits(None, [e]), 0)
  {
    var e := Entry(id, None, Some(Draft), who, false, false);
    assert [] + [e] == [e];
    ConnectedAppend(None, [], e);
    NothingVisited(Visits(None, [e]));
  }

  lemma {:induction false} OpenedTraced(d: Desk, id: OrderId, who: Session, requirePermit: bool, emergency: bool)
    requires MayCreate(d, id, who, requirePermit) && EntriesOf(d.log, id) == []
    ensures Traced(Opened(d, id, who, requirePermit, emergency), None, id)
  {
    FirstEntry(d.log, Entry(id, None, Some(Draft), who, false, false));
    FirstStep(id, who);
  }

  lemma {:induction false} ArrivalVisited(status: State)
    requires Early(Some(status))
    ensures Visited(Visits(Some(status), []), Guaranteed(status))
  {
    var path := Visits(Some(status), []);
    assert path == [status];
    NothingVisited(path);
    if status == Submitted {
      var at: seq<nat> := [0];
      assert |at| == 1 && forall k :: 0 <= k < 1 ==> at[k] < |path| && path[at[k]] == MILESTONES[k];
    }
  }

  lemma {:induction false} ArrivedTraced(d: Desk, id: OrderId, order: Order)
    requires MayArrive(order) && EntriesOf(d.log, id) == []
    ensures Traced(d.(orders := d.orders[id := order]), Some(order.status), id)
  {
    if Early(Some(order.status)) { ArrivalVisited(order.status); }
  }

  lemma {:induction false} OtherOpened(d: Desk, origin: Option<State>, id: OrderId, new': OrderId, who: Session,
                                       requirePermit: bool, emergency: bool)
    requires Traced(d, origin, id) && id != new'
    ensures Traced(Opened(d, new', who, requirePermit, emergency), origin, id)
  {
    EntriesAppend(d.log, Entry(new', None, Some(Draft), who, false, false), id);
    TracedElsewhere(d, Opened(d, new', who, requirePermit, emergency), origin, id);
  }

  lemma {:induction false} OtherCommitted(d: Desk, origin: Option<State>, id: OrderId, t: Ticket)
    requires Traced(d, origin, id) && (id != t.id || CommitResult(d, t) != Applied)
    ensures Traced(Committed(d, t), origin, id)
  {
    EntriesAppend(d.log, MoveRow(t), id);
    TracedElsewhere(d, Committed(d, t), origin, id);
  }

  /** The service's own events do to the true history what they do to the log. */
  lemma {:induction false} ToldFollows(s: Sys, e: Event)
    ensures e.Open? ==> Told(Next(s, e)) == Opened(Told(s), e.id, e.who, e.requirePermit, e.emergency)
    ensures e.Commit? && e.t in s.tickets ==> Told(Next(s, e)) == Committed(Told(s), e.t)
    ensures !e.Open? && !e.Commit? ==> Next(s, e).moves == s.moves
  {}

  lemma {:induction false} OpenTraced(s: Sys, id: OrderId, e: Event)
    requires Orderly(s) && e.Open? && id in Next(s, e).desk.orders
    ensures Traced(Opened(Told(s), e.id, e.who, e.requirePermit, e.emergency), OriginOf(s, id), id)
  {
    var d := Told(s);
    if id in s.desk.orders {
      if MayCreate(d, e.id, e.who, e.requirePermit) {
        OtherOpened(d, OriginOf(s, id), id, e.id, e.who, e.requirePermit, e.emergency);
      }
    } else {
      NoEntries(d.log, id);
      OpenedTraced(d, id, e.who, e.requirePermit, e.emergency);
    }
  }

  lemma {:induction false} ArriveTraced(s: Sys, id: OrderId, e: Event)
    requires Orderly(s) && e.Arrive? && id in Next(s, e).desk.orders
    ensures Traced(Told(Next(s, e)), OriginOf(Next(s, e), id), id)
  {
    if id in s.desk.orders {
      TracedElsewhere(Told(s), Told(Next(s, e)), OriginOf(s, id), id);
    } else {
      NoEntries(s.moves, id);
      ArrivedTraced(Told(s), id, e.order);
    }
  }

  lemma {:induction false} CommitEventTraced(s: Sys, id: OrderId, t: Ticket)
    requires Orderly(s) && t in s.tickets && id in s.desk.orders
    ensures Traced(Committed(Told(s), t), OriginOf(s, id), id)
  {
    if t.id == id && CommitResult(Told(s), t) == Applied {
      CommitTraced(Told(s), OriginOf(s, id), t);
    } else {
      OtherCommitted(Told(s), OriginOf(s, id), id, t);
    }
  }

  lemma {:induction false} TouchTraced(s: Sys, id: OrderId, e: Event)
    requires Traced(Told(s), OriginOf(s, id), id) && e.Touch?
    ensures Traced(Told(Next(s, e)), OriginOf(s, id), id)
  {
    TracedElsewhere(Told(s), Told(Next(s, e)), OriginOf(s, id), id);
  }

  /** Checks and pushed log rows change neither orders nor history. */
  lemma {:induction false} QuietEvents(s: Sys, e: Event)
    requires e.Look? || IsPush(e)
    ensures Told(Next(s, e)) == Told(s) && Next(s, e).arrived == s.arrived
  {}

  lemma {:induction false} NextTraced(s: Sys, e: Event, id: OrderId)
    requires Orderly(s) && id in Next(s, e).desk.orders
    ensures Traced(Told(Next(s, e)), OriginOf(Next(s, e), id), id)
  {
    ToldFollows(s, e);
    if e.Open? {
      OpenTraced(s, id, e);
    } else if e.Arrive? {
      ArriveTraced(s, id, e);
    } else if e.Touch? {
      TouchTraced(s, id, e);
    } else if e.Look? || IsPush(e) {
      QuietEvents(s, e);
    } else if e.t in s.tickets {
      CommitEventTraced(s, id, e.t);
    }
  }

  lemma {:induction false} OrdersStay(s: Sys, e: Event)
    ensures s.desk.orders.Keys <= Next(s, e).desk.orders.Keys
    ensures forall id :: id in Next(s, e).arrived ==> id in s.arrived || id in Next(s, e).desk.orders
  {}

  lemma {:induction false} MoreOrders(d: Desk, f: Desk)
    requires NamesOrders(d) && d.orders.Keys <= f.orders.Keys && d.log <= f.log
    requires forall k :: |d.log| <= k < |f.log| ==> f.log[k].id in f.orders
    ensures NamesOrders(f)
  {
    forall k | 0 <= k < |f.log| ensures f.log[k].id in f.orders {
      if k < |d.log| { assert f.log[k] == d.log[k]; }
    }
  }

  lemma {:induction false} PushNamesOrders(d: Desk, e: Event)
    requires NamesOrders(d)
    ensures NamesOrders(Pushed(d, e))
  {
    match e
    case PushRow(at, row) =>
    case Rewrite(k, at, id, from, to) =>
      if id in d.orders && k < |d.log| && at < |d.log| {
        var rest := Less(d.log, k);
        forall j | 0 <= j < |rest| ensures rest[j].id in d.orders {
          assert rest[j] == if j < k then d.log[j] else d.log[j + 1];
        }
      }
    case _ =>
  }

  lemma {:induction false} LogNamesOrders(s: Sys, e: Event)
    requires NamesOrders(s.desk) && NamesOrders(Told(s))
    ensures NamesOrders(Next(s, e).desk) && NamesOrders(Told(Next(s, e)))
  {
    OrdersStay(s, e);
    if IsPush(e) {
      PushNamesOrders(s.desk, e);
    } else {
      MoreOrders(s.desk, Next(s, e).desk);
      MoreOrders(Told(s), Told(Next(s, e)));
    }
  }

  lemma {:induction false} NextOrderly(s: Sys, e: Event)
    requires Orderly(s)
    ensures Orderly(Next(s, e))
  {
    NextLocked(s, e);
    OrdersStay(s, e);
    LogNamesOrders(s, e);
    forall id | id in Next(s, e).desk.orders ensures Traced(Told(Next(s, e)), OriginOf(Next(s, e), id), id) {
      NextTraced(s, e, id);
    }
  }

  lemma {:induction false} AlwaysOrderly(s: Sys, es: seq<Event>)
    requires Orderly(s)
    ensures Orderly(After(s, es))
    decreases es
  {
    if es != [] {
      NextOrderly(s, es[0]);
      AlwaysOrderly(Next(s, es[0]), es[1..]);
    }
  }

  lemma {:induction false} ReachableTraced(es: seq<Event>, id: OrderId)
    requires id in After(START, es).desk.orders
    ensures Traced(Told(After(START, es)), OriginOf(After(START, es), id), id)
  {
    AlwaysOrderly(START, es);
  }

  /** In every run the moves of every order are a connected, permitted path from where it began (from nothing to DRAFT
      over REST, from the status it arrived in otherwise) to its current status, and the table's CHECKs hold of its
      row. */
  lemma {:induction false} MovesArePath(es: seq<Event>, id: OrderId)
    requires id in After(START, es).desk.orders
    ensures var s := After(START, es);
            && Connected(OriginOf(s, id), EntriesOf(s.moves, id))
            && EndOf(OriginOf(s, id), EntriesOf(s.moves, id)) == Some(s.desk.orders[id].status)
            && RowOk(s.desk.orders[id])
  {
    ReachableTraced(es, id);
  }

  /** Passed all milestones in order, and holds its approver, its root cause and both times, in order. */
  ghost predicate Complete(s: Sys, id: OrderId)
    requires id in s.desk.orders
  {
    var o := s.desk.orders[id];
    && Visited(Visits(OriginOf(s, id), EntriesOf(s.moves, id)), 5)
    && o.approver.Some? && Given(o.rootCause) && o.actualStart.Some? && o.actualEnd.Some?
       && o.actualStart.value <= o.actualEnd.value
  }

  /** A closed order is complete if it was opened over REST or arrived as DRAFT, SUBMITTED, CANCELLED or REJECTED. */
  lemma {:induction false} ClosedOrderIsComplete(es: seq<Event>, id: OrderId)
    requires id in After(START, es).desk.orders && After(START, es).desk.orders[id].status == Closed
    requires Early(OriginOf(After(START, es), id))
    ensures Complete(After(START, es), id)
  {
    ReachableTraced(es, id);
  }

  // ---- finished orders that are reopened ----

  lemma {:induction false} ReopenedOkIff(d: Desk, t: Ticket)
    requires Current(d, t) && t.order == d.orders[t.id] && t.dto.to == InProgress && t.order.actualEnd.Some?
    ensures CommitResult(d, t) == Applied <==>
            (if t.dto.actualStart.Some? then t.dto.actualStart.value else t.now) <= t.order.actualEnd.value
  {}

  lemma {:induction false} FinishedHasEnd(d: Desk, origin: Option<State>, id: OrderId)
    requires Traced(d, origin, id) && Early(origin) && d.orders[id].status in {Completed, Closed}
    ensures d.orders[id].actualEnd.Some?
  {
    assert Guaranteed(d.orders[id].status) == 5;
  }

  /** Reopening a finished order works exactly when its new start is not after its recorded end: without a start time
      in the request only while that end is still to come. */
  lemma {:induction false} ReopeningWorksIff(es: seq<Event>, id: OrderId, dto: Request, who: Session, now: int,
                                             permit: bool)
    requires id in After(START, es).desk.orders && After(START, es).desk.orders[id].status in {Completed, Closed}
    requires Early(OriginOf(After(START, es), id)) && dto.to == InProgress
    requires CheckRequest(After(START, es).desk, id, dto, who, now, permit).Passed?
    ensures var d := After(START, es).desk;
            && d.orders[id].actualEnd.Some?
            && (CommitResult(d, CheckRequest(d, id, dto, who, now, permit).ticket) == Applied <==>
                (if dto.actualStart.Some? then dto.actualStart.value else now) <= d.orders[id].actualEnd.value)
  {
    var d := After(START, es).desk;
    ReachableTraced(es, id);
    FinishedHasEnd(Told(After(START, es)), OriginOf(After(START, es), id), id);
    ReopenedOkIff(d, Ticket(id, d.orders[id], dto, who, now, permit));
  }

  // ---- runs of one user ----

  lemma {:induction false} AfterAppend(s: Sys, a: seq<Event>, b: seq<Event>)
    ensures After(s, a + b) == After(After(s, a), b)
    decreases a
  {
    if a == [] {
      assert a + b == b;
    } else {
      assert (a + b)[1..] == a[1..] + b;
      AfterAppend(Next(s, a[0]), a[1..], b);
    }
  }

  const MASTER: Session :=
    Session("u", {"maint.wo.create", "maint.wo.assign", "maint.wo.execute", "maint.wo.close", "maint.permit.approve"})

  function AskFor(to: State): Request { Request(to, Some("r"), Some(0), Some(0), Some("c"), None) }

  /** No time but zero. */
  predicate AtZero(o: Order) { o.actualStart in {None, Some(0)} && o.actualEnd in {None, Some(0)} }

  lemma {:induction false} NothingMissing(needs: seq<Need>, dto: Request)
    requires Given(dto.reason) && Given(dto.rootCause) && dto.actualStart.Some?
    ensures FirstMissing(needs, dto) == None
  {
    if needs != [] { NothingMissing(needs[1..], dto); }
  }

  /** The user reads the order and moves it. */
  lemma {:induction false} OneStep(s: Sys, id: OrderId, to: State) returns (es: seq<Event>)
    requires id in s.desk.orders && AtZero(s.desk.orders[id])
    requires CanTransition(s.desk.orders[id].status, to, MASTER.perms).Some?
    ensures var t := After(s, es);
            && id in t.desk.orders && t.desk.orders[id] == Moved(s.desk.orders[id], AskFor(to), MASTER, 0)
               && t.arrived == s.arrived
  {
    var o, dto := s.desk.orders[id], AskFor(to);
    NothingMissing(CanTransition(o.status, to, MASTER.perms).value.needs, dto);
    var look, commit := Look(id, dto, MASTER, 0, true), Commit(Ticket(id, o, dto, MASTER, 0, true));
    es := [look, commit];
    var t := Next(s, look);
    assert t.desk == s.desk && commit.t in t.tickets;
    assert Proposed(t.desk, commit.t) == Moved(o, dto, MASTER, 0);
    assert After(s, es) == After(t, es[1..]) == After(Next(t, commit), es[1..][1..]);
  }

  predicate Walkable(from: State, path: seq<State>)
    decreases path
  {
    path == [] || (CanTransition(from, path[0], MASTER.perms).Some? && Walkable(path[0], path[1..]))
  }

  /** A whole list of moves. */
  lemma {:induction false} Steps(s: Sys, id: OrderId, path: seq<State>) returns (es: seq<Event>)
    requires id in s.desk.orders && AtZero(s.desk.orders[id]) && path != [] && Walkable(s.desk.orders[id].status, path)
    ensures var t := After(s, es);
            && id in t.desk.orders && t.desk.orders[id].status == path[|path| - 1] && t.arrived == s.arrived
            && (path[|path| - 1] == Completed ==> t.desk.orders[id].actualEnd == Some(0))
    decreases path
  {
    es := OneStep(s, id, path[0]);
    if |path| > 1 {
      var rest := Steps(After(s, es), id, path[1..]);
      AfterAppend(s, es, rest);
      es := es + rest;
    }
  }

  lemma {:induction false} CompletionIsWalkable()
    ensures Walkable(Draft, TO_COMPLETED)
  {
    assert TO_COMPLETED[1..] == [Approved, Assigned, InProgress, Completed];
    assert TO_COMPLETED[1..][1..] == [Assigned, InProgress, Completed];
    assert TO_COMPLETED[1..][1..][1..] == [InProgress, Completed];
    assert TO_COMPLETED[1..][1..][1..][1..] == [Completed];
    assert Walkable(InProgress, [Completed]) by { assert [Completed][1..] == []; }
    assert Walkable(Assigned, [InProgress, Completed]);
    assert Walkable(Approved, [Assigned, InProgress, Completed]);
    assert Walkable(Submitted, [Approved, Assigned, InProgress, Completed]);
  }

  const TO_COMPLETED: seq<State> := [Submitted, Approved, Assigned, InProgress, Completed]

  lemma {:induction false} CompletedRun(id: OrderId) returns (es: seq<Event>)
    ensures var s := After(START, es);
            && id in s.desk.orders && s.desk.orders[id].status == Completed && s.desk.orders[id].actualEnd == Some(0)
            && s.arrived == map[]
  {
    var open := Open(id, MASTER, false, false);
    assert After(START, [open]) == After(Next(START, open), [open][1..]) == Next(START, open);
    CompletionIsWalkable();
    var rest := Steps(Next(START, open), id, TO_COMPLETED);
    es := [open] + rest;
    AfterAppend(START, [open], rest);
  }

  /** It happens: an order completed at time 0 passes every check at time 1 and is not reopened. */
  lemma {:induction false} ReopeningMayFail(id: OrderId) returns (es: seq<Event>)
    ensures var d, dto := After(START, es).desk, Request(InProgress, Some("r"), None, None, None, None);
            && id in d.orders && d.orders[id].status == Completed && CheckRequest(d, id, dto, MASTER, 1, true).Passed?
            && CommitResult(d, CheckRequest(d, id, dto, MASTER, 1, true).ticket) == Refused
  {
    es := CompletedRun(id);
  }

  // ---- orders that arrive further along ----

  /** The next state on the way to CLOSED, past approval. */
  function Onward(s: State): State
    requires Guaranteed(s) >= 2 && s != Closed
  {
    match s
    case Approved => Assigned
    case InProgress => Completed
    case Completed => Closed
    case _ => InProgress
  }

  /** No approver, and no time but zero. */
  predicate Bare(o: Order) { o.approver == None && AtZero(o) }

  function StepsToClose(s: State): nat {
    match s
    case Approved => 4
    case InProgress => 2
    case Completed => 1
    case Closed => 0
    case _ => 3
  }

  lemma {:induction false} OneStepOnward(s: Sys, id: OrderId) returns (es: seq<Event>)
    requires id in s.desk.orders && Bare(s.desk.orders[id])
    requires Guaranteed(s.desk.orders[id].status) >= 2 && s.desk.orders[id].status != Closed
    ensures var t := After(s, es); id in t.desk.orders && Bare(t.desk.orders[id]) && t.arrived == s.arrived
    ensures After(s, es).desk.orders[id].status == Onward(s.desk.orders[id].status)
  {
    es := OneStep(s, id, Onward(s.desk.orders[id].status));
  }

  lemma {:induction false} OnwardToClosed(s: Sys, id: OrderId) returns (es: seq<Event>)
    requires id in s.desk.orders && Bare(s.desk.orders[id]) && Guaranteed(s.desk.orders[id].status) >= 2
    ensures var t := After(s, es);
            && id in t.desk.orders && Bare(t.desk.orders[id]) && t.desk.orders[id].status == Closed
            && t.arrived == s.arrived
    decreases StepsToClose(s.desk.orders[id].status)
  {
    if s.desk.orders[id].status == Closed { return []; }
    var step := OneStepOnward(s, id);
    var rest := OnwardToClosed(After(s, step), id);
    es := step + rest;
    AfterAppend(s, step, rest);
  }

  /** An order that arrives past approval can be closed without anyone ever having approved it. */
  lemma {:induction false} LateArrivalClosesBare(status: State, id: OrderId) returns (es: seq<Event>)
    requires !Early(Some(status))
    ensures var t := After(START, es);
            && id in t.desk.orders && OriginOf(t, id) == Some(status) && t.desk.orders[id].status == Closed
            && t.desk.orders[id].approver == None
  {
    var row := NewOrder(false, false).(status := status, actualEnd := if status == Closed then Some(0) else None);
    var arrive := Arrive(id, row);
    assert After(START, [arrive]) == After(Next(START, arrive), [arrive][1..]) == Next(START, arrive);
    var rest := OnwardToClosed(Next(START, arrive), id);
    es := [arrive] + rest;
    AfterAppend(START, [arrive], rest);
  }

  /** Which arrivals can be trusted once closed: exactly those in a status no approval comes before. */
  lemma {:induction false} ArrivalClosesCompleteIff(status: State)
    ensures (forall es, id | id in After(START, es).desk.orders && OriginOf(After(START, es), id) == Some(status)
                              && After(START, es).desk.orders[id].status == Closed :: Complete(After(START, es), id))
            <==> status in {Draft, Submitted, Cancelled, Rejected}
  {
    if Early(Some(status)) {
      forall es, id | id in After(START, es).desk.orders && OriginOf(After(START, es), id) == Some(status)
                      && After(START, es).desk.orders[id].status == Closed
        ensures Complete(After(START, es), id)
      {
        ClosedOrderIsComplete(es, id);
      }
    } else {
      var es := LateArrivalClosesBare(status, "w");
      assert !Complete(After(START, es), "w");
    }
  }
}
