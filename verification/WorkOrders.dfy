/**
 Work orders: the transition table (packages/domain/src/workorder.ts) and the service that moves an order along it
 (apps/api/src/workorder/work-order.service.ts), split where the source lets other users in: between reading
 the order and the version-checked UPDATE. A database trigger bumps `version` on every row update, and the table's
 CHECKs (migration 20260907000001, lines 213-214) refuse a row that ends before it starts or is CLOSED without an end.
 */
module WorkOrders {
  import opened Prelude

  datatype State =
    | Draft | Submitted | Approved | Assigned | InProgress | OnHold | AwaitingParts | AwaitingPermit
    | Completed | Closed | Cancelled | Rejected

  datatype Need = Reason | Labor | Parts | ActualTimes | RootCause

  datatype Transition = Transition(to: State, permission: string, needs: seq<Need>)

  function TransitionsFrom(from: State): seq<Transition> {
    match from
    case Draft => [Transition(Submitted, "maint.wo.create", []), Transition(Cancelled, "maint.wo.cancel", [Reason])]
    case Submitted => [Transition(Approved, "maint.wo.assign", []), Transition(Rejected, "maint.wo.cancel", [Reason])]
    case Approved => [Transition(Assigned, "maint.wo.assign", [ActualTimes]),
      Transition(Cancelled, "maint.wo.cancel", [Reason])]
    case Assigned => [Transition(InProgress, "maint.wo.execute", [ActualTimes]),
      Transition(OnHold, "maint.wo.execute", [Reason]),
                      Transition(AwaitingParts, "maint.wo.execute", [Reason])]
    case InProgress => [Transition(Completed, "maint.wo.execute", [Labor, Parts]),
      Transition(OnHold, "maint.wo.execute", [Reason]),
                        Transition(AwaitingParts, "maint.wo.execute", []),
                            Transition(AwaitingPermit, "maint.wo.execute", [])]
    case OnHold => [Transition(InProgress, "maint.wo.execute", [])]
    case AwaitingParts => [Transition(InProgress, "maint.wo.execute", [])]
    case AwaitingPermit => [Transition(InProgress, "maint.permit.approve", [])]
    case Completed => [Transition(Closed, "maint.wo.close", [ActualTimes, RootCause]),
      Transition(InProgress, "maint.wo.execute", [Reason])]
    case Closed => [Transition(InProgress, "maint.wo.cancel", [Reason])]
    case Cancelled => [Transition(Draft, "maint.wo.cancel", [])]
    case Rejected => [Transition(Draft, "maint.wo.create", [])]
  }

  function Find(ts: seq<Transition>, to: State): Option<Transition> {
    if ts == [] then None else if ts[0].to == to then Some(ts[0]) else Find(ts[1..], to)
  }

  function CanTransition(from: State, to: State, perms: set<string>): Option<Transition> {
    var t := Find(TransitionsFrom(from), to);
    if t.Some? && t.value.permission in perms then t else None
  }

  function Permitted(ts: seq<Transition>, perms: set<string>): seq<State> {
    if ts == [] then []
    else (if ts[0].permission in perms then [ts[0].to] else []) + Permitted(ts[1..], perms)
  }

  function AllowedNextStates(from: State, perms: set<string>): seq<State> { Permitted(TransitionsFrom(from), perms) }

  ghost predicate OneEntryPerTarget(ts: seq<Transition>) { forall i, j :: 0 <= i < j < |ts| ==> ts[i].to != ts[j].to }

  lemma {:induction false} PermittedIffFound(ts: seq<Transition>, to: State, perms: set<string>)
    requires OneEntryPerTarget(ts)
    ensures to in Permitted(ts, perms) <==> Find(ts, to).Some? && Find(ts, to).value.permission in perms
    ensures Find(ts, to).None? <==> forall i :: 0 <= i < |ts| ==> ts[i].to != to
  {
    if ts != [] {
      assert forall i :: 0 <= i < |ts[1..]| ==> ts[1..][i] == ts[i + 1];
      PermittedIffFound(ts[1..], to, perms);
      if ts[0].to == to { assert Find(ts[1..], to).None?; }
    }
  }

  /** The list a refused caller is shown holds exactly the moves that would have been allowed. */
  lemma {:induction false} AllowedIffCan(from: State, to: State, perms: set<string>)
    ensures to in AllowedNextStates(from, perms) <==> CanTransition(from, to, perms).Some?
  {
    PermittedIffFound(TransitionsFrom(from), to, perms);
  }

  // ---- rows ----

  type OrderId = string

  datatype Session = Session(user: string, perms: set<string>)

  datatype Order = Order(status: State, version: nat, approver: Option<string>, assignee: Option<string>,
                         actualStart: Option<int>, actualEnd: Option<int>, rootCause: Option<string>,
                             closeNotes: Option<string>,
                         requirePermit: bool, safetyCritical: bool)

  /** A log row; a status column may be empty. The last three fields are history: the mover's permissions and what the
      permit rule saw. */
  datatype Entry = Entry(id: OrderId, from: Option<State>, to: Option<State>, who: Session, needsPermit: bool,
      permitSeen: bool)

  datatype Desk = Desk(orders: map<OrderId, Order>, log: seq<Entry>)

  datatype Request = Request(to: State, reason: Option<string>, actualStart: Option<int>, actualEnd: Option<int>,
                             rootCause: Option<string>, assignee: Option<string>)

  /** A request that passed every check against `order` as it was read. */
  datatype Ticket = Ticket(id: OrderId, order: Order, dto: Request, who: Session, now: int, permitSeen: bool)

  datatype Refusal = NotFound | NotAllowed(allowed: seq<State>) | Missing(need: Need) | NoPermit

  datatype Checked = Passed(ticket: Ticket) | Turned(why: Refusal)

  predicate IsMissing(need: Need, dto: Request) {
    || (need == Reason && !Given(dto.reason))
    || (need == ActualTimes && dto.to == InProgress && dto.actualStart.None?)
    || (need == RootCause && dto.to == Closed && !Given(dto.rootCause))
  }

  function FirstMissing(needs: seq<Need>, dto: Request): Option<Need> {
    if needs == [] then None else if IsMissing(needs[0], dto) then Some(needs[0]) else FirstMissing(needs[1..], dto)
  }

  predicate NeedsPermit(o: Order) { o.requirePermit || o.safetyCritical }

  /** The checks before the UPDATE; `permit` is the answer of the permit query. */
  function CheckRequest(d: Desk, id: OrderId, dto: Request, who: Session, now: int, permit: bool): Checked {
    if id !in d.orders then Turned(NotFound)
    else
      var o := d.orders[id];
      match CanTransition(o.status, dto.to, who.perms)
      case None => Turned(NotAllowed(AllowedNextStates(o.status, who.perms)))
      case Some(t) =>
        var missing := FirstMissing(t.needs, dto);
        if missing.Some? then Turned(Missing(missing.value))
        else if dto.to == InProgress && NeedsPermit(o) && !permit then Turned(NoPermit)
        else Passed(Ticket(id, o, dto, who, now, permit))
  }

  function Moved(o: Order, dto: Request, who: Session, now: int): Order {
    o.(status := dto.to,
       version := o.version + 1,
       actualStart := if dto.to == InProgress then OrElse(dto.actualStart, Some(now)) else o.actualStart,
       actualEnd := if dto.to == Closed || dto.to == Completed then OrElse(dto.actualEnd, Some(now)) else o.actualEnd,
       assignee := if dto.to == Assigned then OrElse(dto.assignee, o.assignee) else o.assignee,
       approver := if dto.to == Approved then Some(who.user) else o.approver,
       rootCause := OrElse(dto.rootCause, o.rootCause),
       closeNotes := if dto.to == Closed then OrElse(dto.reason, o.closeNotes) else o.closeNotes)
  }

  predicate InOrder(start: Option<int>, end: Option<int>) { start.Some? && end.Some? ==> start.value <= end.value }

  /** The table's CHECKs on the columns a move touches. */
  predicate RowOk(o: Order) { InOrder(o.actualStart, o.actualEnd) && (o.status == Closed ==> o.actualEnd.Some?) }

  predicate Current(d: Desk, t: Ticket) { t.id in d.orders && d.orders[t.id].version == t.order.version }

  datatype CommitEnd = Applied | Stale | Refused

  /** The row the UPDATE would leave; its values come from the copy that was read. */
  function Proposed(d: Desk, t: Ticket): Order
    requires t.id in d.orders
  {
    Moved(t.order, t.dto, t.who, t.now).(requirePermit := d.orders[t.id].requirePermit,
                                         safetyCritical := d.orders[t.id].safetyCritical)
  }

  function CommitResult(d: Desk, t: Ticket): CommitEnd {
    if !Current(d, t) then Stale else if !RowOk(Proposed(d, t)) then Refused else Applied
  }

  /** The UPDATE guarded by the version that was read, and its log row: both or, when the table refuses the row,
      neither. */
  function Committed(d: Desk, t: Ticket): Desk {
    if CommitResult(d, t) != Applied then d
    else
      Desk(d.orders[t.id := Proposed(d, t)],
           d.log + [Entry(t.id, Some(t.order.status), Some(t.dto.to), t.who, NeedsPermit(t.order), t.permitSeen)])
  }

  function NewOrder(requirePermit: bool, emergency: bool): Order {
    Order(Draft, 1, None, None, None, None, None, None, requirePermit, emergency)
  }

  predicate MayCreate(d: Desk, id: OrderId, who: Session, requirePermit: bool) {
    id !in d.orders && (requirePermit ==> "maint.permit.create" in who.perms)
  }

  function Opened(d: Desk, id: OrderId, who: Session, requirePermit: bool, emergency: bool): Desk {
    if !MayCreate(d, id, who, requirePermit) then d
    else Desk(d.orders[id := NewOrder(requirePermit, emergency)],
      d.log + [Entry(id, None, Some(Draft), who, false, false)])
  }

  class WorkOrderService {
    var orders: map<OrderId, Order>
    var log: seq<Entry>

    ghost function View(): Desk
      reads this
    {
      Desk(orders, log)
    }

    constructor ()
      ensures View() == Desk(map[], [])
    {
      orders, log := map[], [];
    }

    method Create(id: OrderId, who: Session, requirePermit: bool, emergency: bool) returns (ok: bool)
      modifies this
      ensures ok == MayCreate(old(View()), id, who, requirePermit)
      ensures View() == Opened(old(View()), id, who, requirePermit, emergency)
    {
      if (requirePermit && "maint.permit.create" !in who.perms) || id in orders { return false; }
      orders := orders[id := NewOrder(requirePermit, emergency)];
      log := log + [Entry(id, None, Some(Draft), who, false, false)];
      return true;
    }

    method Check(id: OrderId, dto: Request, who: Session, now: int, permit: bool) returns (r: Checked)
      ensures r == CheckRequest(View(), id, dto, who, now, permit)
    {
      if id !in orders { return Turned(NotFound); }
      var wo := orders[id];
      var transition := CanTransition(wo.status, dto.to, who.perms);
      if transition.None? { return Turned(NotAllowed(AllowedNextStates(wo.status, who.perms))); }
      var needs := transition.value.needs;
      for i := 0 to |needs|
        invariant FirstMissing(needs[i..], dto) == FirstMissing(needs, dto)
      {
        if IsMissing(needs[i], dto) { return Turned(Missing(needs[i])); }
      }
      if dto.to == InProgress && NeedsPermit(wo) && !permit { return Turned(NoPermit); }
      return Passed(Ticket(id, wo, dto, who, now, permit));
    }

    method Commit(t: Ticket) returns (end: CommitEnd)
      modifies this
      ensures end == CommitResult(old(View()), t) && View() == Committed(old(View()), t)
    {
      if t.id !in orders || orders[t.id].version != t.order.version { return Stale; }
      var wo, dto := t.order, t.dto;
      var row := orders[t.id].(
        status := dto.to,
        version := orders[t.id].version + 1,
        actualStart := if dto.to == InProgress then (if dto.actualStart.Some? then dto.actualStart else Some(t.now))
            else wo.actualStart,
        actualEnd := if dto.to == Closed
            || dto.to == Completed then (if dto.actualEnd.Some? then dto.actualEnd else Some(t.now)) else wo.actualEnd,
        assignee := if dto.to == Assigned && dto.assignee.Some? then dto.assignee else wo.assignee,
        approver := if dto.to == Approved then Some(t.who.user) else wo.approver,
        rootCause := if dto.rootCause.Some? then dto.rootCause else wo.rootCause,
        closeNotes := if dto.to == Closed && dto.reason.Some? then dto.reason else wo.closeNotes);
      if !RowOk(row) { return Refused; }
      orders := orders[t.id := row];
      log := log + [Entry(t.id, Some(wo.status), Some(dto.to), t.who, NeedsPermit(wo), t.permitSeen)];
      return Applied;
    }

    /** The whole endpoint, when nobody comes in between: a request that passes the checks is applied unless the table
        refuses the row. */
    method Transition(id: OrderId, dto: Request, who: Session, now: int, permit: bool)
      returns (r: Checked, end: CommitEnd)
      modifies this
      ensures r == CheckRequest(old(View()), id, dto, who, now, permit)
      ensures View() == if r.Passed? then Committed(old(View()), r.ticket) else old(View())
      ensures r.Passed? ==>
                && id in old(orders) && id in orders
                && end == (if RowOk(Moved(old(orders[id]), dto, who, now)) then Applied else Refused)
      ensures r.Passed? ==> orders[id] == if end == Applied then Moved(old(orders[id]), dto, who, now)
              else old(orders[id])
    {
      end := Applied;
      r := Check(id, dto, who, now, permit);
      if r.Passed? { end := Commit(r.ticket); }
    }
  }
}
