/**
 Work orders that a pushed operation creates: what their row holds, as seen from the sync engine. `WorkOrderLaws` starts
 from this when it lets an order arrive in any status, without an approver and without a log entry.
 */
module WorkOrderArrivals {
  import opened Prelude
  import opened Values
  import opened SyncMeta
  import opened SyncProtocol
  import opened SyncServer
  import opened SyncServerLaws
  import WorkOrders

  function StatusName(s: WorkOrders.State): string {
    match s
    case Draft => "DRAFT"
    case Submitted => "SUBMITTED"
    case Approved => "APPROVED"
    case Assigned => "ASSIGNED"
    case InProgress => "IN_PROGRESS"
    case OnHold => "ON_HOLD"
    case AwaitingParts => "AWAITING_PARTS"
    case AwaitingPermit => "AWAITING_PERMIT"
    case Completed => "COMPLETED"
    case Closed => "CLOSED"
    case Cancelled => "CANCELLED"
    case Rejected => "REJECTED"
  }

  lemma {:induction false} CreatedCols(s: Server, d: Delivery)
    requires d.op.entity == WorkOrder && KeyOf(d.op) !in s.rows && KeyOf(d.op) in Step(s, d).rows
    ensures ColsAt(Step(s, d), KeyOf(d.op)) ==
            d.env.defaults + InsertCols(d.op, d.env, NextNumber(s, WorkOrder)) + Bookkeeping(d.op, d.env)
  {
    var q, e := NormalForm(s, d.op, d.env);
    PerformedRow(q, d.op, e, KeyOf(d.op));
  }

  /** A creation adds one row, at version 1, and no other: no log entry in particular. */
  lemma {:induction false} CreatedAlone(s: Server, d: Delivery)
    requires KeyOf(d.op) !in s.rows && KeyOf(d.op) in Step(s, d).rows
    ensures Step(s, d).rows[KeyOf(d.op)].version == 1
    ensures Step(s, d).rows == s.rows[KeyOf(d.op) := Step(s, d).rows[KeyOf(d.op)]]
  {
    var q, e := NormalForm(s, d.op, d.env);
    PerformedRow(q, d.op, e, KeyOf(d.op));
  }

  lemma {:induction false} OverDefaults(defaults: Record, ins: Record, book: Record, col: string)
    requires col !in book
    ensures Get(defaults + ins + book, col) == if col in ins then ins[col] else Get(defaults, col)
  {}

  const STAMPED: set<string> :=
      {"facilityId", "departmentId", "subDeptId", "createdById", "number", "clientOpId", "isOfflineCreated"}

  lemma {:induction false} InsertedColumn(op: Op, env: Env, n: nat, col: string)
    requires op.entity == WorkOrder && col !in STAMPED
    ensures col !in Bookkeeping(op, env)
    ensures var ins, sent := InsertCols(op, env, n), Sanitize(op.data, SafeColumns(env));
            (col in ins <==> col in sent) && (col in ins ==> ins[col] == op.data[col])
  {
    assert NumberCell(WorkOrder, n).Keys == {"number"};
    assert ServerStamp(WorkOrder, env.access).Keys == {"facilityId", "departmentId", "subDeptId", "createdById"};
  }

  /** A column the server does not stamp: the client's value if it is allowed one, else the table's default. */
  lemma {:induction false} ArrivingColumn(s: Server, d: Delivery, col: string)
    requires d.op.entity == WorkOrder && KeyOf(d.op) !in s.rows && KeyOf(d.op) in Step(s, d).rows && col !in STAMPED
    ensures Get(ColsAt(Step(s, d), KeyOf(d.op)), col) ==
            if col in Sanitize(d.op.data, SafeColumns(d.env)) then d.op.data[col] else Get(d.env.defaults, col)
  {
    CreatedCols(s, d);
    var n := NextNumber(s, WorkOrder);
    InsertedColumn(d.op, d.env, n, col);
    OverDefaults(d.env.defaults, InsertCols(d.op, d.env, n), Bookkeeping(d.op, d.env), col);
  }

  lemma {:induction false} ApproverIsDenied()
    ensures "approverId" !in STAMPED && "approverId" in DENIED
  {
    assert "approverId"[0] != "facilityId"[0];
  }

  /** Nobody is approver of a pushed order, whatever the device sent. */
  lemma {:induction false} ArrivesUnapproved(s: Server, d: Delivery)
    requires d.op.entity == WorkOrder && KeyOf(d.op) !in s.rows && KeyOf(d.op) in Step(s, d).rows
    ensures Get(ColsAt(Step(s, d), KeyOf(d.op)), "approverId") == Get(d.env.defaults, "approverId")
  {
    ApproverIsDenied();
    ArrivingColumn(s, d, "approverId");
  }

  // ---- and every status does arrive ----

  const FINISHED := One(Str("2026-01-01T08:00:00.000Z"))

  /** The session of any user who may push, against the table's columns, with nothing failing. */
  ghost predicate Ordinary(env: Env) {
    && "sync.push" in env.access.perms && env.inScope != Some(false) && env.fault == NoFault
    && {"title", "description", "status", "actualEndAt"} <= SafeColumns(env) && "approverId" !in env.defaults
  }

  /** An order reported from the field, its end time included; the table's CHECKs accept such a row. */
  function Report(status: WorkOrders.State, id: string, o: OpId): Op {
    Op(o, WorkOrder, id, Upsert,
       map["title" := One(Str("Pump")), "description" := One(Str("The pump is leaking oil")),
           "status" := One(Str(StatusName(status))), "actualEndAt" := FINISHED], 0)
  }

  /** A creation whose data the table has columns for and none of which the server stamps. */
  ghost predicate Plain(op: Op, env: Env) {
    && op.entity == WorkOrder && op.kind == Upsert && IsUuid(op.recordId) && op.data != map[]
    && op.data.Keys <= SafeColumns(env) && (forall k :: k in op.data ==> op.data[k] != Undefined)
    && op.data.Keys !! STAMPED
  }

  lemma {:induction false} PlainPasses(s: Server, op: Op, env: Env)
    requires Plain(op, env)
    ensures Reported(s, op, env) == s && Sanitize(op.data, SafeColumns(env)) == op.data
    ensures InsertCols(op, env, NextNumber(s, WorkOrder)).Keys !! Bookkeeping(op, env).Keys
  {
    assert Overrides(op, env.access) == {};
    assert NumberCell(WorkOrder, NextNumber(s, WorkOrder)).Keys == {"number"};
  }

  lemma {:induction false} PlainIsInserted(s: Server, op: Op, env: Env)
    requires Plain(op, env) && Ordinary(env) && KeyOf(op) !in s.rows
    ensures Inserted(s, op, env).1.outcome == Applied && KeyOf(op) in Inserted(s, op, env).0.rows
  {
    PlainPasses(s, op, env);
    var k :| k in op.data;
    assert k in Sanitize(op.data, SafeColumns(env)) + ServerStamp(op.entity, env.access);
    InsertLeaves(s, op, env);
  }

  lemma {:induction false} PlainIsDelivered(s: Server, op: Op, env: Env)
    requires Plain(op, env) && Ordinary(env) && op.opId !in s.stamps && KeyOf(op) !in s.rows
    requires Reported(s, op, env) == s
    ensures Delivered(s, op, env) == Inserted(s, op, env)
  {
    GoesToInsert(s, op, env);
  }

  lemma {:induction false} ReportIsPlain(status: WorkOrders.State, id: string, o: OpId, env: Env)
    requires IsUuid(id) && Between(8, OpText(o), 64) && Ordinary(env)
    ensures Plain(Report(status, id, o), env) && WellFormed(Report(status, id, o))
  {
    assert "title" in Report(status, id, o).data;
  }

  /** Anyone who may push can create an order in any status, CLOSED included. */
  lemma {:induction false} AnyStatusArrives(s: Server, status: WorkOrders.State, id: string, o: OpId, env: Env)
    requires IsUuid(id) && Between(8, OpText(o), 64) && o !in s.stamps && Key(WorkOrder, id) !in s.rows && Ordinary(env)
    ensures var d := Delivery(Report(status, id, o), env);
            && WellFormed(d.op) && Answer(s, d).outcome == Applied && Key(WorkOrder, id) in Step(s, d).rows
            && Get(ColsAt(Step(s, d), Key(WorkOrder, id)), "status") == One(Str(StatusName(status)))
            && Get(ColsAt(Step(s, d), Key(WorkOrder, id)), "actualEndAt") == FINISHED
            && Get(ColsAt(Step(s, d), Key(WorkOrder, id)), "approverId") == Undefined
            && forall key :: key in Step(s, d).rows && key.entity == WorkOrderLog ==> key in s.rows
  {
    var d := Delivery(Report(status, id, o), env);
    ReportIsPlain(status, id, o, env);
    PlainPasses(s, d.op, env);
    PlainIsInserted(s, d.op, env);
    PlainIsDelivered(s, d.op, env);
    CreatedAlone(s, d);
    ArrivesUnapproved(s, d);
    ArrivingColumn(s, d, "status");
    ArrivingColumn(s, d, "actualEndAt");
  }
}
