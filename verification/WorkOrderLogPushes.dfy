/**
 Rows of the work-order log that devices push, as seen from the sync engine: any session that may push can add a row to
 the log of any order and overwrite a row that is there. `WorkOrderLaws` lets its runs do both.
 */
module WorkOrderLogPushes {
  import opened Prelude
  import opened Values
  import opened SyncMeta
  import opened SyncProtocol
  import opened SyncServer
  import opened SyncServerLaws

  const LOG_COLUMNS: set<string> := {"woId", "fromStatus", "toStatus", "textAr"}

  /** A log row that names an order and two statuses. */
  ghost predicate IsLogRow(op: Op) {
    && op.entity == WorkOrderLog && op.kind == Upsert && IsUuid(op.recordId) && op.data.Keys == LOG_COLUMNS
    && forall c :: c in LOG_COLUMNS ==> IsStr(op.data[c])
  }

  /** Any session that may push, with nothing failing; whose order it is does not matter. */
  ghost predicate MayWrite(env: Env) {
    "sync.push" in env.access.perms && env.inScope != Some(false) && env.fault == NoFault
        && LOG_COLUMNS <= SafeColumns(env)
  }

  lemma {:induction false} NothingStamped(s: Server, op: Op, env: Env)
    requires IsLogRow(op) && MayWrite(env)
    ensures Sanitize(op.data, SafeColumns(env)) == op.data && Overrides(op, env.access) == {}
    ensures Reported(s, op, env) == s && op.data.Keys !! Bookkeeping(op, env).Keys
    ensures InsertCols(op, env, NextNumber(s, WorkOrderLog)).Keys == op.data.Keys + {"byUserId"}
    ensures forall c :: c in LOG_COLUMNS ==> InsertCols(op, env, NextNumber(s, WorkOrderLog))[c] == op.data[c]
  {
    assert ServerStamp(WorkOrderLog, env.access).Keys == {"byUserId"};
    assert NumberCell(WorkOrderLog, NextNumber(s, WorkOrderLog)) == map[];
  }

  lemma {:induction false} LogRowIsAdmitted(op: Op, env: Env)
    requires IsLogRow(op) && MayWrite(env)
    ensures Admitted(op, env.access) && SafeColumns(env) != {}
  {
    assert "woId" in SafeColumns(env);
  }

  /** A row that is not there yet is added with the statuses the device sent. */
  lemma {:induction false} LogRowIsInserted(s: Server, op: Op, env: Env, c: string)
    requires IsLogRow(op) && MayWrite(env) && op.opId !in s.stamps && KeyOf(op) !in s.rows && c in LOG_COLUMNS
    ensures Answer(s, Delivery(op, env)).outcome == Applied && KeyOf(op) in Step(s, Delivery(op, env)).rows
    ensures Get(ColsAt(Step(s, Delivery(op, env)), KeyOf(op)), c) == op.data[c]
  {
    NothingStamped(s, op, env);
    assert "woId" in Sanitize(op.data, SafeColumns(env)) + ServerStamp(op.entity, env.access);
    InsertLeaves(s, op, env);
    LogRowIsAdmitted(op, env);
    GoesToInsert(s, op, env);
  }

  lemma {:induction false} LogRowIsAmended(s: Server, op: Op, env: Env)
    requires IsLogRow(op) && KeyOf(op) in s.rows
    ensures Updated(s, op, env, s.rows[KeyOf(op)]) ==
            Amended(s, op, env, s.rows[KeyOf(op)], false, MetaOf(WorkOrderLog))
  {}

  lemma {:induction false} OverwriteLeaves(s: Server, op: Op, env: Env)
    requires KeyOf(op) in s.rows && env.fault == NoFault
    ensures var row := s.rows[KeyOf(op)];
            var (t, r) := Amended(s, op, env, row, false, MetaOf(WorkOrderLog));
            && r.outcome == Applied && KeyOf(op) in t.rows
            && t.rows[KeyOf(op)].cols == row.cols + ChangedBy(row, op, env, false, MetaOf(WorkOrderLog))
  {}

  /** A row that is there, whoever wrote it, shows what the device sent. */
  lemma {:induction false} LogRowIsRewritten(s: Server, op: Op, env: Env, c: string)
    requires IsLogRow(op) && MayWrite(env) && op.opId !in s.stamps && KeyOf(op) in s.rows && c in LOG_COLUMNS
    ensures Answer(s, Delivery(op, env)).outcome == Applied && KeyOf(op) in Step(s, Delivery(op, env)).rows
    ensures SameValue(Get(Shown(ColsAt(Step(s, Delivery(op, env)), KeyOf(op)), SafeColumns(env)), c), op.data[c])
  {
    LogRowIsAdmitted(op, env);
    GoesToUpdate(s, op, env);
    LogRowIsAmended(s, op, env);
    OverwriteLeaves(s, op, env);
    var row := s.rows[KeyOf(op)];
    var changed := ChangedBy(row, op, env, false, MetaOf(WorkOrderLog));
    assert c in Sanitize(op.data, SafeColumns(env));
    assert c in changed || SameValue(Get(ReadRow(row, SafeColumns(env)), c), op.data[c]);
  }
}
