/**
 Requests that overlap on the server: the duplicate check and the statements behind it are not one transaction
 (apps/api/src/sync/sync-engine.service.ts:123-166), so a request may pass the check and go on after another one
 stamped the same operation. When does it then run the data statement a second time?
 */
module SyncOverlap {
  import opened Prelude
  import opened Values
  import opened SyncMeta
  import opened SyncProtocol
  import opened SyncServer
  import opened SyncServerLaws

  /** The guards a request meets behind the duplicate check, down to its data statement. */
  predicate WouldWrite(s: Server, op: Op, env: Env) {
    && Admitted(op, env.access) && env.inScope != Some(false) && env.fault == NoFault
    && if op.kind == Delete then WouldErase(s, op, env)
       else if KeyOf(op) in s.rows && SafeColumns(env) != {} then WouldUpdate(op, env, s.rows[KeyOf(op)])
       else KeyOf(op) !in s.rows && WouldInsert(op, env, NextNumber(s, op.entity))
  }

  predicate WouldErase(s: Server, op: Op, env: Env) {
    && "deletedAt" in SafeColumns(env) && KeyOf(op) in s.rows
    && (IsApproved(ReadRow(s.rows[KeyOf(op)], SafeColumns(env)), op.entity) ==> env.access.facilityWide)
  }

  predicate WouldUpdate(op: Op, env: Env, row: Row) {
    var action := Resolve(op.entity, IsApproved(ReadRow(row, SafeColumns(env)), op.entity));
    action in {ApplyClient, Merge} && ChangedBy(row, op, env, action == Merge, MetaOf(op.entity)) != map[]
  }

  predicate WouldInsert(op: Op, env: Env, n: nat) {
    && op.kind == Upsert
    && Sanitize(op.data, SafeColumns(env)) + ServerStamp(op.entity, env.access) != map[]
    && InsertCols(op, env, n).Keys !! Bookkeeping(op, env).Keys
  }

  lemma {:induction false} EraseEffects(s: Server, op: Op, env: Env)
    ensures Erased(s, op, env).0.effects ==
            s.effects + if WouldErase(s, op, env) && env.fault != WriteFault then [op.opId] else []
  {}

  lemma {:induction false} SettledEffects(s: Server, op: Op, fault: Fault, row: Row, incoming: Record, existing: Record,
                                          changed: Record,
                                          outcome: Outcome, kept: set<string>)
    ensures Settled(s, op, fault, row, incoming, existing, changed, outcome, kept).0.effects ==
            s.effects + if changed != map[] && fault != WriteFault then [op.opId] else []
  {}

  lemma {:induction false} UpdateEffects(s: Server, op: Op, env: Env, row: Row)
    ensures Updated(s, op, env, row).0.effects ==
            s.effects + if WouldUpdate(op, env, row) && env.fault != WriteFault then [op.opId] else []
  {
    var incoming := Sanitize(op.data, SafeColumns(env));
    var existing := ReadRow(row, SafeColumns(env));
    var merge := Resolve(op.entity, IsApproved(existing, op.entity)) == Merge;
    SettledEffects(s, op, env.fault, row, incoming, existing, ChangedBy(row, op, env, merge, MetaOf(op.entity)),
                   if merge then MergedIn else Applied, if merge then KeptFromServer(incoming, MetaOf(op.entity))
                       else {});
  }

  lemma {:induction false} InsertEffects(s: Server, op: Op, env: Env)
    requires op.kind == Upsert
    ensures Inserted(s, op, env).0.effects == s.effects +
            var inserts := KeyOf(op) !in s.rows && WouldInsert(op, env, NextNumber(s, op.entity));
            if inserts && env.fault != WriteFault then [op.opId] else []
  {}

  lemma {:induction false} CreateEffects(s: Server, op: Op, env: Env)
    requires op.kind != Delete
    ensures Created(s, op, env).0.effects == s.effects +
            var inserts := KeyOf(op) !in s.rows && WouldInsert(op, env, NextNumber(s, op.entity));
            if inserts && env.fault != WriteFault then [op.opId] else []
  {
    var s1 := ReportedForm(s, op, env);
    if op.kind == Upsert { InsertEffects(s1, op, env); }
  }

  /** A request past the duplicate check runs its data statement exactly when its guards let it, stamped or not. */
  lemma {:induction false} ProcessedWritesIff(s: Server, op: Op, env: Env)
    ensures Processed(s, op, env).0.effects == s.effects + if WouldWrite(s, op, env) then [op.opId] else []
  {
    if op.kind == Delete {
      EraseEffects(s, op, env);
    } else if KeyOf(op) in s.rows && SafeColumns(env) != {} {
      UpdateEffects(s, op, env, s.rows[KeyOf(op)]);
    } else {
      CreateEffects(s, op, env);
    }
  }
}
