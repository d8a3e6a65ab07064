/** The engine as the source writes it: statements against the database, one after the other. */
module SyncEngine {
  import opened Prelude
  import opened Values
  import opened SyncMeta
  import opened SyncProtocol
  import opened SyncServer

  datatype PushReply = BadRequest | Accepted(results: seq<Result>, nextCursor: nat)

  class Engine {
    var rows: map<Key, Row>
    var stamps: map<OpId, Stamp>
    var conflicts: seq<ConflictRow>
    var feed: seq<Change>
    var head: nat
    var numbers: map<Entity, nat>
    ghost var effects: seq<OpId>

    ghost function State(): Server
      reads this
    {
      Server(rows, stamps, conflicts, feed, head, numbers, effects)
    }

    constructor ()
      ensures State() == Server(map[], map[], [], [], 0, map[], [])
    {
      rows, stamps, conflicts, feed, head, numbers, effects := map[], map[], [], [], 0, map[], [];
    }

    /** INSERT or UPDATE of one row, with the triggers it fires. */
    method Execute(key: Key, cols: Record, ghost opId: OpId)
      modifies this
      ensures State() == Written(old(State()), key, cols, opId)
    {
      var version := if key in rows then rows[key].version + 1 else 1;
      rows := rows[key := Row(version, cols)];
      head := head + 1;
      feed := feed + [Change(head, key, version, IsTombstone(cols), Published(cols))];
      effects := effects + [opId];
    }

    method RecordConflict(op: Op, strategy: Strategy, client: Record, server: Record, kept: set<string>)
      modifies this
      ensures State() == Logged(old(State()), op, strategy, client, server, kept)
    {
      conflicts := conflicts + [ConflictRow(KeyOf(op), strategy, client, server, kept)];
    }

    method Success(op: Op, outcome: Outcome, kept: set<string>) returns (r: Result)
      modifies this
      ensures (State(), r) == Succeeded(old(State()), op, outcome, kept)
    {
      if op.opId !in stamps {
        stamps := stamps[op.opId := Stamp(outcome, head, kept)];
      }
      if kept != {} {
        RecordConflict(op, ServerWinsLog, Blanks(kept), map[], kept);
      }
      r := Result(op.opId, op.recordId, outcome, Some(head), None, None, kept);
    }

    /** Draws the next business number for the entities that carry one. */
    method TakeNumber(op: Op) returns (cell: Record)
      modifies this
      ensures State() == Numbered(old(State()), op)
      ensures cell == NumberCell(op.entity, NextNumber(old(State()), op.entity))
    {
      match NumberColumn(op.entity) {
        case None => return map[];
        case Some((col, prefix)) =>
          var n := (if op.entity in numbers then numbers[op.entity] else 0) + 1;
          numbers := numbers[op.entity := n];
          return map[col := One(Str(prefix + "-" + Digits(n)))];
      }
    }

    method Create(op: Op, env: Env) returns (r: Result)
      modifies this
      ensures (State(), r) == Created(old(State()), op, env)
    {
      if op.kind == Patch { return Refusal(op); }
      var over := Overrides(op, env.access);
      if over != {} {
        RecordConflict(op, ServerStamped, map k | k in over && k in op.data :: op.data[k], map[], over);
      }
      r := Insert(op, env);
    }

    /** The INSERT half of a creation: data, identity, number, bookkeeping columns. */
    method Insert(op: Op, env: Env) returns (r: Result)
      modifies this
      ensures (State(), r) == Inserted(old(State()), op, env)
    {
      var data := Sanitize(op.data, SafeColumns(env)) + ServerStamp(op.entity, env.access);
      if data == map[] { return Refusal(op); }
      var cell := TakeNumber(op);
      data := data + cell;
      if env.fault == WriteFault || KeyOf(op) in rows || data.Keys * Bookkeeping(op, env).Keys != {} {
        return Refusal(op);
      }
      Execute(KeyOf(op), env.defaults + data + Bookkeeping(op, env), op.opId);
      r := Success(op, Applied, {});
    }

    method Update(op: Op, env: Env, row: Row) returns (r: Result)
      modifies this
      ensures (State(), r) == Updated(old(State()), op, env, row)
    {
      var cols := SafeColumns(env);
      var incoming := Sanitize(op.data, cols);
      var existing := ReadRow(row, cols);
      var action := Resolve(op.entity, IsApproved(existing, op.entity));
      if action == RejectOp {
        RecordConflict(op, RejectedLog, incoming, existing, incoming.Keys);
        return Refusal(op).(serverRecord := Some(existing));
      }
      if action == KeepServer {
        RecordConflict(op, ServerWinsLog, incoming, existing, incoming.Keys);
        return Result(op.opId, op.recordId, Conflict, None, None, Some(existing), incoming.Keys);
      }
      var payload, kept := incoming, {};
      if action == Merge {
        var conflicting;
        payload, kept, conflicting := MergeFieldwise(existing, incoming, MetaOf(op.entity));
      }
      var changed := Changed(existing, payload, cols);
      if changed == map[] && kept != {} {
        RecordConflict(op, ServerWinsLog, incoming, existing, kept);
        return Result(op.opId, op.recordId, Conflict, None, None, Some(existing), kept);
      }
      if changed == map[] {
        r := Success(op, Applied, {});
        return;
      }
      if env.fault == WriteFault { return Refusal(op); }
      Execute(KeyOf(op), row.cols + changed, op.opId);
      r := Success(op, if action == Merge then MergedIn else Applied, kept);
    }

    method ApplyDelete(op: Op, env: Env) returns (r: Result)
      modifies this
      ensures (State(), r) == Erased(old(State()), op, env)
    {
      if "deletedAt" !in SafeColumns(env) { return Refusal(op); }
      if KeyOf(op) !in rows { return Result(op.opId, op.recordId, Applied, None, None, None, {}); }
      var row := rows[KeyOf(op)];
      if IsApproved(ReadRow(row, SafeColumns(env)), op.entity) && !env.access.facilityWide { return Refusal(op); }
      if env.fault == WriteFault { return Refusal(op); }
      Execute(KeyOf(op), row.cols["deletedAt" := env.now], op.opId);
      r := Success(op, Applied, {});
    }

    method ApplyOp(op: Op, env: Env) returns (r: Result)
      modifies this
      ensures (State(), r) == Delivered(old(State()), op, env)
    {
      if !IsUuid(op.recordId) { return Refusal(op); }
      if op.opId in stamps {
        var st := stamps[op.opId];
        return Result(op.opId, op.recordId, st.outcome, Some(st.serverSeq), None, None, st.kept);
      }
      r := Process(op, env);
    }

    /** The rest of `applyOp`, behind the duplicate check. */
    method Process(op: Op, env: Env) returns (r: Result)
      modifies this
      ensures (State(), r) == Processed(old(State()), op, env)
    {
      if !Admitted(op, env.access) || env.inScope == Some(false) || env.fault == QueryFault { return Refusal(op); }
      if op.kind == Delete {
        r := ApplyDelete(op, env);
      } else if KeyOf(op) in rows && SafeColumns(env) != {} {
        r := Update(op, env, rows[KeyOf(op)]);
      } else {
        r := Create(op, env);
      }
    }

    /** The request schema and `validatePush`. */
    method Validate(ops: seq<Op>) returns (ok: bool)
      ensures ok == ValidBatch(ops)
    {
      if |ops| < 1 || |ops| > MAX_OPS { return false; }
      var seen: set<OpId> := {};
      for i := 0 to |ops|
        invariant seen == set j | 0 <= j < i :: ops[j].opId
        invariant forall k :: 0 <= k < i ==> WellFormed(ops[k])
        invariant forall j, k :: 0 <= j < k < i ==> ops[j].opId != ops[k].opId
      {
        if ops[i].opId in seen || !WellFormed(ops[i]) {
          return false;
        }
        seen := seen + {ops[i].opId};
      }
      return true;
    }

    method Push(ops: seq<Op>, envs: seq<Env>) returns (reply: PushReply)
      requires |ops| == |envs|
      modifies this
      ensures !ValidBatch(ops) ==> reply == BadRequest && State() == old(State())
      ensures ValidBatch(ops) ==>
                reply == Accepted(DeliveredAll(old(State()), ops, envs).1, head)
                    && State() == DeliveredAll(old(State()), ops, envs).0
    {
      var ok := Validate(ops);
      if !ok { return BadRequest; }
      var results: seq<Result> := [];
      for i := 0 to |ops|
        invariant (State(), results) == DeliveredAll(old(State()), ops[..i], envs[..i])
      {
        assert ops[..i + 1][..i] == ops[..i] && envs[..i + 1][..i] == envs[..i];
        var r := ApplyOp(ops[i], envs[i]);
        results := results + [r];
      }
      assert ops[..|ops|] == ops && envs[..|envs|] == envs;
      reply := Accepted(results, head);
    }
  }
}
