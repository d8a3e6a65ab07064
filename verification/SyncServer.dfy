/**
 The server side of push (apps/api/src/sync/sync-engine.service.ts:88-371).

 `Server` is the part of the database the engine touches. The functions say what one delivery of
 an operation does to it; class `SyncEngine` performs it step by step.
 Assumed of the environment: a data write and its idempotency stamp are one atomic step; the
 change feed is appended in sequence order; every row update bumps the row's version.
 */
module SyncServer {
  import opened Prelude
  import opened Values
  import opened SyncMeta
  import opened SyncProtocol

  datatype Row = Row(version: nat, cols: Record)

  datatype Stamp = Stamp(outcome: Outcome, serverSeq: nat, kept: set<string>)

  datatype Strategy = ServerStamped | ServerWinsLog | RejectedLog

  datatype ConflictRow = ConflictRow(key: Key, strategy: Strategy, client: Record, server: Record, kept: set<string>)

  /** `effects` is history: the operations whose data statement ran, in order. */
  datatype Server = Server(rows: map<Key, Row>, stamps: map<OpId, Stamp>, conflicts: seq<ConflictRow>,
                           feed: seq<Change>, head: nat, numbers: map<Entity, nat>, effects: seq<OpId>)

  /** The session of the caller; identity columns are values so that a missing sub-department is `null`. */
  datatype Access = Access(perms: set<string>, facilityWide: bool, userId: Value, facilityId: Value,
                           departmentId: Value, subDeptId: Value)

  datatype Fault = NoFault | QueryFault | WriteFault

  /**
   Everything one delivery meets besides the database: the session, the verdict of the scope query
   (`None` is the source's "no opinion"), the table's columns, its column defaults, the clock, and
   whether a statement throws.
   */
  datatype Env = Env(access: Access, inScope: Option<bool>, columns: set<string>, defaults: Record, now: Value,
      fault: Fault)

  const DENIED: set<string> := {
    "passwordHash", "syncSeq", "version", "createdAt", "updatedAt", "approvedById", "approvedAt", "closedById",
    "approverId", "verifiedById", "verifiedAt", "costCenterCode", "facilityId", "departmentId", "syncCursor",
    "isLocked", "reconciliationHash", "valuation", "creditUsed", "keeperUserId", "approvedBy"
  }

  // ---- pure helpers of the engine ----

  predicate IsHex(c: char) { '0' <= c <= '9' || 'a' <= c <= 'f' || 'A' <= c <= 'F' }

  predicate IsUuid(s: string) {
    |s| == 36 && forall i :: 0 <= i < 36 ==> if i in {8, 13, 18, 23} then s[i] == '-' else IsHex(s[i])
  }

  function SafeColumns(env: Env): set<string> { env.columns - DENIED }

  function Sanitize(data: Record, cols: set<string>): (r: Record)
    ensures forall k :: k in r <==> k in data && k in cols && k !in DENIED && data[k] != Undefined
    ensures forall k :: k in r ==> r[k] == data[k]
  {
    map k | k in data && k in cols && k !in DENIED && data[k] != Undefined :: data[k]
  }

  function ServerStamp(e: Entity, a: Access): Record {
    match e
    case WorkOrder =>
      map["facilityId" := a.facilityId, "departmentId" := a.departmentId,
          "subDeptId" := a.subDeptId, "createdById" := a.userId]
    case ShiftLog => map["facilityId" := a.facilityId, "preparedById" := a.userId]
    case LabSample => map["subDeptId" := a.subDeptId, "collectedById" := a.userId]
    case Permit => map["requestedById" := a.userId]
    case Document => map["uploadedById" := a.userId]
    case AssetReading => map["byUserId" := a.userId]
    case WorkOrderLog => map["byUserId" := a.userId]
    case NotificationAck => map["userId" := a.userId]
    case _ => map[]
  }

  function NumberColumn(e: Entity): Option<(string, string)> {
    if e == WorkOrder then Some(("number", "WO"))
    else if e == LabSample then Some(("sampleNumber", "SMP"))
    else None
  }

  predicate TextIn(v: Value, texts: set<string>) { v.One? && v.item.Str? && v.item.s in texts }

  predicate IsTruthy(v: Value) {
    match v
    case Undefined => false
    case List(_) => true
    case One(Str(s)) => s != ""
    case One(Num(r)) => r != "0" && r != "NaN"
    case One(Bool(b)) => b
    case One(Null) => false
    case One(Obj(_, _)) => true
  }

  predicate IsApproved(row: Record, e: Entity) {
    match e
    case ShiftLog => TextIn(Get(row, "status"), {"APPROVED", "LOCKED"})
    case WorkOrder => TextIn(Get(row, "status"), {"CLOSED", "APPROVED", "ASSIGNED"}) && IsTruthy(Get(row, "approverId"))
    case LabResult => IsTruthy(Get(row, "verifiedById")) || TextIn(Get(row, "status"), {"VERIFIED"})
    case LabSample => IsTruthy(Get(row, "verifiedById")) || TextIn(Get(row, "status"), {"VERIFIED"})
    case Permit => TextIn(Get(row, "status"), {"APPROVED_BY_AREA", "APPROVED_BY_HSE", "OPEN", "EXTENDED"})
    case _ => false
  }

  /** Equal, or a stored number and its text. */
  predicate SameValue(a: Value, b: Value) {
    a == b || (a.One? && a.item.Num? && b == One(Str(a.item.repr)))
  }

  /** The row as `SELECT <safe columns>` returns it: unset columns read as null. */
  function ReadRow(row: Row, cols: set<string>): (r: Record)
    ensures r.Keys == cols
  {
    map k | k in cols :: if k in row.cols then row.cols[k] else One(Null)
  }

  /** The checks before anything is read: permission gate, REST-only entities, append-only deletes. */
  predicate Admitted(op: Op, a: Access) {
    var e := op.entity;
    && "sync.push" in a.perms
    && (op.kind == Delete && MetaOf(e).merge != AppendOnly && !("maint.wo.cancel" in a.perms || a.facilityWide)
        ==> e !in {WorkOrder, ShiftLog, LabSample, LabResult, Permit})
    && (e == PartIssue ==> "wh.req.create" in a.perms)
    && (e == Permit ==> "maint.permit.create" in a.perms)
    && (e == ShiftLog ==> "prod.log.create" in a.perms)
    && (e == LabResult ==> "lab.result.enter" in a.perms)
    && (e == AttendancePunch ==> "hr.att.correct" in a.perms || "hr.att.import" in a.perms)
    && (e == MobileFormRecord ==> "hr.form.create" in a.perms)
    && (e == AssetReading ==> "maint.condition.record" in a.perms)
    && (e == LaborEntry ==> "maint.wo.execute" in a.perms)
    && e != PmPlanInstance && e != Asset
    && !MetaOf(e).restOnly
    && !(op.kind == Delete && MetaOf(e).merge == AppendOnly)
  }

  // ---- one delivery, as a function of the database ----

  function KeyOf(op: Op): Key { Key(op.entity, op.recordId) }

  function Refusal(op: Op): Result { Result(op.opId, op.recordId, Rejected, None, None, None, {}) }

  /** Every answer carries the ids of its operation. */
  predicate Names(r: Result, op: Op) { r.opId == op.opId && r.recordId == op.recordId }

  function Logged(s: Server, op: Op, strategy: Strategy, client: Record, server: Record, kept: set<string>): Server {
    s.(conflicts := s.conflicts + [ConflictRow(KeyOf(op), strategy, client, server, kept)])
  }

  function Published(cols: Record): Record { cols - {"passwordHash", "clientOpId"} }

  predicate IsTombstone(cols: Record) { Get(cols, "deletedAt") !in {Undefined, One(Null)} }

  /** A data statement together with the triggers it fires: version bump and change feed. */
  function Written(s: Server, key: Key, cols: Record, opId: OpId): Server {
    var version := if key in s.rows then s.rows[key].version + 1 else 1;
    s.(rows := s.rows[key := Row(version, cols)],
       feed := s.feed + [Change(s.head + 1, key, version, IsTombstone(cols), Published(cols))],
       head := s.head + 1,
       effects := s.effects + [opId])
  }

  function Blanks(keys: set<string>): Record { map k | k in keys :: Undefined }

  function Succeeded(s: Server, op: Op, outcome: Outcome, kept: set<string>): (r: (Server, Result))
    ensures Names(r.1, op)
  {
    var stamps := if op.opId in s.stamps then s.stamps else s.stamps[op.opId := Stamp(outcome, s.head, kept)];
    var s1 := s.(stamps := stamps);
    var s2 := if kept == {} then s1 else Logged(s1, op, ServerWinsLog, Blanks(kept), map[], kept);
    (s2, Result(op.opId, op.recordId, outcome, Some(s.head), None, None, kept))
  }

  /** Identity columns the client tried to set to something else. */
  function Overrides(op: Op, a: Access): set<string> {
    set k | k in ServerStamp(op.entity, a) && k in op.data && op.data[k] != ServerStamp(op.entity, a)[k]
  }

  function NextNumber(s: Server, e: Entity): nat { (if e in s.numbers then s.numbers[e] else 0) + 1 }

  function Numbered(s: Server, op: Op): Server {
    if NumberColumn(op.entity).None? then s else s.(numbers := s.numbers[op.entity := NextNumber(s, op.entity)])
  }

  function NumberCell(e: Entity, n: nat): Record {
    match NumberColumn(e)
    case None => map[]
    case Some((col, prefix)) => map[col := One(Str(prefix + "-" + Digits(n)))]
  }

  /** The columns of the INSERT when `n` is the number drawn. */
  function InsertCols(op: Op, env: Env, n: nat): Record {
    Sanitize(op.data, SafeColumns(env)) + ServerStamp(op.entity, env.access) + NumberCell(op.entity, n)
  }

  /** Bookkeeping columns the engine adds; a client that sends one of them makes the INSERT name it twice. */
  function Bookkeeping(op: Op, env: Env): Record {
    map k | k in {"clientOpId", "isOfflineCreated"} && k in SafeColumns(env) ::
      if k == "clientOpId" then One(Str(OpText(op.opId))) else One(Bool(true))
  }

  /** Attempts to set identity columns are logged before the row is written. */
  function Reported(s: Server, op: Op, env: Env): Server {
    var over := Overrides(op, env.access);
    if over == {} then s else Logged(s, op, ServerStamped, map k | k in over && k in op.data :: op.data[k], map[], over)
  }

  function Inserted(s: Server, op: Op, env: Env): (r: (Server, Result))
    ensures Names(r.1, op) && r.1.kept == {}
  {
    var cols := InsertCols(op, env, NextNumber(s, op.entity));
    if Sanitize(op.data, SafeColumns(env)) + ServerStamp(op.entity, env.access) == map[] then (s, Refusal(op))
    else if env.fault == WriteFault || KeyOf(op) in s.rows || cols.Keys * Bookkeeping(op, env).Keys != {} then
      (Numbered(s, op), Refusal(op))
    else
      Succeeded(Written(Numbered(s, op), KeyOf(op), env.defaults + cols + Bookkeeping(op, env), op.opId),
                op, Applied, {})
  }

  function Created(s: Server, op: Op, env: Env): (r: (Server, Result))
    ensures Names(r.1, op) && r.1.kept == {}
  {
    if op.kind == Patch then (s, Refusal(op)) else Inserted(Reported(s, op, env), op, env)
  }

  function Changed(existing: Record, payload: Record, cols: set<string>): Record {
    var p := Sanitize(payload, cols);
    map k | k in p && !SameValue(Get(existing, k), p[k]) :: p[k]
  }

  function Updated(s: Server, op: Op, env: Env, row: Row): (r: (Server, Result))
    ensures Names(r.1, op)
  {
    var cols := SafeColumns(env);
    var incoming := Sanitize(op.data, cols);
    var existing := ReadRow(row, cols);
    var action := Resolve(op.entity, IsApproved(existing, op.entity));
    if action == RejectOp then
      (Logged(s, op, RejectedLog, incoming, existing, incoming.Keys),
       Refusal(op).(serverRecord := Some(existing)))
    else if action == KeepServer then
      (Logged(s, op, ServerWinsLog, incoming, existing, incoming.Keys),
       Result(op.opId, op.recordId, Conflict, None, None, Some(existing), incoming.Keys))
    else Amended(s, op, env, row, action == Merge, MetaOf(op.entity))
  }

  /** The write half of an update: field-wise merge (`merge`) or the client's fields as they are. */
  function Amended(s: Server, op: Op, env: Env, row: Row, merge: bool, meta: Meta): (r: (Server, Result))
    ensures Names(r.1, op)
  {
    var incoming := Sanitize(op.data, SafeColumns(env));
    var existing := ReadRow(row, SafeColumns(env));
    Settled(s, op, env.fault, row, incoming, existing, ChangedBy(row, op, env, merge, meta),
            if merge then MergedIn else Applied, if merge then KeptFromServer(incoming, meta) else {})
  }

  /** The columns an update would change, with their new values. */
  function ChangedBy(row: Row, op: Op, env: Env, merge: bool, meta: Meta): Record {
    var existing := ReadRow(row, SafeColumns(env));
    Changed(existing, Payload(existing, Sanitize(op.data, SafeColumns(env)), merge, meta), SafeColumns(env))
  }

  function Settled(s: Server, op: Op, fault: Fault, row: Row, incoming: Record, existing: Record, changed: Record,
                   outcome: Outcome, kept: set<string>): (r: (Server, Result))
    ensures Names(r.1, op)
  {
    if changed == map[] && kept != {} then
      (Logged(s, op, ServerWinsLog, incoming, existing, kept),
       Result(op.opId, op.recordId, Conflict, None, None, Some(existing), kept))
    else if changed == map[] then Succeeded(s, op, Applied, {})
    else if fault == WriteFault then (s, Refusal(op))
    else Succeeded(Written(s, KeyOf(op), row.cols + changed, op.opId), op, outcome, kept)
  }

  function Payload(existing: Record, incoming: Record, merge: bool, meta: Meta): Record {
    if merge then Merged(existing, incoming, meta) else incoming
  }

  function Erased(s: Server, op: Op, env: Env): (r: (Server, Result))
    ensures Names(r.1, op) && r.1.kept == {}
  {
    if "deletedAt" !in SafeColumns(env) then (s, Refusal(op))
    else if KeyOf(op) !in s.rows then (s, Result(op.opId, op.recordId, Applied, None, None, None, {}))
    else
      var row := s.rows[KeyOf(op)];
      if IsApproved(ReadRow(row, SafeColumns(env)), op.entity) && !env.access.facilityWide then (s, Refusal(op))
      else if env.fault == WriteFault then (s, Refusal(op))
      else Succeeded(Written(s, KeyOf(op), row.cols["deletedAt" := env.now], op.opId), op, Applied, {})
  }

  /** What a request does once it is past the duplicate check, in the state it then finds. */
  function Processed(s: Server, op: Op, env: Env): (r: (Server, Result))
    ensures Names(r.1, op)
  {
    if !Admitted(op, env.access) || env.inScope == Some(false) || env.fault == QueryFault then (s, Refusal(op))
    else if op.kind == Delete then Erased(s, op, env)
    else if KeyOf(op) in s.rows && SafeColumns(env) != {} then Updated(s, op, env, s.rows[KeyOf(op)])
    else Created(s, op, env)
  }

  /** The answer to an operation that is already stamped. */
  function FirstAnswer(s: Server, op: Op): Result
    requires op.opId in s.stamps
  {
    var st := s.stamps[op.opId];
    Result(op.opId, op.recordId, st.outcome, Some(st.serverSeq), None, None, st.kept)
  }

  /** One delivery from start to end with nothing in between. */
  function Delivered(s: Server, op: Op, env: Env): (r: (Server, Result))
    ensures Names(r.1, op)
  {
    if !IsUuid(op.recordId) then (s, Refusal(op))
    else if op.opId in s.stamps then (s, FirstAnswer(s, op))
    else Processed(s, op, env)
  }

  // ---- a batch ----

  const MAX_OPS := 500

  predicate Between(lo: nat, text: string, hi: nat) { lo <= |text| <= hi }

  /** The request schema's bounds on one operation. */
  predicate FitsSchema(op: Op) { Between(8, OpText(op.opId), 64) && Between(8, op.recordId, 64) }

  /** The request schema and `validatePush` on one operation. */
  predicate WellFormed(op: Op) {
    && FitsSchema(op)
    && (op.kind == Delete ==> MetaOf(op.entity).clientGeneratedIds)
    && (op.kind == Patch ==> op.data != map[])
  }

  /** A batch that is not turned down as a whole, in a request of the current schema version from a known device and
      user. */
  ghost predicate ValidBatch(ops: seq<Op>) {
    && 1 <= |ops| <= MAX_OPS
    && (forall i :: 0 <= i < |ops| ==> WellFormed(ops[i]))
    && (forall i, j :: 0 <= i < j < |ops| ==> ops[i].opId != ops[j].opId)
  }

  function DeliveredAll(s: Server, ops: seq<Op>, envs: seq<Env>): (r: (Server, seq<Result>))
    requires |ops| == |envs|
    ensures |r.1| == |ops|
    decreases ops
  {
    if ops == [] then (s, [])
    else
      var last := |ops| - 1;
      var before := DeliveredAll(s, ops[..last], envs[..last]);
      var now := Delivered(before.0, ops[last], envs[last]);
      (now.0, before.1 + [now.1])
  }
}
