/**
 The synchronised entities and their merge policies (packages/domain/src/sync.ts: `SYNC_META`,
 `mergeFieldwise`, `resolveConflict`), shared by server and device.
 */
module SyncMeta {
  import opened Values
  import opened AppendMerge

  datatype Entity =
    | WorkOrder | WorkOrderLog | LaborEntry | PartIssue | ShiftLog | ProcessParam | Downtime | AlarmAck
    | LabSample | LabResult | Permit | Asset | AssetReading | PmPlanInstance | AttendancePunch
    | LeaveRequest | MobileFormRecord | Document | NotificationAck

  datatype Policy = ServerWins | FieldMerge | AppendOnly | Reject

  datatype Meta = Meta(merge: Policy, pushPriority: nat, clientGeneratedIds: bool,
                       protectedFields: set<string>, appendFields: set<string>, restOnly: bool)

  function Plain(merge: Policy, pushPriority: nat, clientGeneratedIds: bool): Meta {
    Meta(merge, pushPriority, clientGeneratedIds, {}, {}, false)
  }

  function MetaOf(e: Entity): Meta {
    match e
    case WorkOrder => Meta(FieldMerge, 2, true,
      {"status", "approverId", "partsCost", "laborCost", "contractorCost", "assetId", "targetEndAt"}, {"description"},
          false)
    case WorkOrderLog => Plain(AppendOnly, 1, true)
    case LaborEntry => Plain(AppendOnly, 2, true)
    case PartIssue => Plain(Reject, 1, false)
    case ShiftLog => Meta(FieldMerge, 1, true, {"status", "approvedById", "approvedAt"}, {"notes", "eventsJson"}, false)
    case ProcessParam => Plain(AppendOnly, 2, true)
    case Downtime => Meta(FieldMerge, 1, true, {"verifiedById", "verifiedAt"}, {"causeNotes"}, false)
    case AlarmAck => Plain(AppendOnly, 1, true)
    case LabSample => Meta(FieldMerge, 2, true, {"status", "workOrderId"}, {}, false)
    case LabResult => Meta(FieldMerge, 2, true, {"verifiedById", "verifiedAt"}, {"remarks"}, false)
    case Permit => Meta(Reject, 1, true, {"status", "areaApproverId", "hseApproverId", "closedAt"}, {}, false)
    case Asset => Plain(ServerWins, 3, false)
    case AssetReading => Plain(AppendOnly, 2, true)
    case PmPlanInstance => Plain(ServerWins, 2, false)
    case AttendancePunch => Plain(AppendOnly, 3, true)
    case LeaveRequest => Meta(FieldMerge, 3, true, {"status", "approverUserId", "decidedAt"}, {}, false)
    case MobileFormRecord => Plain(AppendOnly, 1, true)
    case Document => Plain(AppendOnly, 3, true).(restOnly := true)
    case NotificationAck => Plain(AppendOnly, 3, false)
  }

  // ---- mergeFieldwise ----

  /** The client's field `k` reaches the merged record. */
  predicate Takes(client: Record, k: string, meta: Meta) {
    k in client && k !in meta.protectedFields && !IsBlank(client[k])
  }

  function MergedField(server: Record, client: Record, k: string, meta: Meta): Value {
    if !Takes(client, k, meta) then Get(server, k)
    else if k in meta.appendFields then Appended(Get(server, k), client[k])
    else client[k]
  }

  function Merged(server: Record, client: Record, meta: Meta): (r: Record)
    ensures forall k :: k in r <==> k in server || Takes(client, k, meta)
  {
    map k | k in server.Keys + client.Keys && (k in server || Takes(client, k, meta)) ::
        MergedField(server, client, k, meta)
  }

  function KeptFromServer(client: Record, meta: Meta): set<string> {
    client.Keys * meta.protectedFields
  }

  predicate Conflicts(server: Record, client: Record, meta: Meta) {
    exists k :: k in KeptFromServer(client, meta) && !IsBlank(Get(server, k)) && Get(server, k) != client[k]
  }

  /** The loop of the source; `Object.entries` order does not matter to any of the three results. */
  method MergeFieldwise(server: Record, client: Record, meta: Meta)
    returns (merged: Record, kept: set<string>, conflict: bool)
    ensures merged == Merged(server, client, meta)
    ensures kept == KeptFromServer(client, meta)
    ensures conflict == Conflicts(server, client, meta)
  {
    merged, kept, conflict := server, {}, false;
    var todo := client.Keys;
    while todo != {}
      invariant todo <= client.Keys
      invariant forall k :: k in merged <==> k in server || (k !in todo && Takes(client, k, meta))
      invariant forall k :: k in merged ==>
                  merged[k] == if k in todo then Get(server, k) else MergedField(server, client, k, meta)
      invariant kept == KeptFromServer(client, meta) - todo
      invariant conflict <==> exists k :: k in kept && !IsBlank(Get(server, k)) && Get(server, k) != client[k]
    {
      var key :| key in todo;
      todo := todo - {key};
      var clientVal := client[key];
      if key in meta.protectedFields {
        if !IsBlank(Get(server, key)) && Get(server, key) != clientVal { conflict := true; }
        kept := kept + {key};
      } else if IsBlank(clientVal) {
      } else if key in meta.appendFields {
        var v := AppendValue(Get(server, key), clientVal);
        merged := merged[key := v];
      } else {
        merged := merged[key := clientVal];
      }
    }
  }

  lemma {:induction false} RecordExt(a: Record, b: Record)
    requires a.Keys == b.Keys && forall k :: k in a ==> a[k] == b[k]
    ensures a == b
  {}

  /** What a field-level merge leaves: protected fields the server's, the rest the client's unless blank. */
  lemma {:induction false} MergeGuards(server: Record, client: Record, meta: Meta)
    ensures forall k :: k in meta.protectedFields ==> Get(Merged(server, client, meta), k) == Get(server, k)
    ensures forall k :: k in client && k !in meta.protectedFields && k !in meta.appendFields && !IsBlank(client[k]) ==>
              Get(Merged(server, client, meta), k) == client[k]
    ensures forall k :: IsBlank(Get(client, k)) ==> Get(Merged(server, client, meta), k) == Get(server, k)
  {}

  /** Merging the same client copy twice is merging it once. */
  lemma {:induction false} MergeTwiceIsOnce(server: Record, client: Record, meta: Meta)
    ensures Merged(Merged(server, client, meta), client, meta) == Merged(server, client, meta)
  {
    var once := Merged(server, client, meta);
    var twice := Merged(once, client, meta);
    forall k | k in twice ensures twice[k] == once[k] {
      if Takes(client, k, meta) && k in meta.appendFields {
        AppendIdempotent(Get(server, k), client[k]);
      }
    }
    assert twice.Keys == once.Keys;
    RecordExt(twice, once);
  }

  // ---- resolveConflict ----

  datatype Action = ApplyClient | Merge | KeepServer | RejectOp

  function Resolve(e: Entity, serverApproved: bool): Action {
    var meta := MetaOf(e);
    if serverApproved && meta.protectedFields != {} then
      if meta.merge == FieldMerge then Merge else KeepServer
    else match meta.merge
      case AppendOnly => ApplyClient
      case FieldMerge => Merge
      case ServerWins => KeepServer
      case Reject => RejectOp
  }

  /** When each answer is given: approval matters only to records that are otherwise rejected. */
  lemma {:induction false} ResolveByPolicy(e: Entity, approved: bool)
    ensures Resolve(e, approved) == Merge <==> MetaOf(e).merge == FieldMerge
    ensures Resolve(e, approved) == ApplyClient <==> MetaOf(e).merge == AppendOnly
    ensures Resolve(e, approved) == KeepServer <==> MetaOf(e).merge == ServerWins || (e == Permit && approved)
    ensures Resolve(e, approved) == RejectOp <==> e == PartIssue || (e == Permit && !approved)
  {
    assert "status" in MetaOf(Permit).protectedFields;
  }
}
