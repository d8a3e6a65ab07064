/** What travels between device and server (packages/domain/src/sync.ts: `ChangeOp`, `PushResult`, `PullChange`). */
module SyncProtocol {
  import opened Prelude
  import opened Values
  import opened SyncMeta

  /** Ids come from an injective supply; forcing a conflict derives a new id from the old one. */
  datatype OpId = Issued(n: nat, text: string) | Forced(of: OpId)

  /** The id as it is sent. */
  function OpText(o: OpId): string {
    match o
    case Issued(_, text) => text
    case Forced(of) => OpText(of) + "-forced"
  }

  datatype Kind = Upsert | Patch | Delete

  datatype Op = Op(opId: OpId, entity: Entity, recordId: string, kind: Kind, data: Record, timestamp: int)

  datatype Outcome = Applied | MergedIn | Conflict | Rejected | Deduplicated

  predicate OkOutcome(o: Outcome) { o == Applied || o == MergedIn || o == Deduplicated }

  datatype Result = Result(opId: OpId, recordId: string, outcome: Outcome,
                           serverSeq: Option<nat>, serverVersion: Option<nat>,
                           serverRecord: Option<Record>, kept: set<string>)

  datatype Key = Key(entity: Entity, id: string)

  datatype Change = Change(seqNo: nat, key: Key, version: nat, deleted: bool, data: Record)

  datatype PullReply = FullResync | Page(changes: seq<Change>, cursor: nat, hasMore: bool)
}
