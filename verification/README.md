# Verified model of the field-operations platform

The repository is the back end and shared domain library of a plant-operations system: field devices keep working
without a network, queue their edits, push them when a link appears and pull what others changed; around that stand work
orders, a laboratory, a document upload queue, a rate limiter, refresh tokens and attendance arithmetic. This project models
those parts in Dafny and proves what holds of them over every input, every run and every interleaving.

`dafny verify dfyconfig.toml` checks the whole project.

## How it is built

Code that changes state step by step is a class or a method, proved equal to a function of the old state; what the design
promises is then proved about those functions, over whole runs, as lemmas.

| layer | files |
|---|---|
| vocabulary | `Prelude`, `Sorting` (the stable sort of `Array.prototype.sort`, by what it promises), `Values`, `Text` |
| merge algebra | `AppendMerge`, `PulledNotes` (append fields over pulls), `SyncMeta` |
| sync protocol | `SyncProtocol`, `PushPlan`, `SyncServer` (deliveries as functions), `SyncEngine` (the service), `SyncServerLaws`, `SyncOverlap`, `SyncFeed` |
| device | `SyncDevice` (functions), `SyncClient` (store and client classes), `SyncClientLaws`, `SyncDeviceLaws` |
| whole system | `SyncSystem` (devices, server and lossy network as one state machine), `SyncSystemLaws`, `SyncCursorLaws`, `SyncOutboxLaws`, `SyncExamples` and `SyncConflictExamples` (runs that go wrong) |
| work orders | `WorkOrders`, `WorkOrderLaws`, `WorkOrderLogs` (the log devices write too), `WorkOrderArrivals` and `WorkOrderLogPushes` (what pushes do to both tables) |
| laboratory | `LabRules`, `LabService`, `LabLaws` |
| queues and budgets | `UploadQueue`, `UploadRounds`, `RateLimit`, `TokenFamilies` |
| attendance | `Attendance` |

In `SyncSystem` any request may be lost, delayed, repeated or reordered and any reply lost; the server works on many requests at
once: each passes the duplicate check, and later, after anything else may have happened, runs its statements, any of which may
fail; other parts of the back end may write anything except stamps; users edit, restart the app and decide conflicts at any
moment. `Reachable` is what some such run leads to.

## Assumptions

- What an operation does behind the duplicate check (scope query, row read, conflict log, data statement with its triggers,
  idempotency stamp) is one atomic step; the duplicate check is a step before it, and requests overlap between the two.
  `AtMostOnceIff` says when that runs a statement twice, `OverlapCanRepeat` shows it. Every row update bumps `version`
  (docs/02-database-schema.md:140), and the change feed is appended in ascending sequence order.
- What a session may see in the feed is an arbitrary fixed predicate; what it may touch is the value of the scope query
  (`inScope`), which for an UPSERT may be "no opinion" even for a foreign row.
- A device runs one sync cycle at a time; a request answered with an error status throws.
- Operation ids, family ids and token secrets come from injective supplies. Instants are integers.
- The `id` column is not a data key. Where a law depends on it, `deletedAt` among a client's data keys is excluded by a premise.
- Between two calls the specification query lists rows of one date in the same order.
- Login, refresh, logout and password change are atomic; `InterleavedRefreshForks` shows what happens otherwise.
- In runs of work orders, pushes may create orders in any status, edit other columns, add log rows anywhere in time and rewrite any
  log row; `WorkOrderArrivals` and `WorkOrderLogPushes` show from the sync engine that they can.
- Laboratory calls are atomic; `InterleavedEntryStaysOpen` shows what happens otherwise.
- Of the CHECKs on work orders those on the columns a move touches are modelled (`RowOk`); any other refusal of a statement is
  a fault that may strike at any time.

## What turned out false of the code

Each of these is a lemma: an input or run where the expected claim fails, and the exact condition under which it holds.

- A push reply moves the pull cursor to the server's head, so changes other devices made meanwhile are skipped for good
  (`PushCanJumpOverChange`, `PassedIsLost`); "everything up to the cursor was pulled" holds exactly when no last push reply found
  a visible, unpulled change between the old cursor and the new one (`LastReplySkipsIff`, over runs `EverythingPulledIff`).
- A re-sent operation runs its statement again exactly when two of its requests were past the duplicate check together and
  the second one's guards still let it write (`AtMostOnceIff`, `OverlapCanRepeat`). Not overlapping is enough (`OnceIfOneAtATime`).
- One malformed operation in the outbox makes the server turn its whole batch down, for ever: the device never pulls again
  (`MalformedOpStopsSync`). A cycle can get through exactly when no operation is malformed (`CycleCanPassIff`). Deleting an asset
  is enough (`DeletedAssetStopsSync`), and so is choosing "keep mine" on one conflict until its id, seven characters longer each
  time, outgrows the 64 the request schema allows (`ForcedIdFitsIff`, `KeepMineWearsOut`).
- No server answer ever clears a conflict from the review list, because the server never answers DEDUPLICATED
  (`ConflictWaitsForUser`; `StatusPatchConflicts` reaches one). After a restart, conflicts of anything but work orders are filed
  under the wrong record (`ConflictFiledRightIff`, `RestartMisfiles`), and so are conflicts over a kept copy without any restart
  (`ForcedConflictFiledRightIff`, `KeptCopyMisfiled`).
- A conflict gives the copy its user keeps one id. A second decision on the same conflict is queued exactly when nothing waits under
  that id (`KeptCopyIsQueuedIff`, `ListedAgain`) and written exactly when nothing was stamped under it
  (`KeptCopyIsWrittenIff`, `SecondCopyIsLost`).
- Merging a list into a text drops the list (`MergeLosesIffShapesDiffer`, `TextSwallowsItem`); on a device the first text pulled over
  a list leaves its own lines and no item (`FirstTextDropsList`). Replaying a run of lists changes an append field exactly when
  the device held a text of mere space and the first items do not come again (`ReplayKeepsNotesIff`, `ReplayMayBringItems`).
- A demanded full resync is demanded again for ever exactly when the first page from zero is full, or nothing later is visible
  (`ResyncForeverIff`, `ResyncMayNeverEnd`).
- Reopening a finished work order fails at the table's CHECK exactly when its new start lies after the recorded end: without a
  start time in the request, always, once that end is past (`ReopeningWorksIff`, `ReopeningMayFail`).
- The log of a work order is a path to its status exactly as long as no pushed row changes the steps it shows (`LogIsPathIff`): a
  pushed row that names two statuses always breaks it (`PushedStepBreaks`, `LogMayLie`). What really happened is a path in every
  run (`MovesArePath`).
- Whether a closed work order has passed its milestones and holds its approver depends on where it began: orders opened over REST
  do, and so do orders that arrived from a device as DRAFT, SUBMITTED, CANCELLED or REJECTED; every other status of arrival allows a
  run to CLOSED without approval (`ArrivalClosesCompleteIff`), and every status does arrive (`AnyStatusArrives`).
- A certificate may print a rejected result as verified (`VerifyPublishesRejectedIff`, `RejectedResultMayBeCertified`). A rejected
  sample can never leave that status exactly when none of its results is open (`RejectedForGoodIff`, `RejectedForGoodHappens`).
  Severity grows with the distance from the limit exactly when both limits give the same severity or there is only one
  (`SeverityGrowsIff`, `FartherMayBeMilder`).
- Starting an upload round is safe exactly when no running round still has to offer one of its documents (`StartIsSafeIff`). Calls
  that waited for the same round break this: a document is uploaded twice, or waits again after it was uploaded
  (`WaitersCollide`). Documents that keep failing starve newer ones (`SameRoundAgainIff`, `NewerStarves`).
- Logging out with an old token leaves the family's live one (`LogoutEndsFamilyIff`, `OldLogoutLeavesSession`).
- The rate limiter's table lists paths without the application's global prefix, so no request to a served path is ever counted or
  refused (`ServedRunsPass`); the bounds below hold of the listed paths.

Two promises hold more widely than documented: the printed verdict equals the recorded one for every value, whatever its decimals,
because limits lie on the grid values are rounded to; and a day's evaluation ignores the order of simultaneous punches too.

## Model

| member | source | states |
|---|---|---|
| Text.LinesOfJoin | packages/domain/src/sync.ts:217-247 | joining clean lines and splitting the text again gives the same lines: text and line list carry the same content |
| AppendMerge.AppendValue | packages/domain/src/sync.ts:217-247 | the accumulating loop computes the merge the laws below are about |
| AppendMerge.TextMergeKeepsBothSides | packages/domain/src/sync.ts:217-247 | merged notes start with the server's lines in order, hold every line of both sides, and the client adds no duplicate |
| AppendMerge.ListMergeKeepsBothSides | packages/domain/src/sync.ts:217-247 | merged lists hold every key of either side once, server items first |
| AppendMerge.AppendIdempotent | packages/domain/src/sync.ts:217-247 | sending the same value again changes nothing, whatever the shapes |
| AppendMerge.AppendAssociative | packages/domain/src/sync.ts:217-247 | merging in two stages or in one is the same, whatever the shapes |
| AppendMerge.AppendIsJoin | packages/domain/src/sync.ts:217-247 | forgetting order, a merge is the join of a semilattice |
| AppendMerge.DeviceOrderIrrelevant | packages/domain/src/sync.ts:217-247 | devices merged in any order and with any repeats leave the same set of lines or keys |
| AppendMerge.MergeLosesIffShapesDiffer | packages/domain/src/sync.ts:217-247 | a merge keeps all content of both sides exactly when the shapes agree or the text already holds what the list held |
| AppendMerge.TextSwallowsItem | packages/domain/src/sync.ts:217-247 | an input for which it does not: a list's item meets a text without it and is gone |
| SyncMeta.MergeFieldwise | packages/domain/src/sync.ts:183-208 | the field loop yields the merged record, the fields kept from the server and whether any of them conflicted |
| SyncMeta.MergeGuards | packages/domain/src/sync.ts:183-208 | protected and blank client fields leave the server's value; other free fields take the client's |
| SyncMeta.MergeTwiceIsOnce | packages/domain/src/sync.ts:183-208 | merging the same client record twice equals merging it once |
| SyncMeta.ResolveByPolicy | packages/domain/src/sync.ts:250-272 | which decision each entity gets, as if-and-only-if per decision, approved or not |
| PushPlan.PlanPushBatches | packages/domain/src/sync.ts:297-303 | the slicing loop terminates and yields the planned batches |
| PushPlan.PlanPermutesAndSorts | packages/domain/src/sync.ts:297-303 | laid end to end the batches are a permutation of the queue, ascending in priority and time; none is empty or too long |
| PushPlan.SameRecordKeepsOrder | packages/domain/src/sync.ts:297-303 | two edits of one record made in time order keep their order across all batches |
| SyncEngine.Engine.ApplyOp | apps/api/src/sync/sync-engine.service.ts:111-166 | one delivery leaves exactly the state and answer that `SyncServer.Delivered` gives and the laws are proved of |
| SyncEngine.Engine.Create | apps/api/src/sync/sync-engine.service.ts:222-285 | the create path: overrides logged, identity stamped, number drawn even if the INSERT then fails, row written, stamped |
| SyncEngine.Engine.Update | apps/api/src/sync/sync-engine.service.ts:287-322 | the update path for each policy, with what is logged, written, kept and answered |
| SyncEngine.Engine.ApplyDelete | apps/api/src/sync/sync-engine.service.ts:325-337 | the delete path, including the unstamped answer for a missing row |
| SyncEngine.Engine.Success | apps/api/src/sync/sync-engine.service.ts:340-364 | the first answer is stamped and never replaced; kept fields are logged |
| SyncEngine.Engine.Validate | packages/domain/src/sync.ts:280-292 | a batch is valid exactly when it holds 1 to 500 operations, each is well formed and within the request schema's bounds, and no id repeats |
| SyncEngine.Engine.Push | apps/api/src/sync/sync-engine.service.ts:88-109 | an invalid batch changes nothing; a valid one is delivered operation by operation, and the reply carries the head |
| SyncServerLaws.PushIsRun | apps/api/src/sync/sync-engine.service.ts:98-101 | a push is the history of its operations, with the answers of that history: laws of histories are laws of pushes |
| SyncServerLaws.NormalForm | apps/api/src/sync/sync-engine.service.ts:111-364 | every delivery either only logs, acknowledges, or performs one write of a legal form, and answers accordingly |
| SyncServerLaws.EffectAtMostOnce | apps/api/src/sync/sync-engine.service.ts:123-135 | over every history each operation's data statement runs at most once, and if it ran the operation is stamped |
| SyncServerLaws.OkMeansStamped | apps/api/src/sync/sync-engine.service.ts:325-364 | a success answer means the operation is stamped, or it deleted a row that is not there and nothing changed |
| SyncServerLaws.RetransmissionInvisible | apps/api/src/sync/sync-engine.service.ts:123-135 | striking every re-send of a stamped operation out of a history gives the same tables, logs, feed, numbers and stamps |
| SyncServerLaws.ResendGetsFirstAnswer | apps/api/src/sync/sync-engine.service.ts:123-135 | whatever happened in between, a re-send gets the first outcome, sequence and kept fields, and changes nothing |
| SyncServerLaws.UnacceptedIsRetried | apps/api/src/sync/sync-engine.service.ts:340-364 | a delivery stamps its operation exactly when it is answered with success and a sequence number |
| SyncServerLaws.PushNeverWritesGuarded | apps/api/src/sync/sync-engine.service.ts:287-322 | over every history, denied columns, protected columns of field-merged rows and all columns of server-owned or rejected rows keep their values |
| SyncServerLaws.AppendOnlyNeverDeleted | apps/api/src/sync/sync-engine.service.ts:148-150 | over every history of deletes and of data not naming `deletedAt`, an append-only row is never marked deleted |
| SyncServerLaws.UpdateShowsMerge | apps/api/src/sync/sync-engine.service.ts:287-322 | after an accepted update each safe column shows the field-wise merge of row and client, every other column is untouched |
| SyncServerLaws.CreationIsStamped | apps/api/src/sync/sync-engine.service.ts:226-285 | a created row carries the session's identity and the next number whatever the client sent, and the client's other columns as they are |
| SyncServerLaws.KeptFieldsAreLogged | apps/api/src/sync/sync-engine.service.ts:303-322 | fields an answer reports as kept are in the conflict log as one line for the record, and for a field-merged entity they are exactly the protected fields sent |
| SyncServerLaws.DeletionOnlyMarks | apps/api/src/sync/sync-engine.service.ts:325-337 | an accepted deletion sets `deletedAt` and touches nothing else of the row, nor any other row |
| SyncOverlap.ProcessedWritesIff | apps/api/src/sync/sync-engine.service.ts:137-337 | a request past the duplicate check runs its data statement exactly when its guards let it, whether or not the operation is stamped by then |
| SyncFeed.WindowExact | apps/api/src/sync/sync-engine.service.ts:381-403 | a window holds exactly the visible changes of its interval, ascending, once each |
| SyncFeed.PageIsWindow | apps/api/src/sync/sync-engine.service.ts:375-425 | a page holds exactly the visible changes between the old and the new cursor, and `hasMore` tells whether any follow |
| SyncFeed.ResyncIffFarBehind | apps/api/src/sync/sync-engine.service.ts:412-425 | a page request is answered with a full resync exactly when the cursor and every change of the page lie more than 500 000 below the head |
| SyncFeed.ResyncForeverIff | apps/api/src/sync/sync-engine.service.ts:412-425 | a demanded resync is demanded again at every later state exactly when the first page from zero is full or nothing later is visible |
| SyncFeed.ResyncMayNeverEnd | apps/api/src/sync/sync-engine.service.ts:412-425 | for every page limit a feed on which this happens |
| SyncClient.MemoryStore.AddPending | packages/domain/src/client.ts:520-524 | an operation is queued once per id |
| SyncClient.MemoryStore.ResolvePending | packages/domain/src/client.ts:525-527 | exactly the operation of that id leaves the queue |
| SyncClient.MemoryStore.FailPending | packages/domain/src/client.ts:528-535 | only the first entry of that id counts one more attempt; order and contents stay |
| SyncClient.Client.Queue | packages/domain/src/client.ts:217-256 | a local edit is written and queued at once; for a REST-only entity nothing happens |
| SyncClient.Client.ApplyResults | packages/domain/src/client.ts:357-404 | the loop over answers has the effect of answering one after the other |
| SyncClient.Client.PushAll | packages/domain/src/client.ts:334-355 | batches are sent in turn; the cursor is stored only after the last reply, a failing request ends the cycle |
| SyncClient.Client.PullAll | packages/domain/src/client.ts:416-449 | pages are applied until none follow, the cap is reached or a request fails; the cursor is stored only at the end |
| SyncClient.Client.ResolveConflict | packages/domain/src/client.ts:277-291 | both decisions of the user, with what each leaves in records, review list and queue |
| SyncClientLaws.CleanPushEmptiesOutbox | packages/domain/src/client.ts:334-404 | if every batch gets through and every operation succeeds, the outbox is empty when the push ends |
| SyncDeviceLaws.PagedPullIsOneShot | packages/domain/src/client.ts:416-449 | for every page limit and cap, with others writing any amount between pages, a cycle leaves the replica of one unpaged pull of the interval, however it ends, and reports no more pages only at a head some page saw |
| SyncDeviceLaws.CycleResyncsIff | packages/domain/src/client.ts:416-449 | a cycle ends with a resync exactly when a request it reaches finds it too far behind |
| SyncDeviceLaws.InterruptedPullNeverSkips | packages/domain/src/client.ts:416-449 | an interrupted cycle keeps the cursor and has applied a prefix of the interval, so the next one can only re-apply |
| SyncDeviceLaws.RecordSeesItsChanges | packages/domain/src/client.ts:168-191 | each record's copy is determined by its own changes alone |
| PulledNotes.HoldsAfterRun | packages/domain/src/client.ts:168-191 | what an append field holds after a run (nothing, mere space, lines, items) depends only on what it held and the values pulled |
| SyncDeviceLaws.PullKeepsFieldWork | packages/domain/src/client.ts:168-191 | over any run of live changes to a field-merged record, free fields with content keep the device's value, every line survives, every item survives unless a text is pulled, protected fields equal the last change's |
| SyncDeviceLaws.FirstTextDropsList | packages/domain/src/client.ts:168-191 | the first text pulled over a list leaves exactly its own lines and no item |
| SyncDeviceLaws.RunFields | packages/domain/src/client.ts:168-191 | the fields after a run, in closed form; append fields by value and by what they hold, texts and lists alike |
| SyncDeviceLaws.ReplayChangesNothing | packages/domain/src/client.ts:168-191 | replaying a run changes at most append fields, of which every line stays and none comes, and, for a single change, `__localAhead` |
| SyncDeviceLaws.ReplayKeepsNotesIff | packages/domain/src/client.ts:168-191 | an append field holds the same after a replay if a pulled text settles it or the device held lines; if only lists are pulled, exactly when the device held no text of mere space or the first change's items come again |
| SyncDeviceLaws.ReplayMayBringItems | packages/domain/src/client.ts:168-191 | an input for which it does not: mere space swallows a list, a replay brings it back |
| SyncDeviceLaws.OtherPoliciesAdoptServer | packages/domain/src/client.ts:168-191 | for every other policy the copy is exactly the last live change |
| SyncDeviceLaws.ConflictFiledRightIff | packages/domain/src/client.ts:377-413 | a conflict is filed under its own record exactly when the client that queued the operation still lives or it was a work order's |
| SyncConflictExamples.RestartMisfiles | packages/domain/src/client.ts:377-413 | a reachable state in which a sample's conflict is filed under a work order |
| SyncDeviceLaws.LastPatchCarriesAll | packages/domain/src/client.ts:217-256 | after any run of patches of a record the device shows the last value written to each field, one operation per patch waits in order, and the last one carries everything shown |
| SyncDeviceLaws.DecisionHonoursChoice | packages/domain/src/client.ts:277-291 | after a conflict, "mine" re-sends the copy held when it arrived and "server" adopts the server's record; other queued operations stay |
| SyncDeviceLaws.KeptCopyIsQueuedIff | packages/domain/src/client.ts:277-291 | the copy a user keeps is queued exactly when nothing waits under the conflict's forced id, or this very copy does |
| SyncSystemLaws.KeptCopyIsWrittenIff | packages/domain/src/client.ts:286 | a delivery writes the kept copy exactly when nothing was stamped under its id before and the guards let it |
| SyncSystemLaws.SecondCopyIsLost | packages/domain/src/client.ts:286 | once something was, no delivery over any history writes it, yet it is answered with success |
| SyncConflictExamples.ListedAgain | packages/domain/src/client.ts:277-404 | a reachable state in which a conflict is listed while its kept copy still waits |
| SyncSystemLaws.ExactlyOnce | packages/domain/src/client.ts:277-404 | over every run, overlapping requests included, an operation that left the outbox is stamped, or deleted an absent row, or was closed by its user; one that ran is stamped; and it ran at most once exactly when no overlapping request wrote after it |
| SyncSystemLaws.AtMostOnceIff | apps/api/src/sync/sync-engine.service.ts:123-166 | a statement runs at most once in a run exactly when no request in hand goes on to write after the operation ran |
| SyncSystemLaws.OnceIfOneAtATime | apps/api/src/sync/sync-engine.service.ts:123-166 | if no two requests work on an operation at the same time its statement runs at most once |
| SyncExamples.OverlapCanRepeat | apps/api/src/sync/sync-engine.service.ts:123-166 | a reachable state in which a deletion ran twice |
| SyncSystemLaws.AnswersKeepPending | packages/domain/src/client.ts:357-404 | answers take out of the outbox only what they call done |
| SyncCursorLaws.CursorAccounting | packages/domain/src/client.ts:334-355 | in every reachable state each visible change at or below the cursor was applied by a pull or lies in an interval jumped by a push reply; pulls applied nothing else |
| SyncCursorLaws.LastReplySkipsIff | packages/domain/src/client.ts:350-354 | after the last push reply everything up to the cursor is pulled exactly when it was before and no visible unpulled change lies between the old and the new cursor |
| SyncCursorLaws.EverythingPulledIff | packages/domain/src/client.ts:350-354 | over every run from a reachable state, everything up to the cursor is pulled at the end exactly when no last reply skipped a visible unpulled change since the last cursor reset |
| SyncCursorLaws.EmptyCyclesNeverJump | packages/domain/src/client.ts:334-336 | over every run whose cycles start with an empty outbox no interval is jumped |
| SyncCursorLaws.PassedIsLost | packages/domain/src/client.ts:416-449 | over every run without a cursor reset, whether a change at or below the cursor was applied never changes any more |
| SyncExamples.PushCanJumpOverChange | packages/domain/src/client.ts:350-354 | a reachable state in which an accepted push moved the cursor over a visible change made elsewhere that was never pulled |
| SyncOutboxLaws.CycleCanPassIff | packages/domain/src/sync.ts:275-295 | in every reachable state all batches of a cycle are acceptable, to the request schema too, exactly when every queued operation is well formed |
| SyncOutboxLaws.MalformedOpStopsSync | packages/domain/src/client.ts:297-316 | over every run without a full resync by hand (or a decision on the overlong forced operation itself), a malformed queued operation stays queued, the cursor stands still and nothing is pulled |
| SyncExamples.DeletedAssetStopsSync | packages/domain/src/client.ts:217-256 | one deletion of an asset reaches such a state |
| SyncOutboxLaws.ForcedIdFitsIff | packages/domain/src/client.ts:286 | after k decisions to keep a copy the id is 7k characters longer and fits the request schema exactly up to 64 |
| SyncConflictExamples.KeepMineWearsOut | packages/domain/src/client.ts:277-291 | from any reachable conflict, enough decisions to keep the copy reach a state in which the device is stuck |
| SyncOutboxLaws.ConflictWaitsForUser | packages/domain/src/client.ts:367-375 | over every run a conflict stays listed until its user decides it |
| SyncConflictExamples.StatusPatchConflicts | apps/api/src/sync/sync-engine.service.ts:287-312 | a reachable state with such a conflict: a status set offline on a record the server has |
| SyncOutboxLaws.ClientRemembers | packages/domain/src/client.ts:217-256 | in every reachable state the client object files what it knows under the right entity, and it knows no forced operation |
| SyncOutboxLaws.ForcedConflictFiledRightIff | packages/domain/src/client.ts:377-413 | in every reachable state a conflict over a kept copy is filed under its own record exactly when that is a work order |
| SyncConflictExamples.KeptCopyMisfiled | packages/domain/src/client.ts:377-413 | a reachable state in which a kept sample's conflict is filed under a work order |
| WorkOrders.AllowedIffCan | packages/domain/src/workorder.ts:71-79 | the list shown to a refused caller holds exactly the moves that would be allowed |
| WorkOrders.WorkOrderService.Create | apps/api/src/workorder/work-order.service.ts:33-66 | an order starts as a draft with its first log row, or nothing happens |
| WorkOrders.WorkOrderService.Check | apps/api/src/workorder/work-order.service.ts:206-232 | the checks before the update, in their order, with the first missing requirement reported |
| WorkOrders.WorkOrderService.Commit | apps/api/src/workorder/work-order.service.ts:234-262 | the version-guarded update with every stamped field and its log row; a stale version or a row the table's CHECKs refuse changes nothing |
| WorkOrders.WorkOrderService.Transition | apps/api/src/workorder/work-order.service.ts:206-273 | undisturbed, a request that passes the checks is applied to the row it was checked against, unless the table refuses the moved row |
| WorkOrderLaws.CommitAppliesIff | apps/api/src/workorder/work-order.service.ts:234-250 | no lost update: over every run a checked request commits exactly when nothing updated the order since it was read and its times are in order; an update in between makes it stale |
| WorkOrderLaws.ReopeningWorksIff | apps/api/prisma/migrations/20260907000001_postgres_extensions_views_rls/migration.sql:213-214 | in every run reopening a finished order commits exactly when the new start is not after the recorded end |
| WorkOrderLaws.ReopeningMayFail | apps/api/src/workorder/work-order.service.ts:206-250 | a run to COMPLETED whose reopening passes every check and is refused by the table |
| WorkOrderLaws.MovesArePath | apps/api/src/workorder/work-order.service.ts:251-259 | in every run, whatever devices push, the service's moves of every order are a connected path of permitted edges from where it began to its status, with a permit seen wherever one is needed to start, and its row satisfies the CHECKs |
| WorkOrderLogs.LogIsPathIff | apps/api/src/workorder/work-order.service.ts:251-259 | over every run the log shows such a path throughout exactly when no pushed row changes the steps it shows of the order |
| WorkOrderLogs.LogIsHistory | apps/api/src/workorder/work-order.service.ts:251-259 | and then it shows exactly the moves |
| WorkOrderLogs.PushKeepsPathIff | apps/api/src/sync/sync-engine.service.ts:287-322 | a row added or rewritten anywhere leaves a log that tells the path telling it exactly when it leaves the order's steps as they were |
| WorkOrderLogs.PushedStepBreaks | apps/api/src/sync/sync-engine.service.ts:226-285 | a pushed row that records a step always breaks the log |
| WorkOrderLogs.ServiceKeepsTelling | apps/api/src/workorder/work-order.service.ts:234-262 | what the service does neither breaks a log nor mends one |
| WorkOrderLogs.LogMayLie | apps/api/src/sync/sync-engine.service.ts:226-285 | a run to a draft whose log says that it is closed |
| WorkOrderLogPushes.LogRowIsInserted | apps/api/src/sync/sync-engine.service.ts:226-285 | any session that may push can add a log row to any order, with the statuses it sends |
| WorkOrderLogPushes.LogRowIsRewritten | apps/api/src/sync/sync-engine.service.ts:287-322 | and rewrite a log row that is there, whoever wrote it |
| WorkOrderLaws.ClosedOrderIsComplete | packages/domain/src/workorder.ts:33-69 | in every run a closed order opened over REST, or arrived in a status before approval, really passed SUBMITTED, APPROVED, ASSIGNED, IN_PROGRESS, COMPLETED in that order, whatever its log says, and holds approver, root cause and both times in order |
| WorkOrderLaws.ArrivalClosesCompleteIff | packages/domain/src/workorder.ts:33-69 | for each status of arrival: every closed order of every run is complete exactly when that status is DRAFT, SUBMITTED, CANCELLED or REJECTED |
| WorkOrderArrivals.ArrivingColumn | apps/api/src/sync/sync-engine.service.ts:226-285 | a pushed creation leaves in each column the server does not stamp the client's value if allowed, else the default |
| WorkOrderArrivals.ArrivesUnapproved | apps/api/src/sync/sync-engine.service.ts:226-285 | whatever a device sends, its order arrives without an approver |
| WorkOrderArrivals.CreatedAlone | apps/api/src/sync/sync-engine.service.ts:226-285 | a creation adds one row at version 1 and no other, so no log entry |
| WorkOrderArrivals.AnyStatusArrives | apps/api/src/sync/sync-engine.service.ts:226-285 | any session that may push can create an order in any status, CLOSED with its end time included |
| LabRules.SeverityGrowsIff | packages/domain/src/lab.ts:47-62 | severity grows with the distance from the bounds exactly when both limits give the same severity or there is only one |
| LabRules.FartherMayBeMilder | packages/domain/src/lab.ts:47-62 | bounds for which it does not: just above one limit is critical, any distance below the other is minor |
| LabRules.RoundingKeepsInSpec | packages/domain/src/lab.ts:36-44 | rounding on storage never turns an in-specification value out |
| LabService.LabDesk.SpecsFor | apps/api/src/lab/lab.service.ts:631-643 | the map built first-come first-kept gives for each parameter the specification in force |
| LabService.LabDesk.EnterResults | apps/api/src/lab/lab.service.ts:262-356 | all results are entered with their verdicts and cases, or, on an unknown parameter or overflow, nothing changes |
| LabService.LabDesk.VerifyResult | apps/api/src/lab/lab.service.ts:359-412 | the result is stamped for either decision and the sample's status follows from what is left unverified |
| LabService.LabDesk.UpdateOos | apps/api/src/lab/lab.service.ts:461-515 | a case moves only along its table, with the texts each target demands |
| LabService.LabDesk.Certificate | apps/api/src/lab/lab.service.ts:519-549 | a certificate issues exactly behind its gate and prints the verified results with the verdicts of the specification in force |
| LabLaws.CertificateGate | packages/domain/src/lab.ts:179-184 | in every run, an issued certificate's results are all verified, flagged ones have a case, and every case is rejected or closed with both texts |
| LabLaws.CertificateIsComplete | packages/domain/src/lab.ts:151-176 | a listing of verified results is printed in full, row for row |
| LabLaws.SpecIsNewest | apps/api/src/lab/lab.service.ts:631-643 | the bounds used are a newest applicable specification's not after collection; none exactly when none applies |
| LabLaws.PrintedEqualsRecorded | apps/api/src/lab/lab.service.ts:276-316 | in every run in which specifications are not back-dated past the sample's collection, a result prints PASS exactly when it was not recorded out of specification |
| LabLaws.RejectedForGoodIff | packages/domain/src/lab.ts:110-114 | a rejected sample stays rejected over every run exactly when none of its results is open |
| LabLaws.RejectedForGoodHappens | apps/api/src/lab/lab.service.ts:359-391 | creating a sample, entering one result and refusing it reaches that, for every such input |
| LabLaws.VerifyPublishesRejectedIff | apps/api/src/lab/lab.service.ts:359-391 | verifying a result makes the sample VERIFIED exactly when it was the last one open, and a rejected result is then published exactly when another one had been rejected |
| LabLaws.RejectedResultMayBeCertified | apps/api/src/lab/lab.service.ts:370-391 | a run at whose end a certificate issues with a rejected result among the verified ones |
| LabLaws.InterleavedEntryStaysOpen | apps/api/src/lab/lab.service.ts:369-388 | an entry between the count and the update of the last verification leaves the sample VERIFIED with an open result |
| UploadQueue.DocumentUploadQueue.DoFlush | packages/domain/src/documents.ts:251-289 | a round attempts exactly the oldest documents by (queuedAt, id), as many as max(1, limit) allows; attempted = uploaded + failed; deferred counts what still waits |
| UploadQueue.OldestIsUnique | packages/domain/src/documents.ts:258-261 | which documents a round attempts, and in which order, is determined by the store alone |
| UploadQueue.RoundConserves | packages/domain/src/documents.ts:263-285 | the documents removed are exactly those whose upload resolved; failed ones survive with one attempt more; nothing else is touched |
| UploadQueue.SuccessesAreRemovals | packages/domain/src/documents.ts:263-285 | the reported successes are the shrinkage of the store |
| UploadQueue.SameRoundAgainIff | packages/domain/src/documents.ts:258-285 | the next round attempts the very same documents exactly when none of them resolved |
| UploadQueue.NewerStarves | packages/domain/src/documents.ts:258-285 | after any number of rounds of one a failing document is still the only one attempted and a newer one waits |
| UploadRounds.LeadersNeverOverlap | packages/domain/src/documents.ts:237-248 | in every run rounds started with nothing in flight never overlap each other |
| UploadRounds.UploadedOnceIfNobodyWaits | packages/domain/src/documents.ts:237-248 | in every run in which no call waits, at most one round runs at a time and each document is uploaded at most once |
| UploadRounds.UploadedOnceIfAllClear | packages/domain/src/documents.ts:237-285 | in every run, waiting calls or not, in which each round starts clear of the documents others still have to offer, each document is uploaded at most once and none waits after its upload |
| UploadRounds.StartIsSafeIff | packages/domain/src/documents.ts:237-285 | starting a round can lead to no double upload exactly when no running round still has to offer one of its documents |
| UploadRounds.WaitersCollide | packages/domain/src/documents.ts:177-285 | a run, from adding a document on, in which two calls that waited take it together: accepted twice it is uploaded twice, failing the second time it waits again although uploaded |
| RateLimit.RateLimitGuard.CanActivate | apps/api/src/common/rate-limit.guard.ts:28-45 | one request's answer and the bucket it leaves, for listed and unlisted paths |
| RateLimit.ServedRunsPass | apps/api/src/main.ts:27 | over every run of requests to served paths nothing is counted or refused |
| RateLimit.TokensStayInRange | apps/api/src/common/rate-limit.guard.ts:34-43 | in every run 0 <= tokens <= capacity |
| RateLimit.AtMostBurstPlusRate | apps/api/src/common/rate-limit.guard.ts:34-43 | in every run, with any other traffic, a key is admitted at most capacity + rate * (until - from) times in any interval |
| RateLimit.FreshKeyGetsCapacity | apps/api/src/common/rate-limit.guard.ts:34-43 | the bound is reached: of any number of simultaneous requests on a fresh key exactly the capacity is admitted |
| RateLimit.RetryAfterIsExact | apps/api/src/common/rate-limit.guard.ts:37-41 | a refused caller who comes back n whole seconds later, alone on the key, is admitted exactly when n is at least the advertised number |
| TokenFamilies.AuthService.Refresh | apps/api/src/security/auth.service.ts:152-166 | a good token is revoked and replaced in its family; any other known token revokes the whole family |
| TokenFamilies.AuthService.ChangePassword | apps/api/src/security/auth.service.ts:204-217 | which tokens a password change revokes, and when it is refused |
| TokenFamilies.OneLiveTokenPerFamily | apps/api/src/security/auth.service.ts:135-166 | in every run a family has at most one unrevoked token |
| TokenFamilies.ExchangedAtMostOnce | apps/api/src/security/auth.service.ts:152-166 | in every run each token is exchanged at most once |
| TokenFamilies.ReuseKillsFamily | apps/api/src/security/auth.service.ts:156-160 | after one refresh with a revoked or expired token no token of that family is ever good again |
| TokenFamilies.LogoutEndsFamilyIff | apps/api/src/security/auth.service.ts:192-200 | logging out ends the session exactly when the token presented is the family's live one or there is none |
| TokenFamilies.OldLogoutLeavesSession | apps/api/src/security/auth.service.ts:192-200 | a run of three calls after which the session lives on |
| TokenFamilies.EveryTokenHasDevice | apps/api/src/security/auth.controller.ts:31-45 | in every run every token names a device |
| TokenFamilies.PasswordChangeEndsOthers | apps/api/src/security/auth.service.ts:204-217 | in every run a password change ends exactly those of the user's sessions whose live token is not on the device it was made from, and touches no other user's |
| TokenFamilies.EndedSessionsStayEnded | apps/api/src/security/auth.service.ts:152-217 | no token of a session ended that way is ever good again, over every later run |
| TokenFamilies.InterleavedRefreshForks | apps/api/src/security/auth.service.ts:152-166 | two refreshes that both read before either writes exchange one token twice and fork the family |
| Attendance.AssignShift | packages/domain/src/attendance.ts:104-123 | the loops and the sort choose the head of the ranked candidates of both dates |
| Attendance.AssignmentIsFirstLeast | packages/domain/src/attendance.ts:104-123 | for any table and anchor the result is the first candidate that is least by (inside, distance, code) |
| Attendance.UnassignedIff | packages/domain/src/attendance.ts:104-123 | there is none exactly when no window of either date comes within four hours |
| Attendance.DefaultTableIsTotal | packages/domain/src/attendance.ts:39-44 | with the default table every punch is assigned to a window that contains it: A from 08:00 to 20:00, else B of that evening or the one before |
| Attendance.EvaluateDay | packages/domain/src/attendance.ts:133-227 | the reassigned locals end as the evaluation the laws are about; for a shift code that is not defined the answer is an empty absence |
| Attendance.EvaluationForgetsOrder | packages/domain/src/attendance.ts:147-155 | any permutation of the punches gives the same evaluation |
| Attendance.PunchCountSplits | packages/domain/src/attendance.ts:148-152 | punchCount = out-of-window + in-window linked punches |
| Attendance.DayBalances | packages/domain/src/attendance.ts:159-180 | worked + arrival gap + departure gap = scheduled on the minute, within one minute otherwise; late and early are those gaps or 0 within grace |

## Left out

- Text and format details: JSON rendering of objects, column casts and encodings, the year and padding in business numbers, reason texts,
  `lastError` texts of the sync queue, ICU collation (an arbitrary total order where it matters), HH:mm parsing.
- Kept-field lists are sets: their order is not modelled.
- SyncEngine.Engine.Validate: the errors for the schema version, the device id and the user id are not modelled; a request of the current version from a known device and user is assumed.
- SyncEngine.Engine.Push: device bookkeeping (`lastSyncAt`, `pendingOps`) and the schema-version answer are not modelled.
- SyncSystemLaws.ExactlyOnce: the statements behind the duplicate check are one step; requests that interleave between row read and data statement, or between statement and stamp, are not runs of the model.
- SyncOutboxLaws.CycleCanPassIff: speaks of the request schema and `validatePush`; size limits of the HTTP layer and a configured `SYNC_MAX_OPS` other than 500 are not modelled.
- SyncDeviceLaws.ReplayKeepsNotesIff: says nothing of runs in which texts are pulled for the field and all of them are mere space.
- WorkOrderLogs.LogIsPathIff: a pushed status text that is none of the twelve statuses is not modelled.
- SyncFeed.PageIsWindow: page and head are read in one step; the entity filter of a pull is part of the visibility predicate.
- SyncServerLaws.UpdateShowsMerge: speaks of field-merged entities; for append-only ones an UPSERT on an existing id overwrites columns, which `NormalForm` states.
- SyncClient.Client.PushAll: counters of the run report and the stored schema version are not modelled.
- SyncClient.Client.PullAll: report fields and clock skew are not modelled.
- WorkOrders.WorkOrderService.Create: asset and sub-department lookups, audit rows and the retry after a number clash are not modelled.
- WorkOrders.WorkOrderService.Commit: audit rows and log texts are not modelled; nor are CHECKs on columns a move does not touch.
- LabService.LabDesk.EnterResults: units, methods, remarks, the `written` report and audit rows are not modelled; results pushed over the sync channel are outside the laboratory's laws.
- UploadQueue.DocumentUploadQueue.DoFlush: documents added or replaced while an upload is awaited are outside its contract; `UploadRounds` has additions at any time.
- UploadQueue.DocumentUploadQueue.Add: the form checks are one Boolean; events and the aggregated report of a waiting caller are not modelled.
- TokenFamilies.AuthService.Login: password check, lockout and access tokens are not modelled.
- Floating point: deviations are exact quotients, tokens exact reals.
- The RBAC matrix, scope queries, Nest plumbing, SQL text, row-level security, Dexie and SQLite stores, UI code, document hashing, SLA hours,
  backoff and id generation: libraries, finite tables or arithmetic that would add only easy members.
