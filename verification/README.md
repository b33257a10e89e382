# Order service: a verified model of the consumer, retry and replay protocols

The order service publishes lifecycle events for orders, and each consuming service folds them into a
local store that is rebuilt from a compacted changelog. This project models that protocol in Dafny and
proves what it keeps: through crashes between any two writes, redelivery, compaction, rebalances, failed
publications and retries.

| file | what it models |
|---|---|
| `Events.dfy`, `Folds.dfy`, `Histories.dfy` | event types, one order's fold and the store's sequence guard, whole histories and the changelog records they produce |
| `AtLeastOnce.dfy` | the consume loop over one partition as a step relation with crashes, rewinds, offset resets, tombstones, rejected commits and rebuilds |
| `Reconsume.dfy`, `Tombstones.dfy` | what reading messages again changes; the tombstone path |
| `Runtime.dfy`, `Outcomes.dfy` | the loop as it runs, a class over the store: every path of every message is shown to be a run of `AtLeastOnce`; what each path leaves behind |
| `Commits.dfy`, `ExactlyOnce.dfy` | the transactional committer as a class; the whole `exactly_once` loop over several partitions as a step relation |
| `Changelog.dfy`, `Checkpoints.dfy`, `LocalStore.dfy` | compaction and reading a partition back; resuming from a checkpoint; the store class |
| `Orders.dfy`, `EndToEnd.dfy` | the sequence allocator; producer requests beside the consume loop |
| `Retry.dfy`, `RetryCycle.dfy`, `Worker.dfy` | attempt numbers and backoff; consumer, retry worker and three topics together; the pause-and-seek scheduler |
| `DlqReplay.dfy` | the watermark-bounded replay loop |
| `Maps.dfy` | offsets by partition, shared by several of these |

A step relation is a `State`, an `Action`, `Enabled`, `Do` and `Exec` over a list of actions. A theorem
about `Exec(...)` holds for every list, so for every run and every reachable state. Fields that only
record what happened (which deliveries landed, how many crashes) enable and block no step. The classes keep
the fields of the program's objects and are proved against functions; theorems are about those functions.
`dafny verify dfyconfig.toml` checks everything.

## What is assumed of the surroundings

- One writer per partition: no member goes on writing a partition after another has taken it over.
- Partition p of both subscribed topics goes to the same member.
- Records in flight to the changelog land in the order they were produced. A reader hands over a
  partition's records in offset order and leaves none out; under `exactly_once` it sees committed ones only.
- `pause`, `seek` and `resume` succeed. The clock does not go back.
- A transactional client refuses to produce outside a transaction, and refuses to begin while an earlier
  transaction is unresolved; either refusal stops the process. A stale member's commit is refused.
- Decoding is a total function that may reject. A handler succeeds or fails with a class; a failure of
  neither declared class counts as transient.

## Where the code gives less than its comments say

Each of these is a lemma with the run or the exact condition.

- Under `exactly_once` a fold is produced before `note` opens the transaction. A process that never reads
  a snapshot or another service's retry never commits anything (`NothingStartsWithoutPassers`).
- A failed transactional commit clears the committer in `finally`, so the abort that follows finds nothing
  to repair. The loop goes on past the next message exactly when the commit succeeded
  (`LoopGoesOnIffCommitted`), and until a restart the process commits nothing more
  (`UnresolvedCommitsNothing`).
- A revocation aborts the whole transaction and releases only the revoked partitions. The invariant
  survives exactly when no kept partition was dirtied (`RevokeKeepsInvIff`), and otherwise a committed
  offset can pass a message found nowhere (`PartialRevokeLosesMessage`, reached by the run of
  `PartialRevokeHappens`).
- `flush` does not see a delivery report that carries an error; the commit then passes a fold the rebuild
  will not have, and exactly then (`DurableIffReported`).
- The tombstone path commits without a flush. From every state that reads a tombstone, the committed
  offset is past it and a rebuild still has the order exactly when the tombstone did not land and what
  landed before leaves the order stored (`ErasedComesBackIff`, `UnflushedDeleteComesBackIff`; the run is
  `ErasedOrderComesBack`).
- `offset_first` loses an event to a crash between commit and save (`OffsetFirstLosesEvents`).
- A failed release neither commits nor seeks back, contrary to its comment that the message is redelivered.
  A later commit in that partition drops it (`FailedReleaseDropsMessage`); exactly which commits keep a
  message accounted for is `CommitKeepsAccountIff`, and exactly when a partition is passed without a skip
  is part of `SchedulerSafety`.
- `reserve` checks the state that only `commit` moves, under separate locks. Over every interleaving of
  calls an accepted unforced reservation legally follows the order's last reserved event exactly when the
  event last recorded is of that type (`ReservationFollowsIff`), and exactly otherwise a consumer reports
  an alarm nobody forced (`AlarmIffUnrecorded`, `ConcurrentReservesRaiseAlarm`). That the last reserved
  event was recorded is not enough: a late commit of an older one moves the state back
  (`LateCommitMovesStateBack`). `NoFalseAlarms` is for serial requests.
- `--limit` counts matches, but a letter with no origin header is passed over before the limit is looked
  at: more may match than the limit (`MoreMatchThanTheLimit`), exactly through such letters
  (`PastLimitOnlySkips`), and never more be published (`PublishedWithinLimit`).
- A checkpoint resume keeps a key whose delete was cleaned away, or whose write never left the process:
  exactly the keys gone astray (`ResumeAfterLossIff`, `CheckpointRefinesRebuild`), and for any kept store
  at all exactly those the changelog is silent about and the store has wrong (`ResumeRepairsIff`).
- A second failure takes its origin offset from the republished copy (`SecondFailureForgetsOffset`). A copy
  names the offset its event was published at exactly on the second attempt, a dead letter exactly when no
  republished copy had failed (`OriginOffsetIff`). The origin topic survives every hop.

## Model

| member | source | states |
|---|---|---|
| Events.ExpectedNextEvent | src/order_service/events.py:41-60 | the event offered next is the one whose legal predecessor is the current state, and none exactly when there is no such event |
| Events.LegalRunIff | src/order_service/events.py:41-60 | a list of events is legal from nothing on throughout if and only if it is a beginning of ORDER_CREATED, PACKED, SHIPPED, DELIVERED |
| Folds.GuardsDisagree | src/order_service/consumer/runtime.py:710-723 | the loop's `redelivered` test and the store's `applied` test are opposites, whatever was stored and whatever arrives |
| Folds.GapTotalOfOne | src/order_service/consumer/runtime.py:274-322 | one delivery reports a gap of exactly the sequences it jumped over, and none when it is a repeat |
| Folds.GapAccounting | src/order_service/consumer/runtime.py:711-723 | over any deliveries of one order, the stored sequence equals the number that advanced it plus the sum of (observed - expected) over the gaps reported |
| Folds.IllegalIff | src/order_service/consumer/runtime.py:303-320 | for any row and event an ILLEGAL_TRANSITION is reported if and only if the event is no repeat and its legal predecessor is not the stored state, gap or no gap; it names the event, its sequence and the event that may follow |
| Folds.GapIff | src/order_service/consumer/runtime.py:289-301 | a SEQUENCE_GAP is reported if and only if the event jumps ahead, with the sequence awaited |
| Folds.IllegalAccounting | src/order_service/consumer/runtime.py:274-322 | over any deliveries of one order, the illegal transitions reported are exactly the missteps along the deliveries that went past all earlier ones |
| Folds.NoIllegalIff | src/order_service/consumer/runtime.py:274-322 | a consumer new to an order reports no illegal transition if and only if what carried it forward is a beginning of the lifecycle |
| Folds.DeliverAllIsTop | src/order_service/consumer/state.py:400-435 | after any deliveries the row is the event with the highest sequence, and counts every delivery |
| Folds.OrderIndependence | src/order_service/consumer/state.py:400-435 | two lists delivering the same set of (sequence, type) leave the same fold, however ordered or repeated |
| Folds.ReconsumingIsHarmless | src/order_service/consumer/state.py:400-435 | delivering one order's events a second time leaves its fold as it was and doubles the delivery count |
| Histories.ReplayIsFold | src/order_service/consumer/state.py:582-603 | replaying the changelog records of any history gives the fold of that history |
| Histories.FoldIsPerOrder | src/order_service/consumer/state.py:400-435 | an order's row is what its own events alone leave behind |
| Histories.FoldAtKey | src/order_service/consumer/state.py:416-435 | an order is stored exactly when one of its events was handled; its row names it, has the highest handled sequence and counts each handling |
| Histories.TotalIsLength | src/order_service/consumer/state.py:416-432 | the delivery counts over a whole store add up to the number of deliveries folded |
| AtLeastOnce.InvHolds | src/order_service/consumer/runtime.py:905-967 | every run under `state_first` with no delivery error and no tombstone, offset resets included, keeps store, changelog, position and committed offset in agreement |
| AtLeastOnce.RecoveryAnywhere | src/order_service/consumer/runtime.py:958-967 | at every point of every run, a rebuild is the fold of genuine deliveries and covers every message below the committed offset that was not moved elsewhere |
| AtLeastOnce.RecoveredFoldBounds | src/order_service/consumer/runtime.py:958-967 | the rebuilt fold of each order is at or above every event handled below the committed offset, and is exactly that of its furthest landed delivery |
| AtLeastOnce.DurableIffReported | src/order_service/consumer/state.py:470-486 | after save, report, flush and commit the rebuild equals the store exactly when the report carried no error |
| AtLeastOnce.ResidueHolds | src/order_service/consumer/state.py:416-435 | every run keeps the surplus of handlings over distinct messages within its crashes, rejected commits and offsets put back |
| AtLeastOnce.DuplicateResidue | src/order_service/consumer/state.py:416-435 | the delivery counts a rebuild reads exceed the distinct handled messages by at most crashes plus rejected commits, plus the offsets resets put back |
| AtLeastOnce.OffsetFirstLosesEvents | src/order_service/consumer/runtime.py:952-956 | with the offset committed first, a crash before the save leaves an event below the committed offset that no rebuild sees |
| Reconsume.FoldStandsIff | src/order_service/consumer/state.py:416-435 | handling more leaves a row as it was exactly when none of it goes past the stored sequence |
| Reconsume.RowStandsIff | specs/003-durable-consumer-state/requirements.md:143-145 | from any reachable state through any run with resets, crashes, rewinds and rebuilds, an order's rebuilt row stands exactly when nothing further about it landed |
| Reconsume.NothingNewChangesNothing | specs/003-durable-consumer-state/requirements.md:143-145 | a run that handles no message not handled before leaves every row as it was and adds none; the counts grow by one a delivery |
| Reconsume.ResetAndReread | specs/003-durable-consumer-state/requirements.md:143-145 | from any reachable idle state, resetting the offsets and reading everything again gets back to the same offset with every fold as it was, each handled message counted once more and nothing reported |
| Tombstones.ErasedComesBackIff | src/order_service/consumer/runtime.py:766-781 | from every state that reads a tombstone: the committed offset is past it, and after a crash a rebuild has the order exactly when the tombstone did not land and what landed before leaves it stored |
| Tombstones.ErasedOrderComesBack | src/order_service/consumer/runtime.py:766-781 | a whole run in which the offset is past the tombstone and the order is rebuilt |
| Runtime.ServiceConsumer.Commit | src/order_service/consumer/transactions.py:163-183 | an accepted commit moves this partition's offset one past the message and nothing else; a refused one moves nothing |
| Runtime.ServiceConsumer.SaveFold | src/order_service/consumer/runtime.py:969-989 | the local write and the enqueued record are the step Save of the relation; applied exactly when not a redelivery |
| Runtime.ServiceConsumer.FlushAll | src/order_service/consumer/state.py:470-486 | every report is a step that lands or loses the oldest record in flight; succeeds exactly when nothing is left in flight |
| Runtime.ServiceConsumer.ShutDown | src/order_service/consumer/main.py:157-172 | a process that gave up flushes once more on the way out, so records may land, and commits nothing |
| Runtime.ServiceConsumer.SaveAndFlush | src/order_service/consumer/runtime.py:958-964 | save, report, flush in that order, as a run of the relation, other partitions untouched |
| Runtime.ServiceConsumer.PersistAndCommit | src/order_service/consumer/runtime.py:905-967 | the fold is durable before the offset moves: the path is exactly save, reports, flush, commit, or save, reports and a stop |
| Runtime.ServiceConsumer.SettleFold | src/order_service/consumer/runtime.py:964-967 | after flush, commit, ending between messages |
| Runtime.ServiceConsumer.RouteFailure | src/order_service/consumer/runtime.py:783-887 | commits exactly when the copy was acknowledged, else seeks back with nothing committed |
| Runtime.ServiceConsumer.PassOver | src/order_service/consumer/runtime.py:667-686 | a retry for another service is committed past without a handler or a fold |
| Runtime.ServiceConsumer.EraseOrder | src/order_service/consumer/runtime.py:766-767 | the order is erased locally and its tombstone enqueued, other partitions untouched |
| Runtime.ServiceConsumer.HandleTombstone | src/order_service/consumer/runtime.py:750-781 | commits at once with the tombstone still in flight, as the steps Erase and Commit of the relation |
| Runtime.ServiceConsumer.ReportViolations | src/order_service/consumer/runtime.py:707-723 | logs the violations of a non-repeat against the stored fold, which `Folds.IllegalIff` and `Folds.GapIff` pin down, and returns the updated fold |
| Runtime.ServiceConsumer.FoldMessage | src/order_service/consumer/runtime.py:731-748 | the success path of one message is a run of the relation ending between messages, or down when too few reports arrive |
| Runtime.ServiceConsumer.HandleEvent | src/order_service/consumer/runtime.py:707-748 | reports against the stored fold, then folds or routes, as the run its fate prescribes |
| Runtime.ServiceConsumer.HandleMessage | src/order_service/consumer/runtime.py:634-748 | every branch of one message is the run its fate prescribes, with the alarms it should raise |
| Runtime.ServiceConsumer.Run | src/order_service/consumer/runtime.py:392-514 | the poll loop over any fates gets to exactly where the turns of the relation lead |
| Runtime.ServiceConsumer.Turn | src/order_service/consumer/runtime.py:470-485 | one turn of the loop is the path of the message it finds, or nothing |
| Runtime.LoopIsARun | src/order_service/consumer/runtime.py:392-514 | wherever the loop gets to is a run of the step relation, so every theorem about runs holds of it |
| Outcomes.MessageOutcome | src/order_service/consumer/runtime.py:634-748 | every path of the loop, told outright: an event is folded exactly when its handler succeeds, a failure is moved and read past exactly when its copy is acknowledged and else left to be read again, another service's retry is read past, a tombstone erases its order; violations are reported in every case |
| Outcomes.SaveOutcome | src/order_service/consumer/runtime.py:958-967 | with enough reports the fold is stored, nothing is in flight and the offset is settled; with too few the process is down and its offset where it was |
| EndToEnd.EverythingHolds | src/order_service/producer/routes.py:262-276 | for serial requests with acknowledged publications the topic always carries each event's predecessor before it, and the allocator agrees with the topic |
| EndToEnd.ReadingRaisesNoAlarm | src/order_service/consumer/runtime.py:707-723 | on such a topic, reading from any position with everything before it dealt with, wherever the committed offset is, reports no gap, and no illegal transition if none was published |
| EndToEnd.NoFalseAlarms | src/order_service/consumer/runtime.py:707-723 | no interleaving of orders, rewinds, offset resets, crashes and rebuilds reports a SEQUENCE_GAP, and with nothing forced it reports nothing |
| EndToEnd.AlarmIffUnrecorded | src/order_service/producer/orders.py:210-252 | over every interleaving of calls, folding the last reserved event and then a newly accepted unforced one reports an illegal transition exactly when the event last recorded is not of the last reserved type |
| EndToEnd.ConcurrentReservesRaiseAlarm | src/order_service/producer/orders.py:210-223 | after any calls, two reservations before either is committed are both accepted, and folding both events reports an illegal transition |
| Orders.AllocationIsContiguous | src/order_service/producer/orders.py:187-252 | over every interleaving of calls an order's sequences are exactly 2, 3, 4, ..., refused reservations taking none |
| Orders.StateIsLastRecorded | src/order_service/producer/orders.py:225-252 | over every interleaving the state the guard checks is the outcome of the last recorded event |
| Orders.HeldIffInBook | src/order_service/producer/orders.py:132-185 | an order is held exactly when the last of its registration and removals is the registration |
| Orders.ReservationAnswered | src/order_service/producer/orders.py:187-223 | after any calls: an order not in the book is unknown; a forced reservation of one in it gets the next sequence, an unforced one the same if and only if its event legally follows the last recorded one, and is illegal otherwise |
| Orders.ReservationFollowsIff | src/order_service/producer/orders.py:210-223 | an accepted unforced reservation legally follows the last reserved event exactly when the last recorded one is of that type |
| Orders.ConcurrentReservesAccepted | src/order_service/producer/orders.py:210-223 | a second reservation before the first is recorded is accepted, with the next sequence |
| Orders.LateCommitMovesStateBack | src/order_service/producer/orders.py:244-252 | a run in which a late commit moves the state back behind an event already recorded |
| Orders.OrderStore.constructor | src/order_service/producer/orders.py:127-130 | starts with no orders |
| Orders.OrderStore.Register | src/order_service/producer/orders.py:132-156 | a fresh order is created with sequence 1 taken |
| Orders.OrderStore.Reserve | src/order_service/producer/orders.py:187-223 | unknown exactly when the order is not held; accepted exactly when held and forced or legal, with the next sequence; a refusal takes none |
| Orders.OrderStore.Commit | src/order_service/producer/orders.py:225-252 | moves the state to the event's, except that a forced illegal event leaves it |
| Orders.OrderStore.Remove | src/order_service/producer/orders.py:163-185 | forgets the order and returns it, or refuses an unknown one |
| Commits.CommitterHolds | src/order_service/consumer/transactions.py:254-308 | exactly the noted topic-partitions have an offset, each one past its last message; touched is exactly their partitions; nothing is held while none is open |
| Commits.TransactionalCommitter.constructor | src/order_service/consumer/transactions.py:211-247 | starts with no transaction and nothing held |
| Commits.TransactionalCommitter.Reset | src/order_service/consumer/transactions.py:376-382 | forgets the transaction, its offsets and its partitions |
| Commits.TransactionalCommitter.Note | src/order_service/consumer/transactions.py:254-270 | adds one message to the open transaction, opening one only if the client lets it |
| Commits.TransactionalCommitter.Commit | src/order_service/consumer/transactions.py:286-308 | submits exactly the held offsets and is empty afterwards whatever happened; only success resolves the client, and exactly a fencing error is told apart |
| Commits.TransactionalCommitter.MaybeCommit | src/order_service/consumer/transactions.py:272-284 | an open transaction is committed exactly when its messages reach the one interval or its age in milliseconds the other, submitting the offsets of the messages noted; otherwise nothing changes |
| Commits.TransactionalCommitter.NoteHandled | src/order_service/consumer/transactions.py:254-270 | the message joins the open transaction or opens one dated now; stops exactly when the client refuses to begin |
| Commits.TransactionalCommitter.Abort | src/order_service/consumer/transactions.py:310-349 | returns exactly the touched partitions of an open transaction and submits nothing; a fenced abort is told apart |
| Commits.TransactionalCommitter.Iterate | src/order_service/consumer/runtime.py:1017-1051 | after an iteration at any time, an empty poll included, an open transaction covers at least 1 and fewer than the interval's messages and is younger than the other interval; a commit submits the offsets of exactly the messages noted |
| ExactlyOnce.InvHolds | src/order_service/consumer/transactions.py:254-357 | every run whose revocations cover the dirtied partitions, other members' transactions included, keeps the committed state accounted for and each held store in step |
| ExactlyOnce.ExactlyOnceOutput | src/order_service/consumer/transactions.py:254-357 | replaying the committed changelog is exactly the fold of the messages handled below the committed offset, each folded and counted once; every other one was moved or not ours |
| ExactlyOnce.RevokeKeepsInvIff | src/order_service/consumer/runtime.py:538-554 | a revocation inside an open transaction keeps the invariant if and only if no kept partition was dirtied |
| ExactlyOnce.DirtyKeptIsLost | src/order_service/consumer/runtime.py:553-554 | a dirtied partition that is kept no longer agrees with its changelog |
| ExactlyOnce.PartialRevokeLosesMessage | src/order_service/consumer/runtime.py:553-554 | after such a revocation the next commit passes a message neither folded nor moved |
| ExactlyOnce.PartialRevokeHappens | src/order_service/consumer/runtime.py:538-554 | a run from the start that meets the conditions of such a loss |
| ExactlyOnce.FoldNeedsOpenTransaction | src/order_service/consumer/runtime.py:943-946 | a fold is produced exactly when an earlier message already opened the transaction; else the process stops with nothing changed |
| ExactlyOnce.CopyNeedsOpenTransaction | src/order_service/consumer/dlq.py:349-364 | a failure's copy is produced exactly inside an open transaction; outside one the message is read again with nothing changed |
| ExactlyOnce.NothingStartsWithoutPassers | src/order_service/consumer/transactions.py:254-270 | in every run that never reads a snapshot or another service's retry, nothing is ever committed |
| ExactlyOnce.LoopGoesOnIffCommitted | src/order_service/consumer/transactions.py:286-324 | after a commit of any outcome but fenced, a message that needs no produce leaves the loop running if and only if the commit succeeded |
| ExactlyOnce.LoopGoesOnIffAborted | src/order_service/consumer/runtime.py:538-554 | a revocation commits nothing, lets go of exactly the named partitions, and leaves the loop running if and only if the abort was resolved |
| ExactlyOnce.CommitLandsIff | src/order_service/consumer/transactions.py:286-308 | if the broker committed, whether the call said so or not, each held partition's changelog rebuilds to the local store and its offset has passed everything handled; if not, nothing with the broker changed; only a fenced process stops |
| ExactlyOnce.UnresolvedCommitsNothing | src/order_service/consumer/runtime.py:1053-1075 | with a transaction unresolved and forgotten, no action list without a restart moves a committed offset or adds to a changelog |
| Changelog.RebuildAtKey | src/order_service/consumer/state.py:582-603 | a rebuild holds for each key the value of its last record, absent if that is a tombstone |
| Changelog.CompactionKeepsRebuild | src/order_service/consumer/state.py:550-603 | after any interleaving of appends and cleaning passes a rebuild reads the store of the uncleaned log |
| Changelog.ApplyRecord | src/order_service/consumer/state.py:584-594 | applies a record and keeps `live` equal to the keys written by this restore |
| Changelog.ArrivesIff | src/order_service/consumer/state.py:567-594 | a replay arrives if and only if some beginning of the polls with no silence and no error but the end-of-partition notice hands over records up to the watermark |
| Changelog.Drain | src/order_service/consumer/state.py:550-603 | returns exactly when the polls reach the watermark, having applied everything below it on top of what was there |
| Changelog.RestoreFull | src/order_service/consumer/state.py:503-548 | a full restore that returns yields the store of the uncleaned log, and its reported `keys` is that store's size |
| Checkpoints.ResumeIsRebuildIff | src/order_service/consumer/state.py:605-617 | resuming from any checkpoint at or below the true position equals the full rebuild if and only if no key of the kept store had its delete cleaned away |
| Checkpoints.ResumeRepairsIff | src/order_service/consumer/state.py:605-617 | for any kept store and checkpoint, a resume equals the rebuild if and only if no key without a record from the checkpoint on is kept with another value than its last |
| Checkpoints.ResumeAfterLossIff | src/order_service/consumer/state.py:682-701 | with writes lost in flight, a resume equals the replay of the history if and only if no lost write is left standing against it and no delete was cleaned away |
| Checkpoints.RunHolds | src/order_service/consumer/state.py:605-617 | every run in which no earlier restore met a key gone astray keeps the disk store equal to the replay of what it reflects and the writes it lost |
| Checkpoints.CheckpointRefinesRebuild | src/order_service/consumer/state.py:605-617 | across writes lost or not, releases, moves, cleaning and crashes, a restore equals the full replay if and only if no key has gone astray; with nothing lost, only a cleaned-away delete can |
| Checkpoints.RestoreInAnyRun | src/order_service/consumer/state.py:605-617 | after any run at all, the restore equals the full replay exactly when no key differs |
| Checkpoints.LostWriteSurvivesIff | src/order_service/consumer/state.py:868-883 | a write lost in a crash is what the resume has for its key, wrongly exactly when the history does not end in the same value |
| LocalStore.DrainFrom | src/order_service/consumer/state.py:550-617 | reading from the start offset gives the resumed store and arrives exactly when the polls do |
| LocalStore.LocalStateStore.constructor | src/order_service/consumer/state.py:341-376 | holds no partition, nothing in flight |
| LocalStore.LocalStateStore.Load | src/order_service/consumer/state.py:388-398 | the stored fold of the order, or none |
| LocalStore.LocalStateStore.Put | src/order_service/consumer/state.py:784-844 | the local write and the enqueued record are the same write, so the store stays the replay of its changelog and its queue |
| LocalStore.LocalStateStore.Save | src/order_service/consumer/state.py:400-435 | writes the guarded row and enqueues it, keeping store and changelog coherent |
| LocalStore.LocalStateStore.Delete | src/order_service/consumer/state.py:437-468 | erases the order and enqueues a tombstone even when there was none, keeping coherence |
| LocalStore.LocalStateStore.OnDelivery | src/order_service/consumer/state.py:800-810 | an acknowledged record moves from queue to changelog with coherence kept, and its partition's position to one past it unless further already; one with an error is only counted and moves no position |
| LocalStore.LocalStateStore.Flush | src/order_service/consumer/state.py:470-486 | takes as many reports as there are records, fails exactly when they run out, counts the errors and moves the positions as far as the acknowledged records; with no error every open store then equals the replay of its changelog alone |
| LocalStore.LocalStateStore.RestoreOne | src/order_service/consumer/state.py:503-548 | exactly when the polls arrive at the watermark installs, under `full` or without a checkpoint, the rebuild from nothing, else the kept store brought up to date from its checkpoint; keeps every partition in step if what it installs is |
| LocalStore.LocalStateStore.ReadBack | src/order_service/consumer/state.py:503-548 | reads the resumed store back exactly when the polls arrive |
| LocalStore.LocalStateStore.RebuildOne | src/order_service/consumer/state.py:503-548 | after a full rebuild with nothing in flight every partition is ready to be saved to |
| LocalStore.LocalStateStore.FullRestoreIsInStep | src/order_service/consumer/state.py:503-548 | a partition rebuilt in full with nothing in flight is coherent again |
| LocalStore.LocalStateStore.ResumeIsInStepIff | src/order_service/consumer/state.py:605-617 | a partition resumed from its checkpoint is coherent exactly when the kept store differs on no key |
| LocalStore.LocalStateStore.Close | src/order_service/consumer/state.py:682-701 | checkpoints and closes one partition, its directory kept as it was |
| LocalStore.LocalStateStore.Forget | src/order_service/consumer/state.py:682-701 | flushes once, then checkpoints each released partition at its position, no further than one past a landed record or where it was, and keeps its store on disk; with no delivery error that store can be resumed however the changelog goes on |
| LocalStore.AdvancedIsResumable | src/order_service/consumer/state.py:682-701 | a store in step with its changelog and its queue, checkpointed where the reports took it, is for every continuation of the log its beginning and the writes in flight, with nothing to come below the checkpoint |
| LocalStore.ReleasedResumesIff | src/order_service/consumer/state.py:605-617 | a store so released, then written to elsewhere and cleaned, resumes to the replay of the whole history if and only if no key has gone astray |
| LocalStore.FlushedResumesIff | src/order_service/consumer/state.py:605-617 | with nothing left in flight, if and only if no delete it missed has been cleaned away |
| LocalStore.LocalStateStore.Discard | src/order_service/consumer/state.py:703-740 | removes store, position, directory and checkpoint of exactly the given partitions |
| LocalStore.UnflushedDeleteComesBackIff | src/order_service/consumer/runtime.py:766-781 | with any queue and any reports before the process dies, a rebuild has the deleted order exactly when its tombstone was not acknowledged and its last landed record is a value |
| Retry.AttemptOf | src/order_service/consumer/runtime.py:254-271 | an attempt number is at least one, whatever the header |
| Retry.BackoffSchedule | src/order_service/config.py:442-455 | the schedule is never empty |
| Retry.BackoffTotals | src/order_service/config.py:441-467 | the waits up to attempt k are the first k - 1 configured entries, past the end the last entry again for each further attempt, and thirty seconds each when none is configured |
| Retry.NextCopy | src/order_service/consumer/dlq.py:221-270 | the copy that comes back keeps key and value, is addressed to the one service and carries the next attempt |
| Retry.BackToSource | src/order_service/consumer/dlq.py:221-270 | a due message goes to the topic its headers name as the origin, the retry topic when they name none, with its key and value, for the one service that asked, on the attempt the header says |
| Retry.Letter | src/order_service/consumer/retry_worker.py:321-378 | the worker's dead letter keeps key, value, origin and service, and reports the attempt the header says |
| Retry.CycleEnds | src/order_service/consumer/runtime.py:783-887 | whatever the attempts come to, the cycle ends on the first that is not a transient failure, handled or dead-lettered on that attempt, or on the last of the budget; a copy past the budget gets one attempt |
| Retry.AttemptBudget | src/order_service/consumer/failures.py:22-62 | failing the first N attempts, a message is handled on attempt N+1 exactly when N < max(1, max attempts), otherwise dead-lettered with that many attempts made |
| Retry.UntargetedIsHandled | src/order_service/consumer/failures.py:36-44 | with the lever off or aimed at other orders, a message is handled on the attempt it arrives on |
| Retry.PoisonSpendsOne | src/order_service/consumer/failures.py:46-50 | a poison message is dead-lettered with one attempt made |
| RetryCycle.InvHolds | src/order_service/consumer/runtime.py:812-887 | every run of both loops over the three topics keeps cursors, copies, accounts and waiting times |
| RetryCycle.FailureRouted | src/order_service/consumer/runtime.py:783-887 | an acknowledged failure leaves exactly one retry, for this service, on the next attempt and due after its backoff, if and only if it was transient with attempts to spare, else exactly one dead letter reporting the attempt spent; both keep key, value and where the message was read |
| RetryCycle.NothingIsDropped | src/order_service/consumer/runtime.py:812-887 | with crashes, refused commits and lost acknowledgements anywhere, every source event was handled, or an uncommitted copy with its key, value and origin topic waits, or it is on the dead-letter topic; provided no worker commit passed over a failed release |
| RetryCycle.CommitKeepsAccountIff | src/order_service/consumer/retry_worker.py:299-308 | a worker commit keeps a message accounted for if and only if some account of it is not a failed release earlier in that partition |
| RetryCycle.FailedReleaseDropsMessage | src/order_service/consumer/retry_worker.py:299-308 | a run in which a failed release followed by a commit leaves an event in none of those places |
| RetryCycle.AttemptsStayInBudget | src/order_service/consumer/runtime.py:812-855 | every attempt written to the retry topic lies in 2..max, every dead letter reports 1..max(1, max), and no attempt beyond that is spent |
| RetryCycle.BackoffLowerBound | src/order_service/config.py:441-467 | attempt k runs no sooner after the first than the backoffs of attempts 2..k, for every schedule, and never for a copy addressed to another service |
| RetryCycle.OriginOffsetIff | src/order_service/consumer/runtime.py:813-850 | over every run a retry names the offset its event was published at if and only if it is attempt 2; a consumer's dead letter if and only if 1 attempt was made, a worker's if and only if 2 |
| RetryCycle.SecondFailureForgetsOffset | src/order_service/consumer/runtime.py:813 | a run with two failures whose second retry names the offset of the republished copy |
| Worker.InvHolds | src/order_service/consumer/retry_worker.py:151-271 | every run with a non-decreasing clock keeps each held partition's trail, head and committed offset |
| Worker.MovedAllIff | src/order_service/consumer/retry_worker.py:291-308 | every record of a partition was moved on if and only if no release failed |
| Worker.SchedulerSafety | src/order_service/consumer/retry_worker.py:151-271 | since its assignment each partition is passed in offset order from its committed offset, none skipped exactly when no release failed, no message before its due time, and a deferred partition stands at the message it waits for |
| Worker.DueAreResumed | src/order_service/consumer/retry_worker.py:151-209 | after every turn a partition held back waits for a message not yet due as the turn began; one held back before stays so exactly while its message is not due, and a new one is the partition just read |
| Worker.CommittedIsMoved | src/order_service/consumer/retry_worker.py:291-319 | across reassignments every record below the committed offset was moved on or its release failed |
| Worker.RetryWorker.constructor | src/order_service/consumer/retry_worker.py:88-120 | starts with nothing deferred, paused or held |
| Worker.RetryWorker.ResumeDue | src/order_service/consumer/retry_worker.py:165-176 | a deferred partition stays deferred if and only if its head is due after now, with its due time, and paused stays equal to deferred |
| Worker.RetryWorker.Defer | src/order_service/consumer/retry_worker.py:178-209 | the partition is paused and its position is back at the message |
| Worker.RetryWorker.OnRevoke | src/order_service/consumer/retry_worker.py:211-214 | exactly the revoked partitions are forgotten |
| Worker.RetryWorker.Commit | src/order_service/consumer/retry_worker.py:380-390 | one past the message when accepted, unchanged when refused |
| Worker.RetryWorker.Release | src/order_service/consumer/retry_worker.py:273-319 | publishes to the origin topic the headers name a copy with the same key and value, for the one service and on the attempt in the header, and commits only if that was acknowledged |
| Worker.RetryWorker.GiveUp | src/order_service/consumer/retry_worker.py:321-378 | dead-letters the same event with its origin and attempt and commits, or seeks back with nothing committed |
| Worker.RetryWorker.HandleMessage | src/order_service/consumer/retry_worker.py:229-271 | defers, releases or gives up as the headers and value ask, each a step of the scheduler; something is published exactly when due and acknowledged, back to the origin topic exactly when a handler is registered and the value decodes |
| Worker.RetryWorker.Iterate | src/order_service/consumer/retry_worker.py:151-160 | one turn, with whatever the poll brings, is a turn of the scheduler |
| Worker.RetryWorker.Run | src/order_service/consumer/retry_worker.py:126-163 | the loop over any polls is a run of the scheduler, and the paused partitions are exactly the keys of `_deferred` |
| DlqReplay.SnapshotTopic | src/order_service/tools/dlq_replay.py:133-170 | the recorded ends are the high watermarks of exactly the non-empty partitions, the assignments those partitions once each and in order from their low watermarks, and the announced count the total between them |
| DlqReplay.SnapshotEnds | src/order_service/tools/dlq_replay.py:155-170 | the ends are the high watermarks of exactly the non-empty partitions |
| DlqReplay.SnapshotStarts | src/order_service/tools/dlq_replay.py:155-170 | the assignments are those partitions, each once and in order, from their low watermarks |
| DlqReplay.SnapshotCount | src/order_service/tools/dlq_replay.py:109-116 | the announced count is the total of high minus low |
| DlqReplay.Examine | src/order_service/tools/dlq_replay.py:258-290 | the counters and the publication of one letter in scope, as the specification of one letter says |
| DlqReplay.Take | src/order_service/tools/dlq_replay.py:247-290 | one polled record, in scope or not, is a step of the specified loop |
| DlqReplay.TakenIsPassing | src/order_service/tools/dlq_replay.py:247-290 | deciding by `pending` alone counts each letter, and stops, as the recorded ends would |
| DlqReplay.Loop | src/order_service/tools/dlq_replay.py:231-290 | the loop ends with the variables and for the reason the specified loop does |
| DlqReplay.EndOfPartitionIgnored | src/order_service/tools/dlq_replay.py:232-246 | an end-of-partition notice anywhere among the polls changes nothing about the run |
| DlqReplay.BrokenOffBy | src/order_service/tools/dlq_replay.py:232-246 | a run broken off met an error, and a stalled one a silence or the end of its polls with no error |
| DlqReplay.Replay | src/order_service/tools/dlq_replay.py:224-290 | counters and publications are the selections of what was read; `pending` is exactly the partitions not yet at their end; at most a positive limit is published, and nothing without `--publish`; it empties, stalls, breaks or stops at the limit as reported |
| DlqReplay.MatchedSplits | src/order_service/tools/dlq_replay.py:263-286 | every match is excluded, passed over, published or only listed, once |
| DlqReplay.SelectedIff | src/order_service/tools/dlq_replay.py:247-288 | of what was read, exactly the records below the watermark are seen, exactly those of the service asked for match, exactly the non-retryable among them are excluded unless asked for, and exactly the rest with an origin are republished, if publishing |
| DlqReplay.PublishedWithinLimit | src/order_service/tools/dlq_replay.py:276-290 | never more than a positive limit is published |
| DlqReplay.PastLimitOnlySkips | src/order_service/tools/dlq_replay.py:276-290 | more match than the limit only while the limit-th and every later match but the last lack an origin; with an origin on the limit-th the run ends there |
| DlqReplay.MoreMatchThanTheLimit | src/order_service/tools/dlq_replay.py:276-290 | a run in which two match under a limit of one |
| DlqReplay.InspectingPublishesNothing | src/order_service/tools/dlq_replay.py:266-290 | without `--publish` nothing is published and the matches keep to the limit |
| DlqReplay.PublishedOnceInScope | src/order_service/tools/dlq_replay.py:225-290 | only records below the recorded watermarks are published, each at most once, and every one seen that should be |
| DlqReplay.PublishedToOrigin | src/order_service/tools/dlq_replay.py:275-286 | each publication is the key and value of its record, to the topic it came from |
| DlqReplay.EmptiedSawEverything | src/order_service/tools/dlq_replay.py:231-256 | a run that empties `pending` has seen every readable record of the snapshot |
| DlqReplay.SeenWithinAnnounced | src/order_service/tools/dlq_replay.py:109-116 | however many messages a run provokes, it sees no more than the snapshot announced |

## Left out

- HTTP routes, the application, the poll thread and delivery waiting: only the order reserve, publish, commit of a request is used.
- Consumer configuration, group protocol and assignor checks, and the refusal of checkpoints under `exactly_once`: one-branch checks.
- `MemoryStateStore`, the three services' handlers, logging, RocksDB files and locks, JSON and header encoding: no state worth proving.
- Tombstones under `exactly_once` and in the end-to-end model: crash durability of a tombstone is not provided, and what the code does instead is in `Tombstones.dfy`.
- The snapshot topic as a second log. A null value is treated alike on either topic, so a tombstone is modelled on the one topic of the loop; any other snapshot is committed past, like another service's retry.
- The loop class in `Runtime.dfy` is the `at_least_once`, `state_first` configuration. Under `exactly_once` the loop is the step relation of `ExactlyOnce.dfy`, on values: update in place is not captured there.
- Runtime.ServiceConsumer.HandleMessage: a message of the snapshot topic that is not a tombstone is not among the loop's messages.
- Runtime.ServiceConsumer.Run: the loop of one held partition between rebalances; assignment and revocation are steps of `AtLeastOnce.dfy` and methods of the store.
- Records still queued at a timed-out release are taken as lost, though the producer might yet deliver them.
- Zombie writers, and liveness of recovery after a failed transactional commit: the code does not provide them.
- Origin partition and timestamp headers, and error headers: only the origin topic and offset are carried.
- In `RetryCycle.dfy` each group has one member at a time, taking one message in hand; members of one group working in parallel are not interleaved. An attempt and the copy it produces share one reading of the clock.
- The replay tool's final flush and exit code, and its printed description of a letter.
- RetryCycle.NothingIsDropped: under the condition that no worker commit passed over a failed release; the converse over whole runs does not hold, because a failed release may have landed or another copy may be pending. `CommitKeepsAccountIff` is the exact form for one commit.
- RetryCycle.BackoffLowerBound: counts an undecodable message as an attempt, though no handler runs for it.
