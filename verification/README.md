# A model of saga-go

This project models the transaction saga of saga-go in Dafny and proves what it promises. Three parts
are modelled, and then composed:

- **The batch consumer** (`Offsets`, `Rebalance`, `Backoff`, `Dlq`, `Batch`, `BatchLaws`, `Group`,
  `GroupSafety`, `GroupRuns`, `GroupDecisions`, `GroupOrder`). One poll fetches a batch, handles its records with
  retries, dead-letters permanent failures, commits the contiguous frontier of every partition, and
  rewinds when it was cancelled. The adversary picks every answer of the record consumer, the point of
  cancellation, the outcome and order of the dead-letter publishes, which partitions a commit reaches,
  rebalances, crashes and restarts.
- **The saga handler and its database** (`Codec`, `Tables`, `Saga`, `History`, `Conservation`,
  `Concurrency`). A command is handled inside one database transaction any statement of which may fail,
  and whose commit may fail or succeed while reporting a failure.
- **The choreography** (`Validation`, `TopicLog`, `Choreography`, `Convergence`, `Contributions`,
  `ConvergenceSamples`).
  The producer appends registers to a keyed log, the validator reads it and appends compensations, the
  tx-consumer folds it into aggregates, in any interleaving of attempts and redeliveries.

`EndToEnd` composes the poll loop with the saga database: each call a poll makes of the record consumer
is one transaction of `Saga.Database`. `Choreography` takes its consumer steps from `Saga.RecordStep`
and `Validation.ValidatorStep`, which are the postconditions of the two implemented record consumers.
`Pipeline` puts both poll loops into the choreography: the tx-consumer and the validator each poll the
topic with a consumer group of their own (`Reading`), and every interleaving of their calls, polls,
crashes, rebalances and restarts with each other and with the producer is a run of the choreography,
whatever happens to the dead letters. Convergence therefore holds of the poll loops themselves.

Classes stand for the objects that the source updates in place; each of their methods is proved against
a function or relation on values, and the lemmas are about those.

## What the proofs found

1. A cancelled batch commits even when its drain failed (`kgoconsumer/consumer.go:113-128`), and a failed
   drain registers no dead letter (`kgoconsumer/consumer.go:227-234`). Records that were dead-lettered
   ahead of the first consumed record of their partition, and never published, are then skipped for good.
   `GroupRuns.NoLossIff` gives the exact guard; `GroupRuns.FailedDrainCanLoseARecord` is an instance.
   Even then each of them had the call that decided it (`GroupDecisions.NothingSkippedOverRuns`).
2. The README promises that a compensation which arrives before its transaction is handled correctly
   (`README.md:116-119`). It is not missed, but it is not neutral either: the compensation subtracts at
   once and the later register is skipped (`saga/consumer.go:70-94`), which leaves the aggregate short by
   the value. `History.CompensationUndoesIff` says exactly when the two cancel out; the model follows the
   code.
3. The compensation is published outside the validator's database transaction. A rollback after the
   publish leads to a second compensation under another id, which is subtracted again.
   `Convergence.ConvergesIff` is the exact condition while no command is dead-lettered unhandled,
   `ConvergenceSamples.RollbackAfterPublish` an instance. A register that is dead-lettered while its
   compensation is handled also leaves an aggregate short (`ConvergenceSamples.DeadLetteredRegister`).
   For runs with dead letters, `Contributions.ContributionIsRightIff` says per transaction exactly when
   it contributes what was decided, `Contributions.ContributionIsNegativeIff` exactly when it takes off
   more than it put there, and an aggregate is always the sum of these contributions.
4. The count table has no key, and its update-or-insert is two statements
   (`examples/internal/adapters/postgres/count_adapter_out.go:33-43`): two first handlers leave two rows.
   `Concurrency.CountIsRightIff` is the exact condition, `Concurrency.TwoHandlersCanSplitTheCount` an
   instance. Handlers of one aggregate cannot do it, because the second waits for the row of the first.
5. The backoff factor is not validated. With a factor below one, the argument of `rand.N` reaches zero
   and the call panics. Powers that underflow to zero do so whatever the base and the maximum:
   `Backoff.NeverPanicsFlushedIff` says that no attempt panics iff the factor is at least one. With real
   powers, which never vanish, a positive factor would also do while the maximum is below the base
   (`Backoff.NeverPanicsIff`).

## Assumptions

- The broker keeps each partition as a map from offsets to records. A fetch lists a partition once, in
  ascending order, starting at the fetch position and skipping no record (`GroupSafety.ValidFetch`).
  Offsets may have gaps except in `GroupOrder`, which is about consecutive ones. Offsets are not negative.
- A commit request may be applied to any subset of its partitions and may report an error either way,
  because only the request-level error is looked at (`kgoconsumer/consumer.go:206-216`).
- The context of a batch is done exactly when its script of answers has run out; the script is finite
  because every batch has a processing timeout.
- The nested maps from topics to partitions are one map keyed by topic and partition.
- Handler transactions of the tx-consumer serialise, except in `Concurrency`, where a statement sees what
  is committed when it starts, and one that would write a row that an open transaction has written or
  inserted waits for that transaction. An update takes the locks of all the rows it found at once.
- Compensating ids are drawn fresh, and no transaction id is one of them. The validator attempts the
  records of one key one at a time; its publish and the end of its transaction are separate steps of the
  choreography.
- The alarm threshold is one constant, as in the wiring of the tx-consumer.
- Integers are unbounded. The backoff factor is a real number; its powers are real, or real with those
  below a least positive number flushed to zero.
- In `Pipeline`, messages with one key are in one partition, and each group has one consumer, whose process
  dies between calls: one that dies inside a call is one whose call failed transiently just before.

## Model

| member | source | states |
|---|---|---|
| Offsets.ProcessedEpochOffsetsTracker.RegisterSingleAsProcessed | kgoconsumer/offsets.go:53-87 | one registration extends the registered records by exactly that record, and the stored offsets and their range stay those of the records registered so far, whatever their order, with repeats keeping the last epoch in the map and the first in the range |
| Offsets.ProcessedEpochOffsetsTracker.RegisterAsProcessed | kgoconsumer/offsets.go:47-51 | registers every record, in order |
| Offsets.ProcessedEpochOffsetsTracker.MaxCommittable | kgoconsumer/offsets.go:26-33 | the inner loop ends, at the commit point of the partition |
| Offsets.ProcessedEpochOffsetsTracker.CommittableEpochOffsets | kgoconsumer/offsets.go:17-45 | returns the committable map of the registered records |
| Offsets.CommittableIsExactFrontier | kgoconsumer/offsets.go:26-41 | the committed offset is the one m such that every registered end from the smallest to m is present and m+1 is absent; some registered record of that topic and partition has the offset m-1 and the committed epoch as its leader epoch |
| Offsets.FrontierIsUnique | kgoconsumer/offsets.go:27-33 | a set of stored offsets has at most one frontier |
| Offsets.CommittableIsOrderIndependent | kgoconsumer/offsets.go:17-87 | two sequences registering the same records commit the same, when epochs are determined by topic, partition and offset |
| Offsets.CommittedOffsetIsOrderIndependent | kgoconsumer/offsets.go:17-87 | the committed offset of a partition depends only on which records were registered, with any epochs at all |
| Offsets.PartitionsAreIndependent | kgoconsumer/offsets.go:54-69 | what a partition stores and commits depends only on its own records |
| Offsets.NeverZero | kgoconsumer/offsets.go:71-83 | a range that was set never equals the zero value that means unset |
| Offsets.RepeatedRegistration | kgoconsumer/offsets.go:71-86 | registering an offset again stores the new leader epoch, and keeps that of the first registration where the offset is the smallest or largest of the range |
| Offsets.StoredOffsets | kgoconsumer/offsets.go:71-86 | the stored offsets of a partition are exactly one more than those of its registered records |
| Rebalance.CancelProcessingStore.Store | kgoconsumer/rebalance.go:18-26 | keeps the function and calls it at once if a cancel is pending |
| Rebalance.CancelProcessingStore.Cancel | kgoconsumer/rebalance.go:28-37 | cancels the batch in flight, or else leaves a pending cancel |
| Rebalance.CancelProcessingStore.Release | kgoconsumer/rebalance.go:39-46 | calls the function, forgets it, and drops a pending cancel |
| Rebalance.StoreTracksCancels | kgoconsumer/rebalance.go:18-46 | over every well-bracketed trace the two fields are "which batch is in flight" and "was anything cancelled since the last release" |
| Rebalance.BatchCancelledIff | kgoconsumer/rebalance.go:18-46 | a batch has been cancelled by its release iff a cancel came after the previous release and before this one; the release always finds the batch's own function and calls it |
| Rebalance.EveryStoredContextIsCancelled | kgoconsumer/rebalance.go:39-46 | when no batch is in flight, every context ever stored has been cancelled |
| Backoff.BackoffTimer.Wait | kgoconsumer/backoff.go:30-53 | draws from the range of the current attempt, then counts the attempt |
| Backoff.BackoffTimer.Clear | kgoconsumer/backoff.go:26-28 | resets the attempt number |
| Backoff.DelayWithinMax | kgoconsumer/backoff.go:46-53 | with a factor of at least one the argument of rand.N is positive and never exceeds the maximum, so the product does not overflow |
| Backoff.DelayNeverShrinks | kgoconsumer/backoff.go:46-53 | that bound never falls from one attempt to the next |
| Backoff.DelayFollowsPower | kgoconsumer/backoff.go:46-53 | while the power is at most max/base the bound is at most base times the power and less than one base below it; above, it is the maximum |
| Backoff.NeverPanicsIff | kgoconsumer/backoff.go:46-53 | with real powers, every attempt can draw a delay iff the factor is at least one, or positive while the maximum is below the base |
| Backoff.NeverPanicsFlushedIff | kgoconsumer/backoff.go:46-53 | with powers that underflow to zero, every attempt can draw a delay iff the factor is at least one |
| Backoff.PowVanishes | kgoconsumer/backoff.go:46-47 | the powers of a positive factor below one fall below any positive number |
| Dlq.DlqProducer.Produce | kgoconsumer/dlq.go:30-54 | appends a result object of its own for the record and leaves the outcomes so far alone |
| Dlq.DlqProducer.Callback | kgoconsumer/dlq.go:42-53 | fills in the outcome of one produce call and of no other |
| Dlq.DlqProducer.Collect | kgoconsumer/dlq.go:74-87 | returns exactly the successful records in produce order and one error for each failure |
| Dlq.DlqProducer.Drain | kgoconsumer/dlq.go:71-88 | for every order of completion, returns the successes in produce order and the failures, as the assigned outcomes say |
| Dlq.CompletionOrderIsIrrelevant | kgoconsumer/dlq.go:42-53 | two complete schedules with the same completions assign the same outcomes to the produce calls |
| Dlq.ScheduleCovers | kgoconsumer/dlq.go:71-72 | once every callback is done, none is left out |
| Dlq.FailuresIff | kgoconsumer/dlq.go:77-87 | drain reports an error iff some publish failed, and a context error iff some publish failed with one |
| Dlq.SuccessIff | kgoconsumer/dlq.go:77-83 | a record is returned iff one of its publishes succeeded |
| Dlq.SuccessesInOrder | kgoconsumer/dlq.go:77-83 | the records returned come in produce order |
| Dlq.DrainAccountsForAll | kgoconsumer/dlq.go:74-88 | every produced record is accounted for once, as a success or as an error |
| Batch.BatchConsumer.ConsumeWithRetry | kgoconsumer/consumer.go:250-293 | retries transient failures until success, a permanent failure or the end of the context; calls the record consumer for that record and no other; registers or dead-letters exactly that record; the attempt number equals the waits since the last success |
| Batch.WaitsAreTransient | kgoconsumer/consumer.go:273-291 | the attempt number is the number of transient failures since the last success: a success resets it, a permanent failure does not |
| Batch.BatchConsumer.ConsumeRecords | kgoconsumer/consumer.go:236-247 | at its end the tracker and the dead letters hold exactly the consumed and the permanently failed records of the batch, in order, the calls made are, record by record, those of `Calls`, and it reports a cancel iff some record is left |
| Batch.BatchConsumer.ConsumeFetches | kgoconsumer/consumer.go:226-248 | adds the dead letters to the tracker iff the whole drain succeeded, and joins cancellation with publish errors |
| BatchLaws.BatchPrefix | kgoconsumer/consumer.go:226-248 | consumed and dead-lettered records together are exactly a prefix of the batch in iteration order, each once |
| BatchLaws.DrainedBatchIsAPrefix | kgoconsumer/consumer.go:227-234 | after a successful drain the tracker knows exactly that prefix |
| BatchLaws.SettlingCall | kgoconsumer/consumer.go:267-292 | every settled record got the call that decided it, with nil if it was consumed and a permanent failure if it was dead-lettered, and no call after that one |
| BatchLaws.DecisiveCall | kgoconsumer/consumer.go:267-292 | every call without a transient failure settles its record |
| BatchLaws.CallsInOrder | kgoconsumer/consumer.go:236-245 | each call is for the first record that the calls before it left unsettled |
| Batch.CallsSettle | kgoconsumer/consumer.go:267-292 | the calls without a transient failure are, in order, exactly for the prefix of the batch that was dealt with |
| Batch.CallsConsume | kgoconsumer/consumer.go:273-277 | the calls that returned nil are, in order, exactly for the consumed records |
| Group.Consumer.FetchesFatalError | kgoconsumer/consumer.go:166-188 | a poll is fatal iff some fetch error is not a data loss, read off the error list itself |
| Group.Consumer.RewindToCommitted | kgoconsumer/consumer.go:137-164 | every fetched partition goes back to its commit point, or to its first record if it has none; others stay |
| Group.Consumer.ConsumeBatch | kgoconsumer/consumer.go:107-121 | runs the batch under a stored context, empty if a pending cancel has called it already, and takes what was consumed, dead-lettered and settled from the calls and the drain, which is what the specification of a batch says |
| Group.Consumer.ConsumeAndCommit | kgoconsumer/consumer.go:111-130 | consumes, commits and rewinds with the cancel function still stored, so that a rebalance blocked during the commit changes nothing |
| Group.Consumer.ProcessFetches | kgoconsumer/consumer.go:107-131 | the same for a batch under a context of its own, whose cancel function is stored first and released last on every way out, so that no cancel stays pending but one that comes later |
| Group.Consumer.PollFetches | kgoconsumer/consumer.go:95-131 | takes the group's state exactly one step of the poll, with every early return, and is fatal iff the consumer stops |
| Group.Consumer.OnRebalanceBlocked | kgoconsumer/consumer.go:37-40 | a rebalance blocked between batches leaves a pending cancel and nothing else |
| GroupSafety.FlattenIsValid | kgoconsumer/consumer.go:237-239 | the flat batch has the ascending, gapless order of its fetches, partition by partition |
| GroupSafety.FrontierSafeIff | kgoconsumer/consumer.go:121-128 | everything below the commit point of a partition is consumed or dead-lettered iff the dead letters ahead of its first consumed record were published |
| GroupSafety.DrainedCommitEndsFirstRun | kgoconsumer/consumer.go:121-124 | after a successful drain, gaps or not, a partition is committed iff the batch settled its first fetched record, at the end of the maximal run of consecutive settled offsets from that record |
| GroupRuns.PollKeepsOrder | kgoconsumer/consumer.go:95-131 | committed offset at most the position, both behind records of the log, and no committed offset moves back, whatever happens to the dead letters |
| GroupRuns.PollStopsIff | kgoconsumer/consumer.go:95-135 | a poll ends the consumer iff the client is not closed and either a fetch error is no data loss, or the batch was handled to its end and a dead letter failed with no context error among the failures, or the commit failed; in the first two cases, and when closed, nothing is committed |
| GroupRuns.PollCommittedAt | kgoconsumer/consumer.go:113-124 | in every other case each partition is committed at its commit point where the commit reached it, and stays where it was otherwise |
| GroupRuns.PollPositionAt | kgoconsumer/consumer.go:126-164 | a poll that goes on leaves a fetched partition behind its last record if the batch completed without a context error, and otherwise at its commit point or its first record |
| GroupRuns.PollStoppedAt | kgoconsumer/consumer.go:103-124 | a poll that ends the consumer does not rewind |
| GroupRuns.ResetEpochs | kgoconsumer/consumer.go:137-164 | the points a partition is reset to carry the epoch of its commit point, or the leader epoch and offset of its first record |
| GroupRuns.NoLossIff | kgoconsumer/consumer.go:95-131 | a poll that starts without loss ends without loss iff, when it commits, the dead letters ahead of the first consumed record of every partition that moves were published |
| GroupRuns.DrainedPollIsSafe | kgoconsumer/consumer.go:113-128 | in particular when the drain succeeds |
| GroupRuns.NoLossOverRuns | kgoconsumer/consumer.go:80-131 | over any run under that guard, every record below a committed offset, or below the position of a running consumer, was consumed or dead-lettered |
| GroupRuns.CommitsNeverMoveBack | kgoconsumer/consumer.go:121-128 | over any run at all, no committed offset moves back |
| GroupRuns.PendingCancelSettlesNothing | kgoconsumer/rebalance.go:22-25 | a batch that starts with a pending cancel handles nothing and commits nothing |
| GroupRuns.BlockedThenPolled | kgoconsumer/consumer.go:37-40 | so does the batch after a rebalance that was blocked between two polls |
| GroupRuns.FailedDrainCanLoseARecord | kgoconsumer/consumer.go:227-234 | a poll that loses a record: its publish is rejected, a later record succeeds, the batch is cancelled and still commits |
| GroupDecisions.PollSkipsNothing | kgoconsumer/consumer.go:95-131 | a poll, with any outcome of its dead letters, keeps "every record below a committed offset, or below the position of a running consumer, had a call that settled it" |
| GroupDecisions.NothingSkippedOverRuns | kgoconsumer/consumer.go:80-131 | over any run at all, with failed drains and cancelled batches, no record is skipped undecided |
| GroupOrder.CommitsWhatWasSettled | kgoconsumer/consumer.go:121-128 | with consecutive offsets and a successful drain, a partition commits exactly as many records as the batch settled in it |
| GroupOrder.PollInOrder | kgoconsumer/consumer.go:126-164 | a completed or cancelled poll keeps "settled so far is the log below the committed offset, and the position is that offset" |
| GroupOrder.SettledIsALogPrefix | kgoconsumer/consumer.go:80-164 | over any run with successful drains and commits the records settled in a partition are exactly a prefix of its log, each once and in order |
| Codec.HeaderValue | examples/internal/adapters/kafka/tx_saga_consumer_adapter_in.go:138-145 | the value of the first header with the key; an error iff no header has it |
| Codec.UnregisterRoundTrip | examples/internal/adapters/kafka/validator_adapter_out.go:35-72 | the compensation decodes, from its key and body, to the very register command that was rejected, and the validator ignores it |
| Codec.RegisterRoundTrip | examples/cmd/tx-producer/main.go:223-246 | the producer's record decodes to its command for both consumers |
| Codec.ConsumersAgree | examples/internal/adapters/kafka/tx_consumer_adapter_in.go:47-66 | the validator and the tx-consumer read the same registers, and the tx-consumer rejects whatever the validator rejects |
| Codec.WireFormat | examples/internal/adapters/kafka/tx_saga_consumer_adapter_in.go:57-81 | what each type header makes of each body, with header and types as they are on the wire, also when they do not belong together |
| Codec.UndecodableIff | examples/internal/adapters/kafka/tx_saga_consumer_adapter_in.go:57-81 | a record cannot be decoded iff it has no type, another type, or a body that is no such object |
| Codec.ValidatorReads | examples/internal/adapters/kafka/tx_consumer_adapter_in.go:47-66 | the validator passes over exactly the unregisters, whatever their body, and fails on a missing or unknown type and on a register with no such object |
| Codec.DlqMessageDecodesAlike | kgoconsumer/dlq.go:56-69 | a record taken back from the dead-letter topic decodes to what it was |
| Codec.DlqMessageSaysWhy | kgoconsumer/dlq.go:56-69 | a dead letter keeps key, body and every other header, and names its cause unless it came back from a dead-letter topic with one |
| Tables.ApplyKeepsIntegrity | examples/db/migrations/tx-consumer/2_domain.sql:2-37 | handling a command keeps the log and compensation ids inside the processed table, the foreign key of log rows, and one count row equal to log rows minus compensating rows |
| Tables.ApplyIsIdempotent | saga/consumer.go:48-53 | handling an id again changes nothing, whatever the payload |
| Tables.ApplyMarks | saga/consumer.go:40-46 | handling marks exactly its id, forgets no mark, and moves one aggregate by its delta |
| Tables.KeysAgreeIff | examples/internal/adapters/postgres/aggregate_adapter_out.go:34-47 | two registers share an aggregate iff player and currency agree and some UTC day holds both times |
| Tables.ExecuteMovesIff | examples/internal/adapters/postgres/aggregate_adapter_out.go:28-62 | executing a register changes the aggregate another register reads iff they share player, currency and UTC day and the value is not zero |
| Tables.UndoMovesIff | examples/internal/adapters/postgres/aggregate_adapter_out.go:23-62 | so does a compensation, by the time of the register it names and not by its own |
| Tables.ExecutedRow | examples/internal/adapters/postgres/log_adapter_out.go:18-52 | the log row of an executed register has its player, currency, UTC day, value and time |
| Tables.UndoneRow | examples/internal/adapters/postgres/log_adapter_out.go:54-79 | a compensation leaves a row and a mark under its own id that name the register it undoes, and no log row |
| Saga.ActionsApply | examples/cmd/tx-consumer/main.go:108-111 | the wired actions, run in order and then marked, do to all tables and to the alarms what handling the command means |
| Saga.Session.CommandAlreadyHandled | examples/internal/adapters/postgres/saga_consumer_adapter_out.go:13-27 | answers whether the command's own id is in the processed table |
| Saga.Session.MarkCommandAsHandled | examples/internal/adapters/postgres/saga_consumer_adapter_out.go:29-51 | inserts the id with the id it compensates, and fails exactly when the statement fails or the id is there |
| Saga.Session.TransactionCompensated | examples/internal/adapters/postgres/saga_consumer_adapter_out.go:53-67 | answers whether some processed command compensates the transaction |
| Saga.Session.Shift | examples/internal/adapters/postgres/aggregate_adapter_out.go:28-62 | adds the delta to the row of player, currency and UTC day, inserting it when missing, and returns the new value |
| Saga.Session.UpdateAlarmState | examples/internal/domain/tx/aggregate.go:69-110 | publishes the alarm of the crossing between the recomputed previous value and the new one, at most once, and when it fails exactly if the publish reached the topic unacknowledged |
| Saga.Session.InsertLog | examples/internal/adapters/postgres/log_adapter_out.go:18-52 | inserts one row, and fails exactly when the statement fails, the id is there or the aggregate row is missing |
| Saga.Session.InsertCompensatingLog | examples/internal/adapters/postgres/log_adapter_out.go:54-79 | inserts one row, and fails exactly when the statement fails or the id is there |
| Saga.Session.ShiftCount | examples/internal/adapters/postgres/count_adapter_out.go:27-52 | adds the delta to every row, or inserts a row of its own when there was none, which takes a second statement |
| Saga.Session.TxExecute | examples/internal/adapters/sagaadapters/tx.go:45-53 | the aggregate, the alarm and the log row of the register, in this order: it succeeds iff the statements for all of them do and the id is new, and the alarm is out iff the aggregate was shifted and the publish got through |
| Saga.Session.TxCompensate | examples/internal/adapters/sagaadapters/tx.go:55-63 | the subtraction, the alarm and the compensating row, in this order and under the same condition |
| Saga.Session.NewSagaActionConsumer | saga/consumer.go:70-97 | executes a register unless it is compensated, and compensates unconditionally |
| Saga.Session.RunAll | saga/consumer.go:61-65 | runs all actions in order, or fails with the first that fails; it succeeds iff the statements suffice for all of them and the id is new |
| Saga.Session.Consume | saga/consumer.go:37-68 | on success the tables are those of handling the command once, or untouched if it was handled; with integrity it succeeds iff no statement fails, and the alarm is out iff the statements ahead of its publish and the publish itself succeeded, whatever fails later |
| Saga.Database.WithTx | examples/internal/adapters/postgres/transactions.go:12-35 | nil means committed; an error is transient iff it was classified so, and leaves the tables as they were, or as after handling iff the commit went through unreported; the alarms published are kept either way, and are exactly those whose publish was reached |
| Saga.Database.ConsumeRecord | examples/internal/adapters/kafka/tx_saga_consumer_adapter_in.go:41-55 | an undecodable record fails permanently and touches nothing; any other is one transaction whose error is transient iff it was classified so |
| History.RedeliveryRefinement | saga/consumer.go:37-68 | any trace of committed, rolled-back and committed-but-reported-failed attempts leaves the tables of handling each id once, at its first committed attempt |
| History.AggregateIsTotal | examples/internal/domain/tx/aggregate.go:42-67 | an aggregate is the sum of its history: registers not compensated before them, less all compensations |
| History.LoggedIffExecuted | saga/consumer.go:70-85 | a transaction has a log row iff its register was committed before every compensation of it |
| History.SkippedRegisterStaysHandled | saga/consumer.go:40-46 | a register after its compensation leaves only its mark, and later deliveries of it are no-ops |
| History.RegisterThenUndo | saga/consumer.go:79-94 | a register and a later compensation of it cancel out in any surroundings |
| History.UndoThenRegister | saga/consumer.go:70-94 | the other way round they leave the aggregate short by the value |
| History.CompensationUndoesIff | saga/consumer.go:70-94 | they cancel out iff the register came first or the value is zero |
| History.ReplayKeepsIntegrity | examples/db/migrations/tx-consumer/2_domain.sql:18-37 | every history leaves a database with integrity |
| Conservation.Conserved | examples/internal/adapters/sagaadapters/tx.go:45-63 | after any trace of attempts an aggregate is the sum of its log rows less its compensated values, and the count is log rows minus compensating rows |
| Conservation.EmitsOnCrossing | examples/internal/domain/tx/aggregate.go:112-124 | one run emits one alarm of the right kind iff the stored aggregate changes sides of the threshold, and a raise carries the threshold and the aggregate as stored |
| Conservation.AlarmsAlternate | examples/internal/domain/tx/aggregate.go:69-124 | over any committed run the raises and clears of an aggregate alternate, and raises minus clears says on which side it stands |
| Conservation.RaisesCarryValues | examples/internal/domain/tx/aggregate.go:77-88 | over any committed run every raise carries the threshold and the aggregate as it was stored right after the command it came from |
| Conservation.TopicContainsCommitted | examples/internal/domain/tx/aggregate.go:88-100 | the alarms topic contains the committed alarms as a subsequence, with possibly more from rolled-back attempts |
| Concurrency.DuplicatesTakeEffectOnce | examples/internal/adapters/postgres/saga_consumer_adapter_out.go:29-51 | over every interleaving of any number of handlers, at most one of those with one id commits an effect, the aggregates are the sums of the committed changes, and every log or compensating row is that of a committed handler |
| Concurrency.NoUpdateIsLost | examples/internal/adapters/postgres/aggregate_adapter_out.go:34-40 | until a handler ends, the aggregate it has written is the committed one with its own change on top, and no other open handler has written that row |
| Concurrency.AloneApplies | saga/consumer.go:37-68 | from any reachable state with at most one count row, a handler that runs while no other is writing can run to its end and leaves the tables of handling its command |
| Concurrency.CountIsRightIff | examples/internal/adapters/postgres/count_adapter_out.go:27-52 | under the row locks, the count table is one row with the total iff no two committed handlers both found it empty |
| Concurrency.TwoHandlersCanSplitTheCount | examples/internal/adapters/postgres/count_adapter_out.go:33-43 | an interleaving of handlers for two different players that leaves two count rows |
| EndToEnd.ExactlyOnceTables | kgoconsumer/consumer.go:95-131 | in every state reached by polls, rebalances, crashes and restarts over the saga database, the tables are those of handling commands read from the logs, every processed id exactly once, and every consumed record is processed |
| EndToEnd.ExactlyOnceEffect | kgoconsumer/consumer.go:95-131 | under the guard of NoLossIff, moreover, each record below a committed offset is dead-lettered or has its id processed |
| EndToEnd.CallsFollowTheLog | kgoconsumer/consumer.go:236-245 | when the handler is called for a record, everything before it in its partition was settled by an earlier batch or earlier in the same one, whatever became of the dead letters |
| EndToEnd.DeadLetterFailedForGood | kgoconsumer/consumer.go:267-292 | a decodable record is dead-lettered only by an attempt whose error was not classified as transient, and that is the last attempt at it |
| EndToEnd.TransientIsRetried | kgoconsumer/consumer.go:278-284 | an attempt at a decodable record with a transient error is followed by another at the same record while the context lasts |
| Validation.Validator.Unregister | examples/internal/adapters/kafka/validator_adapter_out.go:35-49 | publishes one compensation of the command under a new id, keyed by the transaction, possibly also when it fails |
| Validation.Validator.ValidateAndCompensate | examples/internal/domain/tx/validator.go:25-41 | a verdict of valid succeeds and publishes nothing, no verdict fails and publishes nothing, and a verdict of invalid succeeds iff its compensation was acknowledged |
| Validation.Validator.WithTx | idempotent/consumer.go:31-56 | succeeds iff the whole function and the commit do; the id is marked iff the function returned nil and the commit was applied; the compensation is in the topic iff an unjudged command was judged invalid and the publish was not lost, whatever became of the mark; an error is transient iff it was classified so |
| Validation.Validator.ConsumeRecord | examples/internal/adapters/kafka/tx_consumer_adapter_in.go:21-37 | compensations succeed without effect, undecodable records fail permanently, registers are one transaction |
| Validation.AttemptsOnlyAppend | examples/internal/adapters/kafka/validator_adapter_out.go:35-49 | what an attempt may do does not depend on what is in the topic, so others may append while it runs |
| TopicLog.TermsAreNet | examples/internal/adapters/kafka/validator_adapter_out.go:60-64 | adding up the processed messages is adding up the processed registers, each less its processed compensations |
| Choreography.JudgesUnjudged | examples/internal/domain/tx/validator.go:25-41 | an attempt of the validator that publishes or marks anything is at a register of an unjudged id, and all it publishes is one compensation of it |
| Choreography.VerdictIsTheAnswer | examples/internal/domain/tx/validator.go:25-41 | the decision recorded with a mark is the verdict of the attempt that marked it, about the register in the log |
| Choreography.JudgesFirstRegister | examples/internal/domain/tx/validator.go:25-41 | with no register dead-lettered by the validator, that register is the first with its id |
| Choreography.ReachedIsNew | examples/internal/adapters/kafka/validator_adapter_out.go:60-64 | the shared key makes the tx-consumer reach a compensation after its register, and an unprocessed command first among those with its id |
| Choreography.RunKeepsInv | saga/consumer.go:37-68 | over every interleaving the log stays well-formed, done records stay processed, and every aggregate stays the sum over the processed ids |
| Convergence.NetAtAnyTime | saga/consumer.go:37-68 | in every reachable state an aggregate is the sum of the processed registers, each counted once and taken off once per processed compensation |
| Convergence.Converges | examples/internal/domain/tx/validator.go:25-41 | once both consumers reached the end of the log, without a rollback after a publish, every aggregate is the sum of the accepted first-occurrence registers |
| Convergence.ConvergesIff | examples/internal/domain/tx/validator.go:36-38 | with positive values, all aggregates are those sums iff the validator never rolled back after publishing |
| Convergence.NeverNegative | examples/internal/domain/tx/aggregate.go:55-67 | with positive values and no such rollback, no aggregate is ever negative, settled or not |
| Contributions.BalanceAtAnyTime | examples/internal/adapters/sagaadapters/tx.go:45-63 | in every run, whatever was dead-lettered, an aggregate is the sum of its log rows less the values of the processed compensations in the log |
| Contributions.AggregateIsContributions | examples/internal/domain/tx/aggregate.go:42-67 | in every run an aggregate is the sum of what the transactions in the log contribute |
| Contributions.ContributionIsRightIff | saga/consumer.go:70-97 | with positive values, no rollback after a publish and no attempt at it running, a transaction contributes what was decided iff an accepted register was executed as judged, a rejected one was executed exactly when its compensation was processed, and an unjudged one was not executed |
| Contributions.ContributionIsNegativeIff | saga/consumer.go:87-94 | a transaction takes more off some aggregate than it put there iff its compensation is processed and its log row does not cover it |
| Contributions.ConvergesAsJudged | examples/internal/domain/tx/validator.go:25-41 | when every transaction was handled as judged, every aggregate is the sum of the accepted values, whatever was dead-lettered |
| Contributions.NonNegativeWhileCovered | examples/internal/domain/tx/aggregate.go:55-67 | no aggregate is negative while every processed compensation is covered by its log row |
| Reading.CallIsAtItsTurn | kgoconsumer/consumer.go:236-245 | each call of a consumer group, at any point of a poll and of a run, is for an index of the merged log whose predecessors under its key are all done |
| Reading.CommittedIsDone | kgoconsumer/consumer.go:121-124 | everything below a committed offset is done |
| Pipeline.CallIsConsume | examples/internal/adapters/kafka/tx_saga_consumer_adapter_in.go:41-55 | every call of the tx-consumer is a consume step that the choreography allows at that point |
| Pipeline.CallIsPublish | examples/internal/adapters/kafka/tx_consumer_adapter_in.go:21-37 | every publish of the validator is a publish step that the choreography allows at that point |
| Pipeline.CallIsFinish | examples/internal/adapters/kafka/tx_consumer_adapter_in.go:21-37 | every call of the validator ends in a finish step that the choreography allows at that point |
| Pipeline.RunIsChoreography | kgoconsumer/consumer.go:80-131 | every interleaving of the calls, polls, crashes, rebalances and restarts of both groups with the producer is a run of the choreography, with or without failed drains |
| Pipeline.PollLoopsContribute | saga/consumer.go:37-68 | over any such run every aggregate is the sum of the contributions, and without a rollback after a publish a transaction contributes what was decided iff it was handled as judged |
| Pipeline.PollLoopsConvergeAsJudged | examples/internal/domain/tx/validator.go:25-41 | when every transaction was handled as judged, the poll loops leave every aggregate at the sum of the accepted values |
| Pipeline.CaughtUpIsSettled | kgoconsumer/consumer.go:121-124 | committed offsets of both groups past every record mean that both are through with the whole log |
| Pipeline.PollLoopsConvergeIff | examples/internal/domain/tx/validator.go:36-38 | caught up, with positive values and no command dead-lettered unhandled, every aggregate is the sum of the accepted values iff the validator never rolled back after publishing |
| Convergence.RunExcess | examples/internal/adapters/kafka/validator_adapter_out.go:35-49 | compensations beyond the verdicts are never taken back, and there are none without such a rollback |
| ConvergenceSamples.RollbackAfterPublish | examples/internal/domain/tx/validator.go:36-38 | a run in which every command is handled once and a transaction is taken off twice |
| ConvergenceSamples.DeadLetteredRegister | saga/consumer.go:87-94 | a run in which a dead-lettered register's compensation leaves a negative aggregate |

## Left out

- The franz-go client, the Kafka protocol, group membership and the broker: only logs, fetch positions and committed offsets remain.
- Postgres and pgx: tables are maps, a transaction is a step with its outcomes; the timestamp columns created_at of aggregates, updated_at and that of compensating rows are not kept.
- The classification of database errors as transient or permanent: it is a choice of the environment.
- Rejection of ids that are not UUIDs: ids are any strings.
- Integer overflow of the value columns, and the rounding of float64 in the backoff other than underflow to zero.
- The timer and the random draw of a delay: only the range of the draw is modelled.
- JSON text, and marshalling errors: bodies are the values they encode.
- The alarm id and its errors: an alarm emission carries its aggregate instead, and a failure to draw an id is a failure to publish.
- The mail sender and its alarm saga: it records the player id as the compensated id, so the claims about compensation do not carry over, and the rest is mail delivery.
- kgoconsumer/runner.go: a fan-in of errors with only easy properties.
- Tracing, observers, span wrappers, configuration, migrations runner and deployment: no behaviour to prove.
- The text of accumulated errors: an error keeps only whether it is a cancellation and which publishes failed.
- Backoff.BackoffTimer.Wait: states the range of the draw and the count of the attempt; the draw, the timer and which of timer and context ends the wait are the environment's, and Batch.BatchConsumer.ConsumeWithRetry checks the context after it.
- Backoff.NeverPanicsIff: powers are real; underflow is in Backoff.NeverPanicsFlushedIff, other rounding is not modelled.
- GroupOrder.CommitsWhatWasSettled: for consecutive offsets; GroupSafety.DrainedCommitEndsFirstRun is the statement for any log.
- Concurrency.DuplicatesTakeEffectOnce: alarms published by handlers that abort are not part of the concurrent model, and deadlocks appear only as aborts.
- Choreography.RunKeepsInv: assumes that no command is dead-lettered unhandled; Contributions.BalanceAtAnyTime is what every run keeps.
- Convergence.NetAtAnyTime: assumes that no command is dead-lettered unhandled; Contributions.AggregateIsContributions does not.
- Convergence.Converges: assumes that no command is dead-lettered unhandled, which ConvergenceSamples.DeadLetteredRegister shows it must; Contributions.ConvergesAsJudged covers the other runs.
- Convergence.ConvergesIff: exact among the runs in which no command is dead-lettered unhandled; Contributions.ContributionIsRightIff is exact per transaction in all runs without a rollback after a publish.
- Convergence.NeverNegative: assumes that no command is dead-lettered unhandled; Contributions.NonNegativeWhileCovered does not.
- Pipeline.PollLoopsConvergeIff: assumes that no command is dead-lettered unhandled; Pipeline.PollLoopsContribute and Pipeline.PollLoopsConvergeAsJudged do not.
