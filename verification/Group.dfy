/** kgoconsumer/consumer.go, one poll: fetch, consume, drain, commit, and rewind if cancelled. */
module Group {
  import opened Kafka
  import opened Offsets
  import opened Dlq
  import opened Batch
  import Rebalance

  datatype FetchPartition = FetchPartition(tp: TopicPartition, records: seq<Record>)

  datatype FetchError = DataLoss | OtherFetchError

  /** How the broker answers a commit. The source looks only at the error of the whole request, so a
      commit it takes for a success may still have been refused for some partitions, and a failed
      one may have been applied to some. */
  datatype CommitAnswer = CommitAnswer(applied: set<TopicPartition>, failed: bool)

  /** Everything the environment decides about one poll. */
  datatype PollInput = PollInput(
    closed: bool,
    fetches: seq<FetchPartition>,
    errors: seq<FetchError>,
    results: seq<HandlerResult>,
    published: seq<PublishOutcome>,
    commit: CommitAnswer)

  /** The partitions of a consumer group with the one consumer that owns them. A log maps offsets to
      records and may have gaps. `settled` is every record whose handling ended, in order;
      `consumed` and `dlq` are those that succeeded and those on the dead-letter topic. */
  datatype Group = Group(
    logs: map<TopicPartition, map<int, Record>>,
    committed: map<TopicPartition, int>,
    position: map<TopicPartition, int>,
    consumed: seq<Record>,
    dlq: seq<Record>,
    settled: seq<Record>,
    pendingCancel: bool,
    running: bool)

  function At(offsets: map<TopicPartition, int>, tp: TopicPartition): int {
    if tp in offsets then offsets[tp] else 0
  }

  function LogOf(g: Group, tp: TopicPartition): map<int, Record> {
    if tp in g.logs then g.logs[tp] else map[]
  }

  // ---- Specification of a poll ----

  /** RecordIter visits the partitions in turn. */
  function Flatten(fetches: seq<FetchPartition>): seq<Record> {
    if fetches == [] then []
    else Flatten(fetches[..|fetches| - 1]) + fetches[|fetches| - 1].records
  }

  /** Fetching moves the cursor of every partition behind its last record. */
  function Advance(position: map<TopicPartition, int>, fetches: seq<FetchPartition>): map<TopicPartition, int> {
    if fetches == [] then position
    else
      var last := fetches[|fetches| - 1];
      var before := Advance(position, fetches[..|fetches| - 1]);
      if last.records == [] then before else before[last.tp := last.records[|last.records| - 1].offset + 1]
  }

  function ResetOffsets(fetches: seq<FetchPartition>, committable: map<TopicPartition, EpochOffset>)
    : map<TopicPartition, EpochOffset>
  {
    if fetches == [] then map[]
    else
      var last := fetches[|fetches| - 1];
      var before := ResetOffsets(fetches[..|fetches| - 1], committable);
      if last.records == [] then before
      else if last.tp in committable then before[last.tp := committable[last.tp]]
      else before[last.tp := EpochOffset(last.records[0].leaderEpoch, last.records[0].offset)]
  }

  /** Overwrites some offsets; used for commits and for SetOffsets. */
  function Overwrite(offsets: map<TopicPartition, int>, points: map<TopicPartition, EpochOffset>,
                     partitions: set<TopicPartition>): map<TopicPartition, int>
  {
    offsets + map tp | tp in points && tp in partitions :: points[tp].offset
  }

  predicate FatalErrors(errors: seq<FetchError>) {
    OtherFetchError in errors
  }

  /** A cancel that arrived while no batch was in flight cancels the next one at once. */
  function Script(g: Group, input: PollInput): seq<HandlerResult> {
    if g.pendingCancel then [] else input.results
  }

  function BatchOutcomes(g: Group, input: PollInput): (outcomes: seq<Outcome>)
    ensures |outcomes| <= |Flatten(input.fetches)|
  {
    Outcomes(|Flatten(input.fetches)|, Script(g, input))
  }

  function DeadLetters(g: Group, input: PollInput): seq<Record> {
    WithOutcome(Flatten(input.fetches), BatchOutcomes(g, input), DeadLettered)
  }

  function Tracked(g: Group, input: PollInput): seq<Record> {
    Registered(Flatten(input.fetches), BatchOutcomes(g, input), input.published)
  }

  function ErrorOf(g: Group, input: PollInput): BatchError {
    BatchError(|BatchOutcomes(g, input)| < |Flatten(input.fetches)|, Failures(input.published))
  }

  /** The state when the batch has been consumed and drained, before any commit. */
  function AfterBatch(g: Group, input: PollInput): Group
    requires |input.published| == |DeadLetters(g, input)|
  {
    var records, outcomes := Flatten(input.fetches), BatchOutcomes(g, input);
    g.(position := Advance(g.position, input.fetches),
       consumed := g.consumed + WithOutcome(records, outcomes, Consumed),
       dlq := g.dlq + Successes(DeadLetters(g, input), input.published),
       settled := g.settled + records[..|outcomes|],
       pendingCancel := false)
  }

  ghost function Poll(g: Group, input: PollInput): Group
    requires |input.published| == |DeadLetters(g, input)|
  {
    if input.closed then g
    else if FatalErrors(input.errors) then
      g.(position := Advance(g.position, input.fetches), running := false)
    else
      var err := ErrorOf(g, input);
      var consumed := AfterBatch(g, input);
      if !err.IsNil() && !err.ContextCanceled() then consumed.(running := false)
      else
        var committable := Committable(Tracked(g, input));
        var committed := consumed.(committed := Overwrite(g.committed, committable, input.commit.applied));
        if input.commit.failed then committed.(running := false)
        else if err.ContextCanceled() then
          var reset := ResetOffsets(input.fetches, committable);
          committed.(position := Overwrite(committed.position, reset, reset.Keys))
        else committed
  }

  // ---- Implementation ----

  class Consumer {
    const base: int
    const max: int
    const factor: real
    const cancelProcessing: Rebalance.CancelProcessingStore
    var group: Group
    var nextContext: nat

    ghost predicate Valid()
      reads this, cancelProcessing
    {
      && 0 < base && 0 < max
      && cancelProcessing.cancelFunc.None?
      && cancelProcessing.shouldCancel == group.pendingCancel
      && forall context | context in cancelProcessing.cancelled :: context < nextContext
    }

    constructor (base: int, max: int, factor: real, group: Group)
      requires 0 < base && 0 < max && !group.pendingCancel
      ensures Valid() && this.group == group && fresh(cancelProcessing)
    {
      this.base, this.max, this.factor, this.group := base, max, factor, group;
      nextContext := 0;
      cancelProcessing := new Rebalance.CancelProcessingStore();
    }

    /** The callback of a rebalance that is blocked while no batch is in flight. */
    method OnRebalanceBlocked()
      requires Valid()
      modifies this`group, cancelProcessing
      ensures Valid() && group == old(group).(pendingCancel := true)
    {
      cancelProcessing.Cancel();
      group := group.(pendingCancel := true);
    }

    static method FetchesFatalError(errors: seq<FetchError>) returns (fatal: bool)
      ensures fatal <==> FatalErrors(errors)
      ensures fatal <==> exists i :: 0 <= i < |errors| && errors[i] != DataLoss
    {
      var allNonFatal, joined := true, [];
      for i := 0 to |errors|
        invariant joined == errors[..i]
        invariant allNonFatal <==> OtherFetchError !in errors[..i]
      {
        if errors[i] != DataLoss {
          allNonFatal := false;
        }
        joined := joined + [errors[i]];
      }
      assert errors[..|errors|] == errors;
      if allNonFatal && joined != [] {
        return false;
      }
      return joined != [];
    }

    method RewindToCommitted(fetches: seq<FetchPartition>, committable: map<TopicPartition, EpochOffset>)
      modifies this`group
      ensures var reset := ResetOffsets(fetches, committable);
              group == old(group).(position := Overwrite(old(group).position, reset, reset.Keys))
    {
      var resetOffsets: map<TopicPartition, EpochOffset> := map[];
      for i := 0 to |fetches|
        invariant resetOffsets == ResetOffsets(fetches[..i], committable)
      {
        assert fetches[..i + 1][..i] == fetches[..i];
        var p := fetches[i];
        if p.records != [] {
          if p.tp in committable {
            resetOffsets := resetOffsets[p.tp := committable[p.tp]];
          } else {
            var first := p.records[0];
            resetOffsets := resetOffsets[p.tp := EpochOffset(first.leaderEpoch, first.offset)];
          }
        }
      }
      assert fetches[..|fetches|] == fetches;
      group := group.(position := Overwrite(group.position, resetOffsets, resetOffsets.Keys));
    }

    /** newBatchConsumer and what a poll asks of it: its error, what it lets commit, the calls it made of
        the record consumer and what it put on the dead-letter topic. */
    method RunBatch(results: seq<HandlerResult>, records: seq<Record>, schedule: seq<Completion>,
                    ghost published: seq<PublishOutcome>)
      returns (err: BatchError, committable: map<TopicPartition, EpochOffset>, calls: seq<Record>,
               deadLettered: seq<Record>)
      requires 0 < base && 0 < max
      requires |published| == |WithOutcome(records, Outcomes(|records|, results), DeadLettered)|
      requires IsSchedule(schedule, |published|) && Assigns(schedule, published)
      ensures var outcomes := Outcomes(|records|, results);
              && err == BatchError(|outcomes| < |records|, Failures(published))
              && committable == Committable(Registered(records, outcomes, published))
              && deadLettered == Successes(WithOutcome(records, outcomes, DeadLettered), published)
      ensures calls == Calls(records, results)
    {
      var ctx := new BatchContext(results);
      var consumer := new BatchConsumer(base, max, factor);
      err, deadLettered := consumer.ConsumeFetches(ctx, records, schedule, published);
      committable := consumer.tracker.CommittableEpochOffsets();
      calls := ctx.calls;
    }

    /** A batch is in flight: its cancel function is stored, and called already if a cancel was pending. */
    ghost predicate InFlight(context: nat)
      reads this, cancelProcessing
    {
      && 0 < base && 0 < max
      && cancelProcessing.cancelFunc == Some(context)
      && forall other | other in cancelProcessing.cancelled :: other < nextContext
    }

    /** The batch part of a poll: consume under a context registered with the cancel store. */
    method ConsumeBatch(input: PollInput, schedule: seq<Completion>, context: nat)
      returns (err: BatchError, committable: map<TopicPartition, EpochOffset>)
      requires InFlight(context) && |input.published| == |DeadLetters(group, input)|
      requires context in cancelProcessing.cancelled <==> group.pendingCancel
      requires IsSchedule(schedule, |input.published|) && Assigns(schedule, input.published)
      modifies this`group
      ensures group == AfterBatch(old(group), input)
      ensures err == ErrorOf(old(group), input)
      ensures committable == Committable(Tracked(old(group), input))
    {
      // the context is done from the start if storing it called its cancel function
      var results := if context in cancelProcessing.cancelled then [] else input.results;
      var calls, deadLettered;
      err, committable, calls, deadLettered := RunBatch(results, Flatten(input.fetches), schedule, input.published);
      CallsConsume(Flatten(input.fetches), results);
      CallsSettle(Flatten(input.fetches), results);
      group := group.(position := Advance(group.position, input.fetches),
                      consumed := group.consumed + Successful(calls, results),
                      dlq := group.dlq + deadLettered,
                      settled := group.settled + Decided(calls, results),
                      pendingCancel := false);
    }

    /** What a poll does between storing its cancel function and releasing it. A rebalance that is
        blocked while the offsets are being committed only calls the stored function. */
    method ConsumeAndCommit(input: PollInput, schedule: seq<Completion>, context: nat, blockedAtCommit: bool)
      returns (fatal: bool)
      requires InFlight(context) && context < nextContext && |input.published| == |DeadLetters(group, input)|
      requires context in cancelProcessing.cancelled <==> group.pendingCancel
      requires IsSchedule(schedule, |input.published|) && Assigns(schedule, input.published)
      requires group.running && !input.closed && !FatalErrors(input.errors)
      modifies this`group, cancelProcessing
      ensures InFlight(context) && group == Poll(old(group), input)
      ensures fatal <==> !group.running
      ensures !group.pendingCancel
    {
      var err, committable := ConsumeBatch(input, schedule, context);
      var canceled := err.ContextCanceled();
      if !canceled && !err.IsNil() {
        group := group.(running := false);
        return true;
      }

      if blockedAtCommit {
        cancelProcessing.Cancel();
      }
      group := group.(committed := Overwrite(group.committed, committable, input.commit.applied));
      if input.commit.failed {
        group := group.(running := false);
        return true;
      }
      if canceled {
        RewindToCommitted(input.fetches, committable);
      }
      return false;
    }

    /** A batch under its own context. The release is the last thing that happens on every way out, so a
        cancel that comes later is kept for the next batch. */
    method ProcessFetches(input: PollInput, schedule: seq<Completion>, blockedAtCommit: bool) returns (fatal: bool)
      requires Valid() && |input.published| == |DeadLetters(group, input)|
      requires IsSchedule(schedule, |input.published|) && Assigns(schedule, input.published)
      requires group.running && !input.closed && !FatalErrors(input.errors)
      modifies this`group, this`nextContext, cancelProcessing
      ensures Valid() && group == Poll(old(group), input)
      ensures fatal <==> !group.running
    {
      var context := nextContext;
      nextContext := nextContext + 1;
      cancelProcessing.Store(context);
      fatal := ConsumeAndCommit(input, schedule, context, blockedAtCommit);
      cancelProcessing.Release();
    }

    /** `fatal` is the error return that ends StartPolling. */
    method PollFetches(input: PollInput, schedule: seq<Completion>, blockedAtCommit: bool) returns (fatal: bool)
      requires Valid() && group.running && |input.published| == |DeadLetters(group, input)|
      requires IsSchedule(schedule, |input.published|) && Assigns(schedule, input.published)
      modifies this`group, this`nextContext, cancelProcessing
      ensures Valid() && group == Poll(old(group), input)
      ensures fatal <==> !group.running
    {
      if input.closed {
        return false;
      }
      var fatalFetch := FetchesFatalError(input.errors);
      if fatalFetch {
        group := group.(position := Advance(group.position, input.fetches), running := false);
        return true;
      }
      fatal := ProcessFetches(input, schedule, blockedAtCommit);
    }
  }
}
