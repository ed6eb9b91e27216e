/** kgoconsumer/consumer.go, the batch consumer: records are handled one by one with retries until
    the batch ends or its context does. */
module Batch {
  import opened Kafka
  import opened Offsets
  import opened Dlq
  import opened Backoff

  /** What one call of the record consumer returns: nil, an error marked transient, any other error. */
  datatype HandlerResult = Succeeded | Transient | Permanent

  datatype Outcome = Consumed | DeadLettered

  /** The context of one batch together with the answers its record consumer will give and the calls
      made of it so far. The context is done exactly when no answer is left, so the length of
      `results` is the cancellation point; it is finite because the processing timeout ends every
      batch. */
  class BatchContext {
    const results: seq<HandlerResult>
    var calls: seq<Record>

    constructor (results: seq<HandlerResult>)
      ensures this.results == results && calls == []
    {
      this.results := results;
      calls := [];
    }

    predicate Done()
      reads this
    {
      |results| <= |calls|
    }

    method Handle(record: Record) returns (result: HandlerResult)
      requires !Done()
      modifies this
      ensures result == results[|old(calls)|] && calls == old(calls) + [record]
    {
      result := results[|calls|];
      calls := calls + [record];
    }
  }

  // ---- Specification ----

  /** How the retries of one record end; None when the context is done first. */
  function Retry(script: seq<HandlerResult>): Option<Outcome> {
    if script == [] then None
    else match script[0] {
      case Succeeded => Some(Consumed)
      case Permanent => Some(DeadLettered)
      case Transient => Retry(script[1..])
    }
  }

  /** How many calls those retries make. */
  function RetryCalls(script: seq<HandlerResult>): (calls: nat)
    ensures calls <= |script|
  {
    if script == [] then 0
    else if script[0] == Transient then 1 + RetryCalls(script[1..])
    else 1
  }

  /** The outcomes of the records handled by a batch of n records, in iteration order. */
  function Outcomes(n: nat, script: seq<HandlerResult>): (outcomes: seq<Outcome>)
    ensures |outcomes| <= n
  {
    if n == 0 || Retry(script).None? then []
    else [Retry(script).value] + Outcomes(n - 1, script[RetryCalls(script)..])
  }

  function Repeated(record: Record, n: nat): (records: seq<Record>)
    ensures |records| == n && forall record' | record' in records :: record' == record
  {
    seq(n, i => record)
  }

  /** The record of every call of the record consumer, in order. */
  function Calls(records: seq<Record>, script: seq<HandlerResult>): (calls: seq<Record>)
    ensures |calls| <= |script|
  {
    if records == [] then []
    else
      var own := Repeated(records[0], RetryCalls(script));
      if Retry(script).None? then own else own + Calls(records[1..], script[RetryCalls(script)..])
  }

  function WithOutcome(records: seq<Record>, outcomes: seq<Outcome>, outcome: Outcome): seq<Record>
    requires |outcomes| <= |records|
  {
    if outcomes == [] then []
    else
      var n := |outcomes| - 1;
      WithOutcome(records, outcomes[..n], outcome) + (if outcomes[n] == outcome then [records[n]] else [])
  }

  /** What the tracker knows when a batch ends: a failed drain registers no dead-lettered record. */
  function Registered(records: seq<Record>, outcomes: seq<Outcome>, published: seq<PublishOutcome>): seq<Record>
    requires |outcomes| <= |records|
  {
    WithOutcome(records, outcomes, Consumed)
    + if AllPublished(published) then WithOutcome(records, outcomes, DeadLettered) else []
  }

  /** The retries since the last success, which is what the next delay is computed from. */
  function WaitsSinceSuccess(history: seq<HandlerResult>): nat {
    if history == [] then 0
    else
      var before := history[..|history| - 1];
      match history[|history| - 1] {
        case Succeeded => 0
        case Transient => 1 + WaitsSinceSuccess(before)
        case Permanent => WaitsSinceSuccess(before)
      }
  }

  /** The error of a batch: cancelled before its end, plus the errors of the drain. */
  datatype BatchError = BatchError(cancelled: bool, publishErrs: seq<PublishOutcome>)
  {
    predicate IsNil() {
      !cancelled && publishErrs == []
    }

    // contextCanceled: errors.Is looks through the joined errors
    predicate ContextCanceled() {
      cancelled || Interrupted in publishErrs
    }
  }

  /** The outcomes from the i-th on are those of what is left of the script. */
  ghost predicate OutcomesLeft(n: nat, script: seq<HandlerResult>, i: nat, next: nat) {
    i <= |Outcomes(n, script)| && next <= |script|
    && Outcomes(n, script)[i..] == Outcomes(n - i, script[next..])
  }

  /** So are the calls after these. */
  ghost predicate CallsLeft(records: seq<Record>, script: seq<HandlerResult>, i: nat, calls: seq<Record>) {
    i <= |records| && |calls| <= |script|
    && Calls(records, script) == calls + Calls(records[i..], script[|calls|..])
  }

  /** After i records and these calls, what remains of the batch is a batch of its own. */
  ghost predicate Progress(records: seq<Record>, script: seq<HandlerResult>, i: nat, calls: seq<Record>) {
    OutcomesLeft(|records|, script, i, |calls|) && CallsLeft(records, script, i, calls)
  }

  lemma ProgressStop(records: seq<Record>, script: seq<HandlerResult>, i: nat, calls: seq<Record>)
    requires Progress(records, script, i, calls) && i < |records| && Retry(script[|calls|..]).None?
    ensures i == |Outcomes(|records|, script)|
    ensures Calls(records, script) == calls + Repeated(records[i], RetryCalls(script[|calls|..]))
  {
    assert Outcomes(|records|, script)[i..] == [];
  }

  lemma OutcomesAfter(n: nat, script: seq<HandlerResult>)
    requires 0 < n && Retry(script).Some?
    ensures Outcomes(n, script) == [Retry(script).value] + Outcomes(n - 1, script[RetryCalls(script)..])
    ensures Outcomes(n, script)[1..] == Outcomes(n - 1, script[RetryCalls(script)..])
  {
  }

  lemma CallsAfter(records: seq<Record>, script: seq<HandlerResult>)
    requires records != [] && Retry(script).Some?
    ensures Calls(records, script)
         == Repeated(records[0], RetryCalls(script)) + Calls(records[1..], script[RetryCalls(script)..])
  {
  }

  lemma OutcomesStep(n: nat, script: seq<HandlerResult>, i: nat, next: nat)
    requires OutcomesLeft(n, script, i, next) && i < n && Retry(script[next..]).Some?
    ensures OutcomesLeft(n, script, i + 1, next + RetryCalls(script[next..]))
    ensures Outcomes(n, script)[i] == Retry(script[next..]).value
  {
    var outcomes, rest := Outcomes(n, script), script[next..];
    assert rest[RetryCalls(rest)..] == script[next + RetryCalls(rest)..];
    OutcomesAfter(n - i, rest);
    assert outcomes[i..][0] == outcomes[i] && outcomes[i + 1..] == outcomes[i..][1..];
  }

  lemma Assoc<T>(all: seq<T>, a: seq<T>, b: seq<T>, c: seq<T>)
    requires all == a + (b + c)
    ensures all == (a + b) + c
  {
  }

  lemma CallsStep(records: seq<Record>, script: seq<HandlerResult>, i: nat, calls: seq<Record>)
    requires CallsLeft(records, script, i, calls) && i < |records| && Retry(script[|calls|..]).Some?
    ensures CallsLeft(records, script, i + 1, calls + Repeated(records[i], RetryCalls(script[|calls|..])))
  {
    var rest := script[|calls|..];
    var own, tail := Repeated(records[i], RetryCalls(rest)), rest[RetryCalls(rest)..];
    assert tail == script[|calls + own|..] && records[i..][1..] == records[i + 1..];
    CallsAfter(records[i..], rest);
    Assoc(Calls(records, script), calls, own, Calls(records[i + 1..], tail));
  }

  lemma ProgressStep(records: seq<Record>, script: seq<HandlerResult>, i: nat, calls: seq<Record>)
    requires Progress(records, script, i, calls) && i < |records| && Retry(script[|calls|..]).Some?
    ensures Progress(records, script, i + 1, calls + Repeated(records[i], RetryCalls(script[|calls|..])))
    ensures Outcomes(|records|, script)[i] == Retry(script[|calls|..]).value
  {
    var own := Repeated(records[i], RetryCalls(script[|calls|..]));
    assert |calls + own| == |calls| + RetryCalls(script[|calls|..]);
    OutcomesStep(|records|, script, i, |calls|);
    CallsStep(records, script, i, calls);
  }

  lemma OutcomeStep(records: seq<Record>, outcomes: seq<Outcome>, i: nat, outcome: Outcome)
    requires i < |outcomes| <= |records|
    ensures WithOutcome(records, outcomes[..i + 1], outcome)
         == WithOutcome(records, outcomes[..i], outcome) + if outcomes[i] == outcome then [records[i]] else []
  {
    assert outcomes[..i + 1][..i] == outcomes[..i];
  }

  /** A batch in which the first i records are dealt with. */
  ghost predicate Underway(records: seq<Record>, script: seq<HandlerResult>, i: nat, calls: seq<Record>,
                           registered: seq<Record>, produced: seq<Record>) {
    && Progress(records, script, i, calls) && i <= |records|
    && registered == WithOutcome(records, Outcomes(|records|, script)[..i], Consumed)
    && produced == WithOutcome(records, Outcomes(|records|, script)[..i], DeadLettered)
  }

  lemma UnderwayStart(records: seq<Record>, script: seq<HandlerResult>)
    ensures Underway(records, script, 0, [], [], [])
  {
    assert script[0..] == script && records[0..] == records;
  }

  lemma UnderwayStep(records: seq<Record>, script: seq<HandlerResult>, i: nat, calls: seq<Record>,
                     registered: seq<Record>, produced: seq<Record>, outcome: Outcome)
    requires Underway(records, script, i, calls, registered, produced)
    requires i < |records| && Retry(script[|calls|..]) == Some(outcome)
    ensures Underway(records, script, i + 1, calls + Repeated(records[i], RetryCalls(script[|calls|..])),
                     registered + if outcome == Consumed then [records[i]] else [],
                     produced + if outcome == DeadLettered then [records[i]] else [])
  {
    ProgressStep(records, script, i, calls);
    OutcomeStep(records, Outcomes(|records|, script), i, Consumed);
    OutcomeStep(records, Outcomes(|records|, script), i, DeadLettered);
  }

  /** The batch ends after its last record, or with a record that cannot be dealt with. */
  lemma UnderwayEnd(records: seq<Record>, script: seq<HandlerResult>, i: nat, calls: seq<Record>,
                    registered: seq<Record>, produced: seq<Record>)
    requires Underway(records, script, i, calls, registered, produced)
    requires i < |records| ==> Retry(script[|calls|..]).None?
    ensures var outcomes := Outcomes(|records|, script);
            && registered == WithOutcome(records, outcomes, Consumed)
            && produced == WithOutcome(records, outcomes, DeadLettered)
            && |outcomes| == i
            && Calls(records, script)
               == calls + if i < |records| then Repeated(records[i], RetryCalls(script[|calls|..])) else []
  {
    if i < |records| {
      ProgressStop(records, script, i, calls);
    }
    assert Outcomes(|records|, script)[..i] == Outcomes(|records|, script);
  }

  // ---- What the answers decide ----

  /** The records whose call did not fail transiently. */
  function Decided(calls: seq<Record>, results: seq<HandlerResult>): seq<Record>
    requires |calls| <= |results|
  {
    if calls == [] then []
    else (if results[0] == Transient then [] else [calls[0]]) + Decided(calls[1..], results[1..])
  }

  /** The records whose call returned nil. */
  function Successful(calls: seq<Record>, results: seq<HandlerResult>): seq<Record>
    requires |calls| <= |results|
  {
    if calls == [] then []
    else (if results[0] == Succeeded then [calls[0]] else []) + Successful(calls[1..], results[1..])
  }

  lemma CallsUnfold(records: seq<Record>, script: seq<HandlerResult>)
    requires records != [] && script != []
    ensures var rest := if script[0] == Transient then records else records[1..];
            Calls(records, script) == [records[0]] + Calls(rest, script[1..])
  {
    if script[0] == Transient {
      CallsUnfoldTransient(records, script);
    } else {
      assert Repeated(records[0], 1) == [records[0]];
    }
  }

  lemma RetryAgain(record: Record, script: seq<HandlerResult>)
    requires script != [] && script[0] == Transient
    ensures var rest := script[1..];
            && Retry(script) == Retry(rest)
            && Repeated(record, RetryCalls(script)) == [record] + Repeated(record, RetryCalls(rest))
            && script[RetryCalls(script)..] == rest[RetryCalls(rest)..]
  {
  }

  lemma CallsStop(records: seq<Record>, script: seq<HandlerResult>)
    requires records != [] && Retry(script).None?
    ensures Calls(records, script) == Repeated(records[0], RetryCalls(script))
  {
  }

  lemma CallsUnfoldTransient(records: seq<Record>, script: seq<HandlerResult>)
    requires records != [] && script != [] && script[0] == Transient
    ensures Calls(records, script) == [records[0]] + Calls(records, script[1..])
  {
    RetryAgain(records[0], script);
    if Retry(script).None? {
      CallsStop(records, script);
      CallsStop(records, script[1..]);
    } else {
      var rest := script[1..];
      var own, tail := Repeated(records[0], RetryCalls(rest)), Calls(records[1..], rest[RetryCalls(rest)..]);
      CallsAfter(records, script);
      CallsAfter(records, rest);
      FrontOf(Calls(records, script), Calls(records, rest), [records[0]], own, tail);
    }
  }

  lemma FrontOf<T>(all: seq<T>, rest: seq<T>, a: seq<T>, b: seq<T>, c: seq<T>)
    requires all == (a + b) + c && rest == b + c
    ensures all == a + rest
  {
  }

  lemma OutcomesUnfold(n: nat, script: seq<HandlerResult>)
    requires 0 < n && script != []
    ensures Outcomes(n, script)
         == match script[0]
            case Transient => Outcomes(n, script[1..])
            case Succeeded => [Consumed] + Outcomes(n - 1, script[1..])
            case Permanent => [DeadLettered] + Outcomes(n - 1, script[1..])
  {
    if script[0] == Transient && Retry(script).Some? {
      assert script[1..][RetryCalls(script[1..])..] == script[RetryCalls(script)..];
    }
  }

  lemma {:induction false} WithOutcomeFront(records: seq<Record>, outcomes: seq<Outcome>, outcome: Outcome)
    requires 0 < |outcomes| <= |records|
    ensures WithOutcome(records, outcomes, outcome)
         == (if outcomes[0] == outcome then [records[0]] else []) + WithOutcome(records[1..], outcomes[1..], outcome)
  {
    var n := |outcomes| - 1;
    if n == 0 {
      assert outcomes[..0] == [] && outcomes[1..] == [];
    } else {
      WithOutcomeFront(records, outcomes[..n], outcome);
      assert outcomes[1..][..n - 1] == outcomes[..n][1..];
    }
  }

  /** The calls settle exactly the prefix of the batch that has an outcome. */
  lemma {:induction false} CallsSettle(records: seq<Record>, script: seq<HandlerResult>)
    ensures Decided(Calls(records, script), script) == records[..|Outcomes(|records|, script)|]
    decreases |script|
  {
    if records == [] || script == [] {
      assert Outcomes(|records|, script) == [] && Calls(records, script) == [];
    } else {
      var rest := if script[0] == Transient then records else records[1..];
      CallsSettle(rest, script[1..]);
      CallsUnfold(records, script);
      OutcomesUnfold(|records|, script);
      assert Calls(records, script)[1..] == Calls(rest, script[1..]);
      if script[0] != Transient {
        assert records[..|Outcomes(|rest|, script[1..])| + 1] == [records[0]] + rest[..|Outcomes(|rest|, script[1..])|];
      }
    }
  }

  /** The successful calls are those of the consumed records. */
  lemma {:induction false} CallsConsume(records: seq<Record>, script: seq<HandlerResult>)
    ensures Successful(Calls(records, script), script) == WithOutcome(records, Outcomes(|records|, script), Consumed)
    decreases |script|
  {
    if records == [] || script == [] {
      assert Outcomes(|records|, script) == [] && Calls(records, script) == [];
    } else {
      var rest := if script[0] == Transient then records else records[1..];
      CallsConsume(rest, script[1..]);
      CallsUnfold(records, script);
      OutcomesUnfold(|records|, script);
      assert Calls(records, script)[1..] == Calls(rest, script[1..]);
      if script[0] != Transient {
        WithOutcomeFront(records, Outcomes(|records|, script), Consumed);
        assert Outcomes(|records|, script)[1..] == Outcomes(|rest|, script[1..]);
      }
    }
  }

  /** A record that has been called for since `before` and has failed transiently every time. */
  ghost predicate Retrying(script: seq<HandlerResult>, record: Record, before: seq<Record>, calls: seq<Record>) {
    && |before| <= |calls| <= |script| && calls == before + Repeated(record, |calls| - |before|)
    && Retry(script[|before|..]) == Retry(script[|calls|..])
    && |before| + RetryCalls(script[|before|..]) == |calls| + RetryCalls(script[|calls|..])
  }

  lemma RetryingCall(script: seq<HandlerResult>, record: Record, before: seq<Record>, calls: seq<Record>)
    requires Retrying(script, record, before, calls) && |calls| < |script|
    ensures if script[|calls|] == Transient then Retrying(script, record, before, calls + [record])
            else
              && Retry(script[|before|..]) == Some(if script[|calls|] == Succeeded then Consumed else DeadLettered)
              && calls + [record] == before + Repeated(record, RetryCalls(script[|before|..]))
  {
    assert script[|calls|..][1..] == script[|calls| + 1..];
    assert calls + [record] == before + Repeated(record, |calls| + 1 - |before|);
  }

  lemma RetryingEnd(script: seq<HandlerResult>, record: Record, before: seq<Record>, calls: seq<Record>)
    requires Retrying(script, record, before, calls) && |calls| == |script|
    ensures Retry(script[|before|..]).None?
    ensures calls == before + Repeated(record, RetryCalls(script[|before|..]))
  {
  }

  lemma WaitsStep(script: seq<HandlerResult>, n: nat)
    requires n < |script|
    ensures WaitsSinceSuccess(script[..n + 1])
         == match script[n]
            case Succeeded => 0
            case Transient => 1 + WaitsSinceSuccess(script[..n])
            case Permanent => WaitsSinceSuccess(script[..n])
  {
    assert script[..n + 1][..n] == script[..n];
  }

  function TransientAnswers(history: seq<HandlerResult>): nat {
    if history == [] then 0
    else TransientAnswers(history[..|history| - 1]) + if history[|history| - 1] == Transient then 1 else 0
  }

  /** The waits since the last success are the transient answers after it, permanent ones aside. */
  lemma {:induction false} WaitsAreTransient(before: seq<HandlerResult>, after: seq<HandlerResult>)
    requires Succeeded !in after
    ensures WaitsSinceSuccess(before + [Succeeded] + after) == TransientAnswers(after)
    ensures WaitsSinceSuccess(after) == TransientAnswers(after)
  {
    if after == [] {
      assert before + [Succeeded] + after == before + [Succeeded];
    } else {
      var n := |after| - 1;
      WaitsAreTransient(before, after[..n]);
      assert (before + [Succeeded] + after)[..|before| + 1 + n] == before + [Succeeded] + after[..n];
    }
  }

  // ---- Implementation ----

  class BatchConsumer {
    const tracker: ProcessedEpochOffsetsTracker
    const dlq: DlqProducer
    const backoff: BackoffTimer

    ghost predicate Valid()
      reads this, tracker, dlq, backoff
    {
      tracker.Valid() && dlq.AllPending() && 0 < backoff.base && 0 < backoff.max
    }

    constructor (base: int, max: int, factor: real)
      requires 0 < base && 0 < max
      ensures Valid() && fresh(tracker) && fresh(dlq) && fresh(backoff)
      ensures tracker.registered == [] && dlq.produced == [] && backoff.attempt == 0
      ensures dlq.Repr == {}
    {
      tracker := new ProcessedEpochOffsetsTracker();
      dlq := new DlqProducer();
      backoff := new BackoffTimer(base, max, factor);
    }

    /** None means the context was done before the record was dealt with. */
    method ConsumeWithRetry(ctx: BatchContext, record: Record) returns (outcome: Option<Outcome>)
      requires Valid() && |ctx.calls| <= |ctx.results|
      requires backoff.attempt == WaitsSinceSuccess(ctx.results[..|ctx.calls|])
      modifies ctx, tracker, dlq, backoff
      ensures fresh(dlq.Repr - old(dlq.Repr))
      ensures Valid() && |ctx.calls| <= |ctx.results|
      ensures ctx.calls == old(ctx.calls) + Repeated(record, RetryCalls(ctx.results[|old(ctx.calls)|..]))
      ensures backoff.attempt == WaitsSinceSuccess(ctx.results[..|ctx.calls|])
      ensures outcome == Retry(ctx.results[|old(ctx.calls)|..])
      ensures tracker.registered == old(tracker.registered) + if outcome == Some(Consumed) then [record] else []
      ensures dlq.produced == old(dlq.produced) + if outcome == Some(DeadLettered) then [record] else []
    {
      outcome := None;
      while true
        invariant outcome.None?
        invariant Valid() && Retrying(ctx.results, record, old(ctx.calls), ctx.calls)
        invariant tracker.registered == old(tracker.registered) && dlq.produced == old(dlq.produced)
        invariant dlq.Repr == old(dlq.Repr)
        invariant backoff.attempt == WaitsSinceSuccess(ctx.results[..|ctx.calls|])
        decreases |ctx.results| - |ctx.calls|
      {
        if ctx.Done() {
          RetryingEnd(ctx.results, record, old(ctx.calls), ctx.calls);
          break;
        }
        RetryingCall(ctx.results, record, old(ctx.calls), ctx.calls);
        WaitsStep(ctx.results, |ctx.calls|);
        var result := ctx.Handle(record);
        match result {
          case Succeeded =>
            backoff.Clear();
            tracker.RegisterSingleAsProcessed(record);
            outcome := Some(Consumed);
            break;
          case Transient =>
            var _ := backoff.Wait();
            if ctx.Done() {
              RetryingEnd(ctx.results, record, old(ctx.calls), ctx.calls);
              break;
            }
          case Permanent =>
            dlq.Produce(record);
            outcome := Some(DeadLettered);
            break;
        }
      }
    }

    /** The first i records are dealt with. */
    ghost predicate At(ctx: BatchContext, records: seq<Record>, i: nat)
      reads this, tracker, dlq, backoff, ctx
    {
      && Valid() && |ctx.calls| <= |ctx.results|
      && Underway(records, ctx.results, i, ctx.calls, tracker.registered, dlq.produced)
      && backoff.attempt == WaitsSinceSuccess(ctx.results[..|ctx.calls|])
    }

    /** The batch has ended after i records. */
    ghost predicate Ended(ctx: BatchContext, records: seq<Record>, i: nat)
      reads this, tracker, dlq, backoff, ctx
    {
      var outcomes := Outcomes(|records|, ctx.results);
      && Valid() && |outcomes| == i && ctx.calls == Calls(records, ctx.results)
      && tracker.registered == WithOutcome(records, outcomes, Consumed)
      && dlq.produced == WithOutcome(records, outcomes, DeadLettered)
      && backoff.attempt == WaitsSinceSuccess(ctx.results[..|ctx.calls|])
    }

    /** One turn of the loop over the records. */
    method ConsumeNext(ctx: BatchContext, records: seq<Record>, i: nat) returns (cancelled: bool)
      requires At(ctx, records, i) && i < |records|
      modifies ctx, tracker, dlq, backoff
      ensures fresh(dlq.Repr - old(dlq.Repr))
      ensures if cancelled then Ended(ctx, records, i) else At(ctx, records, i + 1)
    {
      ghost var calls, registered, produced := ctx.calls, tracker.registered, dlq.produced;
      var outcome := ConsumeWithRetry(ctx, records[i]);
      if outcome.None? {
        UnderwayEnd(records, ctx.results, i, calls, registered, produced);
      } else {
        UnderwayStep(records, ctx.results, i, calls, registered, produced, outcome.value);
      }
      cancelled := outcome.None?;
    }

    /** The loop over the records. */
    method ConsumeRecords(ctx: BatchContext, records: seq<Record>) returns (cancelled: bool)
      requires Valid() && tracker.registered == [] && dlq.produced == [] && dlq.Repr == {}
      requires ctx.calls == [] && backoff.attempt == 0
      modifies ctx, tracker, dlq, backoff
      ensures fresh(dlq.Repr - old(dlq.Repr))
      ensures Ended(ctx, records, |Outcomes(|records|, ctx.results)|)
      ensures cancelled <==> |Outcomes(|records|, ctx.results)| < |records|
    {
      UnderwayStart(records, ctx.results);
      assert ctx.results[..0] == [];
      var i := 0;
      while i < |records|
        invariant 0 <= i <= |records| && At(ctx, records, i)
        invariant forall result | result in dlq.Repr :: result in old(dlq.Repr) || fresh(result)
      {
        cancelled := ConsumeNext(ctx, records, i);
        if cancelled {
          return;
        }
        i := i + 1;
      }
      UnderwayEnd(records, ctx.results, i, ctx.calls, tracker.registered, dlq.produced);
      cancelled := false;
    }

    /** Handles the records in iteration order and drains the DLQ on every way out. `deadLettered` is
        what reached the dead-letter topic. */
    method ConsumeFetches(ctx: BatchContext, records: seq<Record>, schedule: seq<Completion>,
                          ghost published: seq<PublishOutcome>)
      returns (err: BatchError, deadLettered: seq<Record>)
      requires Valid() && tracker.registered == [] && dlq.produced == [] && dlq.Repr == {}
      requires ctx.calls == [] && backoff.attempt == 0
      requires |published| == |WithOutcome(records, Outcomes(|records|, ctx.results), DeadLettered)|
      requires IsSchedule(schedule, |published|) && Assigns(schedule, published)
      modifies ctx, tracker, dlq, backoff
      ensures tracker.Valid()
      ensures var outcomes := Outcomes(|records|, ctx.results);
              && tracker.registered == Registered(records, outcomes, published)
              && err == BatchError(|outcomes| < |records|, Failures(published))
              && deadLettered == Successes(WithOutcome(records, outcomes, DeadLettered), published)
      ensures ctx.calls == Calls(records, ctx.results)
      ensures backoff.attempt == WaitsSinceSuccess(ctx.results[..|ctx.calls|])
    {
      var cancelled := ConsumeRecords(ctx, records);
      var publishErrs;
      deadLettered, publishErrs := dlq.Drain(schedule, published);
      FailuresIff(published);
      if publishErrs == [] {
        AllPublishedAreSuccesses(dlq.produced, published);
        tracker.RegisterAsProcessed(deadLettered);
      }
      err := BatchError(cancelled, publishErrs);
    }
  }
}
