/** kgoconsumer/dlq.go: records that failed permanently are published asynchronously; every callback
    fills its own result object and `drain` reads them all after a barrier. */
module Dlq {
  import opened Kafka

  // Interrupted: the publish failed with a context error (cancelled or deadline exceeded).
  datatype PublishOutcome = Published | Rejected | Interrupted

  /** One callback: the index of its produce call and how the publish ended. */
  datatype Completion = Completion(index: nat, outcome: PublishOutcome)

  // ---- Specification ----

  /** The records whose publish succeeded, in produce order. */
  function Successes(produced: seq<Record>, outcomes: seq<PublishOutcome>): seq<Record>
    requires |produced| == |outcomes|
  {
    if produced == [] then []
    else
      var n := |produced| - 1;
      Successes(produced[..n], outcomes[..n]) + (if outcomes[n] == Published then [produced[n]] else [])
  }

  function Failures(outcomes: seq<PublishOutcome>): seq<PublishOutcome> {
    if outcomes == [] then []
    else
      var n := |outcomes| - 1;
      Failures(outcomes[..n]) + (if outcomes[n] == Published then [] else [outcomes[n]])
  }

  lemma CollectedStep(produced: seq<Record>, outcomes: seq<PublishOutcome>, i: nat)
    requires i < |produced| == |outcomes|
    ensures Successes(produced[..i + 1], outcomes[..i + 1])
         == Successes(produced[..i], outcomes[..i]) + if outcomes[i] == Published then [produced[i]] else []
    ensures Failures(outcomes[..i + 1])
         == Failures(outcomes[..i]) + if outcomes[i] == Published then [] else [outcomes[i]]
  {
    assert produced[..i + 1][..i] == produced[..i] && outcomes[..i + 1][..i] == outcomes[..i];
  }

  predicate AllPublished(outcomes: seq<PublishOutcome>) {
    forall i | 0 <= i < |outcomes| :: outcomes[i] == Published
  }

  lemma {:induction false} FailuresIff(outcomes: seq<PublishOutcome>)
    ensures Failures(outcomes) == [] <==> AllPublished(outcomes)
    ensures Interrupted in Failures(outcomes) <==> Interrupted in outcomes
  {
    if outcomes == [] {
    } else {
      FailuresIff(outcomes[..|outcomes| - 1]);
    }
  }

  lemma {:induction false} SuccessIff(produced: seq<Record>, outcomes: seq<PublishOutcome>, record: Record)
    requires |produced| == |outcomes|
    ensures record in Successes(produced, outcomes)
            <==> exists i :: 0 <= i < |produced| && produced[i] == record && outcomes[i] == Published
  {
    if produced == [] {
    } else {
      var n := |produced| - 1;
      SuccessIff(produced[..n], outcomes[..n], record);
      if record in Successes(produced[..n], outcomes[..n]) {
        var i :| 0 <= i < n && produced[..n][i] == record && outcomes[..n][i] == Published;
        assert produced[i] == record;
      }
    }
  }

  /** The successes come in produce order: those of the first i records, then the i-th if it is one. */
  lemma {:induction false} SuccessesInOrder(produced: seq<Record>, outcomes: seq<PublishOutcome>, i: nat)
    requires i < |produced| == |outcomes| && outcomes[i] == Published
    ensures Successes(produced[..i], outcomes[..i]) + [produced[i]] <= Successes(produced, outcomes)
  {
    var n := |produced| - 1;
    if i < n {
      SuccessesInOrder(produced[..n], outcomes[..n], i);
      assert produced[..n][..i] == produced[..i] && outcomes[..n][..i] == outcomes[..i];
    }
  }

  lemma {:induction false} AllPublishedAreSuccesses(produced: seq<Record>, outcomes: seq<PublishOutcome>)
    requires |produced| == |outcomes| && AllPublished(outcomes)
    ensures Successes(produced, outcomes) == produced
  {
    if produced == [] {
    } else {
      var n := |produced| - 1;
      AllPublishedAreSuccesses(produced[..n], outcomes[..n]);
      assert produced == produced[..n] + [produced[n]];
    }
  }

  /** Every produced record is accounted for exactly once: published, or behind one reported error. */
  lemma {:induction false} DrainAccountsForAll(produced: seq<Record>, outcomes: seq<PublishOutcome>)
    requires |produced| == |outcomes|
    ensures |Successes(produced, outcomes)| + |Failures(outcomes)| == |produced|
    ensures multiset(Successes(produced, outcomes)) <= multiset(produced)
  {
    if produced == [] {
    } else {
      var n := |produced| - 1;
      DrainAccountsForAll(produced[..n], outcomes[..n]);
      var before, last := Successes(produced[..n], outcomes[..n]), produced[n];
      assert multiset(produced) == multiset(produced[..n]) + multiset{last} by {
        assert produced == produced[..n] + [last];
      }
      assert multiset(before + [last]) == multiset(before) + multiset{last};
    }
  }

  /** A complete schedule calls every callback exactly once, in any order. */
  ghost predicate IsSchedule(schedule: seq<Completion>, n: nat) {
    && |schedule| == n
    && (forall i | 0 <= i < n :: schedule[i].index < n)
    && (forall i, j | 0 <= i < j < n :: schedule[i].index != schedule[j].index)
  }

  ghost predicate Covers(schedule: seq<Completion>, index: nat) {
    exists i | 0 <= i < |schedule| :: schedule[i].index == index
  }

  ghost function Indices(schedule: seq<Completion>): set<nat> {
    set i | 0 <= i < |schedule| :: schedule[i].index
  }

  lemma {:induction false} IndicesCount(schedule: seq<Completion>)
    requires forall i, j | 0 <= i < j < |schedule| :: schedule[i].index != schedule[j].index
    ensures |Indices(schedule)| == |schedule|
  {
    if schedule == [] {
    } else {
      var n := |schedule| - 1;
      IndicesCount(schedule[..n]);
      assert Indices(schedule) == Indices(schedule[..n]) + {schedule[n].index};
    }
  }

  ghost function Below(n: nat): (below: set<nat>)
    ensures forall i: nat :: i in below <==> i < n
    ensures |below| == n
  {
    if n == 0 then {} else Below(n - 1) + {n - 1}
  }

  lemma SubsetOfSameSize(a: set<nat>, b: set<nat>)
    requires a <= b && |a| == |b|
    ensures a == b
  {
    assert |b - a| == |b| - |a|;
    assert b == a + (b - a);
  }

  /** A complete schedule leaves no callback out. */
  lemma ScheduleCovers(schedule: seq<Completion>, n: nat, index: nat)
    requires IsSchedule(schedule, n) && index < n
    ensures Covers(schedule, index)
  {
    IndicesCount(schedule);
    SubsetOfSameSize(Indices(schedule), Below(n));
    assert index in Indices(schedule);
  }

  /** The outcome assigned to each produce call, whatever the order of the callbacks. */
  ghost predicate Assigns(schedule: seq<Completion>, outcomes: seq<PublishOutcome>) {
    forall i | 0 <= i < |schedule| ::
      schedule[i].index < |outcomes| && outcomes[schedule[i].index] == schedule[i].outcome
  }

  /** What has been filled in after some callbacks. */
  ghost function Recorded(schedule: seq<Completion>): map<nat, PublishOutcome> {
    if schedule == [] then map[]
    else
      var last := schedule[|schedule| - 1];
      Recorded(schedule[..|schedule| - 1])[last.index := last.outcome]
  }

  lemma {:induction false} RecordedKeys(schedule: seq<Completion>, index: nat)
    ensures index in Recorded(schedule) <==> Covers(schedule, index)
  {
    if schedule == [] {
    } else {
      var before := schedule[..|schedule| - 1];
      RecordedKeys(before, index);
      if Covers(before, index) {
        var i :| 0 <= i < |before| && before[i].index == index;
        assert schedule[i].index == index;
      }
      if schedule[|schedule| - 1].index == index {
        assert Covers(schedule, index);
      }
    }
  }

  lemma {:induction false} RecordedOutcome(schedule: seq<Completion>, outcomes: seq<PublishOutcome>, index: nat)
    requires Assigns(schedule, outcomes) && index in Recorded(schedule)
    ensures index < |outcomes| && Recorded(schedule)[index] == outcomes[index]
  {
    var before := schedule[..|schedule| - 1];
    if schedule[|schedule| - 1].index != index {
      RecordedOutcome(before, outcomes, index);
    }
  }

  /** The next callback of a schedule is still pending. */
  lemma NextIsPending(schedule: seq<Completion>, n: nat, i: nat)
    requires IsSchedule(schedule, n) && i < n
    ensures schedule[i].index !in Recorded(schedule[..i])
  {
    RecordedKeys(schedule[..i], schedule[i].index);
  }

  lemma RecordedStep(schedule: seq<Completion>, i: nat)
    requires i < |schedule|
    ensures Recorded(schedule[..i + 1]) == Recorded(schedule[..i])[schedule[i].index := schedule[i].outcome]
  {
    assert schedule[..i + 1][..i] == schedule[..i];
  }

  lemma CompleteRecording(schedule: seq<Completion>, outcomes: seq<PublishOutcome>)
    requires IsSchedule(schedule, |outcomes|) && Assigns(schedule, outcomes)
    ensures Recorded(schedule).Keys == Below(|outcomes|)
    ensures forall index | index in Recorded(schedule) ::
              index < |outcomes| && Recorded(schedule)[index] == outcomes[index]
  {
    forall index: nat
      ensures index in Recorded(schedule) <==> index < |outcomes|
    {
      RecordedKeys(schedule, index);
      if index < |outcomes| {
        ScheduleCovers(schedule, |outcomes|, index);
      }
    }
    forall index | index in Recorded(schedule)
      ensures Recorded(schedule)[index] == outcomes[index]
    {
      RecordedOutcome(schedule, outcomes, index);
    }
  }

  // ---- The producer ----

  class DlqProduceResult {
    var failed: Option<PublishOutcome>
    var failedRecord: Option<Record>

    constructor ()
      ensures failed == None && failedRecord == None
    {
      failed, failedRecord := None, None;
    }

    method Populate(outcome: PublishOutcome, record: Record)
      modifies this
      ensures failed == (if outcome == Published then None else Some(outcome)) && failedRecord == Some(record)
    {
      failed := if outcome == Published then None else Some(outcome);
      failedRecord := Some(record);
    }
  }

  class DlqProducer {
    var results: seq<DlqProduceResult>
    var produced: seq<Record>            // what each callback closes over
    var outstanding: nat                 // the wait group
    ghost var done: map<nat, PublishOutcome>
    ghost var Repr: set<DlqProduceResult>

    ghost predicate Valid()
      reads this, results
    {
      && |results| == |produced|
      && (forall i | 0 <= i < |results| :: results[i] in Repr)
      && (forall i, j | 0 <= i < j < |results| :: results[i] != results[j])
      && (forall i | i in done :: i < |results| && Filled(i, done[i]))
      && outstanding + |done| == |results|
    }

    /** The result of produce call i says how its publish ended. */
    ghost predicate Filled(i: nat, outcome: PublishOutcome)
      reads this, results
      requires i < |results| == |produced|
    {
      && results[i].failedRecord == Some(produced[i])
      && results[i].failed == if outcome == Published then None else Some(outcome)
    }

    /** No callback has come back yet. */
    ghost predicate AllPending()
      reads this
    {
      && |results| == |produced| == outstanding && done == map[]
      && (forall i | 0 <= i < |results| :: results[i] in Repr)
      && (forall i, j | 0 <= i < j < |results| :: results[i] != results[j])
    }

    constructor ()
      ensures AllPending() && produced == [] && results == [] && done == map[] && Repr == {}
    {
      results, produced, outstanding := [], [], 0;
      done, Repr := map[], {};
    }

    method Produce(record: Record)
      requires Valid()
      modifies this
      ensures Valid() && produced == old(produced) + [record] && done == old(done)
      ensures old(AllPending()) ==> AllPending()
      ensures fresh(Repr - old(Repr))
    {
      var result := new DlqProduceResult();
      results := results + [result];
      Repr := Repr + {result};
      produced := produced + [record];
      outstanding := outstanding + 1;
    }

    /** The client invokes one pending callback. */
    method Callback(c: Completion)
      requires Valid() && c.index < |results| && c.index !in done
      modifies this`outstanding, this`done, results
      ensures Valid() && produced == old(produced) && results == old(results)
      ensures done == old(done)[c.index := c.outcome]
    {
      DoneBelow(done, |results|, c.index);
      results[c.index].Populate(c.outcome, produced[c.index]);
      assert Filled(c.index, c.outcome);
      assert forall i | i in done :: Filled(i, done[i]);
      outstanding := outstanding - 1;
      done := done[c.index := c.outcome];
    }

    /** The barrier. `schedule` is the order in which the client happens to complete the callbacks. */
    method Wait(schedule: seq<Completion>, ghost outcomes: seq<PublishOutcome>)
      requires AllPending()
      requires IsSchedule(schedule, |results|) && |outcomes| == |results| && Assigns(schedule, outcomes)
      modifies this`outstanding, this`done, results
      ensures Valid() && produced == old(produced) && results == old(results)
      ensures outstanding == 0
      ensures forall index: nat | index < |results| :: index in done && done[index] == outcomes[index]
    {
      for i := 0 to |schedule|
        invariant Valid() && produced == old(produced) && results == old(results)
        invariant done == Recorded(schedule[..i])
      {
        NextIsPending(schedule, |results|, i);
        Callback(schedule[i]);
        RecordedStep(schedule, i);
      }
      assert schedule[..|schedule|] == schedule;
      CompleteRecording(schedule, outcomes);
    }

    /** What `drain` does once the barrier has let it through: the loop over the results. */
    method Collect(ghost outcomes: seq<PublishOutcome>)
      returns (processed: seq<Record>, publishErrs: seq<PublishOutcome>)
      requires Valid() && |outcomes| == |results|
      requires forall index: nat | index < |results| :: index in done && done[index] == outcomes[index]
      ensures processed == Successes(produced, outcomes)
      ensures publishErrs == Failures(outcomes)
    {
      processed, publishErrs := [], [];
      for i := 0 to |results|
        invariant processed == Successes(produced[..i], outcomes[..i])
        invariant publishErrs == Failures(outcomes[..i])
      {
        CollectedStep(produced, outcomes, i);
        if results[i].failed.Some? {
          publishErrs := publishErrs + [results[i].failed.value];
        } else {
          processed := processed + [results[i].failedRecord.value];
        }
      }
      assert produced[..|results|] == produced && outcomes[..|results|] == outcomes;
    }

    /** The result depends on how each publish ended, never on the order in which they ended. */
    method Drain(schedule: seq<Completion>, ghost outcomes: seq<PublishOutcome>)
      returns (processed: seq<Record>, publishErrs: seq<PublishOutcome>)
      requires AllPending()
      requires IsSchedule(schedule, |results|) && |outcomes| == |results| && Assigns(schedule, outcomes)
      modifies this`outstanding, this`done, results
      ensures Valid() && produced == old(produced) && results == old(results)
      ensures processed == Successes(produced, outcomes)
      ensures publishErrs == Failures(outcomes)
    {
      Wait(schedule, outcomes);
      processed, publishErrs := Collect(outcomes);
    }
  }

  lemma DoneBelow(done: map<nat, PublishOutcome>, n: nat, index: nat)
    requires (forall i | i in done :: i < n) && index < n && index !in done
    ensures |done| < n
  {
    assert done.Keys <= Below(n) - {index};
    SubsetIsSmaller(done.Keys, Below(n) - {index});
  }

  lemma SubsetIsSmaller(a: set<nat>, b: set<nat>)
    requires a <= b
    ensures |a| <= |b|
  {
    assert b == a + (b - a);
  }

  /** Two complete schedules that agree on each callback's outcome drain alike. */
  lemma CompletionOrderIsIrrelevant(n: nat, a: seq<Completion>, b: seq<Completion>,
                                    outcomesA: seq<PublishOutcome>, outcomesB: seq<PublishOutcome>)
    requires IsSchedule(a, n) && IsSchedule(b, n) && multiset(a) == multiset(b)
    requires |outcomesA| == |outcomesB| == n && Assigns(a, outcomesA) && Assigns(b, outcomesB)
    ensures outcomesA == outcomesB
  {
    forall index: nat | index < n
      ensures outcomesA[index] == outcomesB[index]
    {
      ScheduleCovers(a, n, index);
      var i :| 0 <= i < n && a[i].index == index;
      assert a[i] in multiset(b);
      var j :| 0 <= j < n && b[j] == a[i];
    }
  }
}
