/** What a batch guarantees at every cancellation point and for every mix of outcomes. */
module BatchLaws {
  import opened Kafka
  import opened Offsets
  import opened Dlq
  import opened Batch

  lemma {:induction false} WithOutcomeIff(records: seq<Record>, outcomes: seq<Outcome>, outcome: Outcome,
                                          record: Record)
    requires |outcomes| <= |records|
    ensures record in WithOutcome(records, outcomes, outcome)
            <==> exists i :: 0 <= i < |outcomes| && records[i] == record && outcomes[i] == outcome
  {
    if outcomes == [] {
    } else {
      var n := |outcomes| - 1;
      var before := outcomes[..n];
      WithOutcomeIff(records, before, outcome, record);
      assert record in WithOutcome(records, outcomes, outcome)
             <==> record in WithOutcome(records, before, outcome) || (outcomes[n] == outcome && records[n] == record);
      forall i | 0 <= i < n
        ensures before[i] == outcomes[i]
      {
      }
    }
  }

  lemma WithOutcomeStep(records: seq<Record>, outcomes: seq<Outcome>, outcome: Outcome)
    requires 0 < |outcomes| <= |records|
    ensures var n := |outcomes| - 1;
            multiset(WithOutcome(records, outcomes, outcome))
            == multiset(WithOutcome(records, outcomes[..n], outcome))
               + if outcomes[n] == outcome then multiset{records[n]} else multiset{}
  {
  }

  lemma BothOutcomesStep(records: seq<Record>, outcomes: seq<Outcome>)
    requires 0 < |outcomes| <= |records|
    ensures var n := |outcomes| - 1;
            multiset(WithOutcome(records, outcomes, Consumed)) + multiset(WithOutcome(records, outcomes, DeadLettered))
            == multiset(WithOutcome(records, outcomes[..n], Consumed))
               + multiset(WithOutcome(records, outcomes[..n], DeadLettered)) + multiset{records[n]}
  {
    WithOutcomeStep(records, outcomes, Consumed);
    WithOutcomeStep(records, outcomes, DeadLettered);
    var last := outcomes[|outcomes| - 1];
    assert last == Consumed || last == DeadLettered;
  }

  lemma PrefixStep(records: seq<Record>, n: nat)
    requires n < |records|
    ensures multiset(records[..n + 1]) == multiset(records[..n]) + multiset{records[n]}
  {
    assert records[..n + 1] == records[..n] + [records[n]];
  }

  /** The consumed and the dead-lettered records together are exactly a prefix of the batch in
      iteration order, each record once; the batch was cancelled iff the prefix is proper. */
  lemma {:induction false} BatchPrefix(records: seq<Record>, outcomes: seq<Outcome>)
    requires |outcomes| <= |records|
    ensures multiset(WithOutcome(records, outcomes, Consumed)) + multiset(WithOutcome(records, outcomes, DeadLettered))
         == multiset(records[..|outcomes|])
  {
    if outcomes == [] {
      assert records[..0] == [];
    } else {
      var n := |outcomes| - 1;
      BatchPrefix(records, outcomes[..n]);
      BothOutcomesStep(records, outcomes);
      PrefixStep(records, n);
    }
  }

  /** After a successful drain the tracker has been told exactly that prefix. */
  lemma DrainedBatchIsAPrefix(records: seq<Record>, outcomes: seq<Outcome>, published: seq<PublishOutcome>)
    requires |outcomes| <= |records| && AllPublished(published)
    ensures SameRecords(Registered(records, outcomes, published), records[..|outcomes|])
    ensures |Registered(records, outcomes, published)| == |outcomes|
  {
    BatchPrefix(records, outcomes);
    var direct, dead := WithOutcome(records, outcomes, Consumed), WithOutcome(records, outcomes, DeadLettered);
    assert multiset(direct + dead) == multiset(records[..|outcomes|]);
    forall record
      ensures record in direct + dead <==> record in records[..|outcomes|]
    {
      assert record in direct + dead <==> record in multiset(direct + dead);
    }
    assert |multiset(direct + dead)| == |multiset(records[..|outcomes|])|;
  }

  lemma {:induction false} RetryScript(script: seq<HandlerResult>)
    requires Retry(script).Some?
    ensures 0 < RetryCalls(script) <= |script|
    ensures script[RetryCalls(script) - 1] == if Retry(script) == Some(Consumed) then Succeeded else Permanent
    ensures forall j | 0 <= j < RetryCalls(script) - 1 :: script[j] == Transient
  {
    if script[0] == Transient {
      RetryScript(script[1..]);
    }
  }

  lemma {:induction false} RetryOfPrefix(script: seq<HandlerResult>, j: nat)
    requires j < RetryCalls(script)
    ensures Retry(script[..j]).None?
  {
    if j == 0 {
    } else {
      assert script[..j][1..] == script[1..][..j - 1];
      RetryOfPrefix(script[1..], j - 1);
    }
  }

  lemma {:induction false} RetryOfLongPrefix(script: seq<HandlerResult>, j: nat)
    requires Retry(script).Some? && RetryCalls(script) <= j <= |script|
    ensures Retry(script[..j]) == Retry(script) && RetryCalls(script[..j]) == RetryCalls(script)
  {
    if script[0] == Transient {
      assert script[..j][1..] == script[1..][..j - 1];
      RetryOfLongPrefix(script[1..], j - 1);
    }
  }

  /** Calls come in order: the record of each call is the first one not settled by the calls before
      it, so nothing is handled before everything ahead of it in the batch has been settled. */
  lemma {:induction false} CallsInOrder(records: seq<Record>, script: seq<HandlerResult>, j: nat)
    requires j < |Calls(records, script)|
    ensures |Outcomes(|records|, script[..j])| < |records|
    ensures Calls(records, script)[j] == records[|Outcomes(|records|, script[..j])|]
  {
    var m := RetryCalls(script);
    if j < m {
      RetryOfPrefix(script, j);
    } else {
      RetryOfLongPrefix(script, j);
      CallsInOrder(records[1..], script[m..], j - m);
      assert script[..j][m..] == script[m..][..j - m];
    }
  }

  lemma OutcomesTaken(n: nat, script: seq<HandlerResult>, j: nat)
    requires 0 < n && 0 < j <= |script|
    ensures |Outcomes(n, script[..j])|
         == if script[0] == Transient then |Outcomes(n, script[1..][..j - 1])|
            else 1 + |Outcomes(n - 1, script[1..][..j - 1])|
  {
    OutcomesUnfold(n, script[..j]);
    assert script[..j][1..] == script[1..][..j - 1];
  }

  /** Answer j decides an outcome: before it there are i outcomes, with it one more. */
  ghost predicate Decides(n: nat, script: seq<HandlerResult>, i: nat, j: nat, outcome: Outcome) {
    && j < |script| && script[j] == (if outcome == Consumed then Succeeded else Permanent)
    && |Outcomes(n, script[..j])| == i && |Outcomes(n, script[..j + 1])| == i + 1
  }

  lemma DecidesFirst(n: nat, script: seq<HandlerResult>)
    requires 0 < |Outcomes(n, script)| && script[0] != Transient
    ensures Decides(n, script, 0, 0, Outcomes(n, script)[0])
  {
    OutcomesUnfold(n, script);
    OutcomesTaken(n, script, 1);
  }

  lemma OutcomeLeft(n: nat, script: seq<HandlerResult>, settled: nat, i: nat)
    requires settled + i < |Outcomes(n, script)| && settled == if script[0] == Transient then 0 else 1
    ensures i < |Outcomes(n - settled, script[1..])|
    ensures Outcomes(n - settled, script[1..])[i] == Outcomes(n, script)[settled + i]
  {
    OutcomesUnfold(n, script);
  }

  lemma DecidesLater(n: nat, script: seq<HandlerResult>, settled: nat, i: nat, j: nat, outcome: Outcome)
    requires settled <= n && 0 < n && script != [] && settled == if script[0] == Transient then 0 else 1
    requires Decides(n - settled, script[1..], i, j, outcome)
    ensures Decides(n, script, settled + i, j + 1, outcome)
  {
    OutcomesTaken(n, script, j + 1);
    OutcomesTaken(n, script, j + 2);
  }

  lemma {:induction false} DecidingAnswer(n: nat, script: seq<HandlerResult>, i: nat) returns (j: nat)
    requires i < |Outcomes(n, script)|
    ensures Decides(n, script, i, j, Outcomes(n, script)[i])
    decreases |script|
  {
    if script[0] != Transient && i == 0 {
      DecidesFirst(n, script);
      j := 0;
    } else {
      var settled := if script[0] == Transient then 0 else 1;
      OutcomeLeft(n, script, settled, i - settled);
      j := DecidingAnswer(n - settled, script[1..], i - settled);
      DecidesLater(n, script, settled, i - settled, j, Outcomes(n, script)[i]);
      j := j + 1;
    }
  }

  /** As long as a record is left and an answer to it, there is a call. */
  lemma {:induction false} CallsGoOn(records: seq<Record>, script: seq<HandlerResult>, j: nat)
    requires j < |script| && |Outcomes(|records|, script[..j])| < |records|
    ensures j < |Calls(records, script)|
    decreases j
  {
    CallsUnfold(records, script);
    if j == 0 {
    } else {
      OutcomesUnfold(|records|, script[..j]);
      assert script[..j][1..] == script[1..][..j - 1];
      CallsGoOn(if script[0] == Transient then records else records[1..], script[1..], j - 1);
    }
  }

  /** Every settled record got the call that settled it, and no call after that one. */
  lemma SettlingCall(records: seq<Record>, script: seq<HandlerResult>, i: nat) returns (j: nat)
    requires i < |Outcomes(|records|, script)|
    ensures j < |Calls(records, script)| && Calls(records, script)[j] == records[i]
    ensures script[j] == if Outcomes(|records|, script)[i] == Consumed then Succeeded else Permanent
    ensures |Outcomes(|records|, script[..j])| == i && |Outcomes(|records|, script[..j + 1])| == i + 1
  {
    j := DecidingAnswer(|records|, script, i);
    CallsGoOn(records, script, j);
    CallsInOrder(records, script, j);
  }

  /** Conversely, a call that does not fail transiently settles its record: with a success it is
      consumed, with a permanent error it is dead-lettered. */
  lemma {:induction false} DecisiveCall(records: seq<Record>, script: seq<HandlerResult>, j: nat) returns (i: nat)
    requires j < |Calls(records, script)| && script[j] != Transient
    ensures i < |Outcomes(|records|, script)| && Calls(records, script)[j] == records[i]
    ensures Outcomes(|records|, script)[i] == if script[j] == Succeeded then Consumed else DeadLettered
  {
    var m := RetryCalls(script);
    if j < m {
      CallWithinRetry(script, j);
      i := 0;
    } else {
      var rest := DecisiveCall(records[1..], script[m..], j - m);
      i := rest + 1;
    }
  }

  lemma {:induction false} CallWithinRetry(script: seq<HandlerResult>, j: nat)
    requires j < RetryCalls(script) && script[j] != Transient
    ensures Retry(script) == Some(if script[j] == Succeeded then Consumed else DeadLettered)
  {
    if script[0] == Transient {
      CallWithinRetry(script[1..], j - 1);
    }
  }

  /** After a transient answer the next call, if there is an answer left, is for the same record. */
  lemma {:induction false} NextCallIsSame(records: seq<Record>, script: seq<HandlerResult>, j: nat)
    requires j < |Calls(records, script)| && script[j] == Transient && j + 1 < |script|
    ensures j + 1 < |Calls(records, script)| && Calls(records, script)[j + 1] == Calls(records, script)[j]
    decreases j
  {
    CallsUnfold(records, script);
    if j == 0 {
      CallsUnfold(records, script[1..]);
    } else {
      NextCallIsSame(if script[0] == Transient then records else records[1..], script[1..], j - 1);
    }
  }
}
