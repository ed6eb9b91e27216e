/** At-least-once delivery: what the committed offset and the fetch position promise over whole runs. */
module GroupSafety {
  import opened Kafka
  import opened Offsets
  import opened Dlq
  import opened Batch
  import opened BatchLaws
  import opened Group

  // ---- What the broker hands out ----

  ghost predicate LogsWellFormed(g: Group) {
    forall tp, o | tp in g.logs && o in g.logs[tp] :: g.logs[tp][o].offset == o && g.logs[tp][o].TP() == tp
  }

  /** A fetch continues the log from the position, in ascending order and without skipping a record. */
  ghost predicate ValidFetch(g: Group, f: FetchPartition) {
    && (forall k | 0 <= k < |f.records| ::
          && f.records[k].offset in LogOf(g, f.tp)
          && LogOf(g, f.tp)[f.records[k].offset] == f.records[k]
          && At(g.position, f.tp) <= f.records[k].offset)
    && (forall k, l | 0 <= k < l < |f.records| :: f.records[k].offset < f.records[l].offset)
    && (forall k, o | 0 <= k < |f.records| && o in LogOf(g, f.tp) && At(g.position, f.tp) <= o <= f.records[k].offset ::
          LogOf(g, f.tp)[o] in f.records)
  }

  ghost predicate ValidFetches(g: Group, fetches: seq<FetchPartition>) {
    && (forall i | 0 <= i < |fetches| :: ValidFetch(g, fetches[i]))
    && (forall i, j | 0 <= i < j < |fetches| :: fetches[i].tp != fetches[j].tp)
  }

  ghost predicate ValidInput(g: Group, input: PollInput) {
    && ValidFetches(g, input.fetches)
    && |input.published| == |DeadLetters(g, input)|
  }

  ghost predicate BatchInLogs(g: Group, records: seq<Record>) {
    forall r | r in records ::
      r.offset in LogOf(g, r.TP()) && LogOf(g, r.TP())[r.offset] == r && At(g.position, r.TP()) <= r.offset
  }

  ghost predicate BatchAscends(records: seq<Record>) {
    forall i, j | 0 <= i < j < |records| && records[i].TP() == records[j].TP() :: records[i].offset < records[j].offset
  }

  ghost predicate BatchGapless(g: Group, records: seq<Record>) {
    forall r, o | r in records && o in LogOf(g, r.TP()) && At(g.position, r.TP()) <= o <= r.offset ::
      LogOf(g, r.TP())[o] in records
  }

  /** The same facts about the flat batch. */
  ghost predicate ValidBatch(g: Group, records: seq<Record>) {
    BatchInLogs(g, records) && BatchAscends(records) && BatchGapless(g, records)
  }

  lemma {:induction false} InFetches(fetches: seq<FetchPartition>, r: Record)
    ensures r in Flatten(fetches) <==> exists i :: 0 <= i < |fetches| && r in fetches[i].records
  {
    if fetches == [] {
      assert Flatten(fetches) == [];
    } else {
      var n := |fetches| - 1;
      var before := fetches[..n];
      InFetches(before, r);
      if i :| 0 <= i < n && r in fetches[i].records {
        assert r in before[i].records;
      }
    }
  }

  lemma FetchIsOfPartition(g: Group, f: FetchPartition, r: Record)
    requires LogsWellFormed(g) && ValidFetch(g, f) && r in f.records
    ensures f.tp == r.TP()
  {
    var k :| 0 <= k < |f.records| && f.records[k] == r;
  }

  lemma FlattenMembers(g: Group, fetches: seq<FetchPartition>, r: Record)
    requires LogsWellFormed(g) && ValidFetches(g, fetches)
    ensures r in Flatten(fetches) <==> exists i :: 0 <= i < |fetches| && r in fetches[i].records
    ensures r in Flatten(fetches) ==>
              exists i :: 0 <= i < |fetches| && r in fetches[i].records && fetches[i].tp == r.TP()
  {
    InFetches(fetches, r);
    if i :| 0 <= i < |fetches| && r in fetches[i].records {
      FetchIsOfPartition(g, fetches[i], r);
    }
  }

  lemma {:induction false} FlattenAscends(g: Group, fetches: seq<FetchPartition>, i: nat, j: nat)
    requires LogsWellFormed(g) && ValidFetches(g, fetches)
    requires i < j < |Flatten(fetches)| && Flatten(fetches)[i].TP() == Flatten(fetches)[j].TP()
    ensures Flatten(fetches)[i].offset < Flatten(fetches)[j].offset
  {
    var n := |fetches| - 1;
    var before, last := Flatten(fetches[..n]), fetches[n].records;
    if j < |before| {
      FlattenAscends(g, fetches[..n], i, j);
    } else if |before| <= i {
      assert last[i - |before|].offset < last[j - |before|].offset;
    } else {
      FlattenMembers(g, fetches[..n], before[i]);
    }
  }

  lemma FetchCovers(g: Group, f: FetchPartition, r: Record, o: int)
    requires LogsWellFormed(g) && ValidFetch(g, f) && r in f.records && f.tp == r.TP()
    ensures r.offset in LogOf(g, r.TP()) && LogOf(g, r.TP())[r.offset] == r && At(g.position, r.TP()) <= r.offset
    ensures o in LogOf(g, r.TP()) && At(g.position, r.TP()) <= o <= r.offset ==> LogOf(g, r.TP())[o] in f.records
  {
    var k :| 0 <= k < |f.records| && f.records[k] == r;
  }

  lemma FlattenCovers(g: Group, fetches: seq<FetchPartition>, r: Record, o: int)
    requires LogsWellFormed(g) && ValidFetches(g, fetches) && r in Flatten(fetches)
    ensures r.offset in LogOf(g, r.TP()) && LogOf(g, r.TP())[r.offset] == r && At(g.position, r.TP()) <= r.offset
    ensures o in LogOf(g, r.TP()) && At(g.position, r.TP()) <= o <= r.offset ==> LogOf(g, r.TP())[o] in Flatten(fetches)
  {
    FlattenMembers(g, fetches, r);
    var i :| 0 <= i < |fetches| && r in fetches[i].records && fetches[i].tp == r.TP();
    FetchCovers(g, fetches[i], r, o);
    if o in LogOf(g, r.TP()) && At(g.position, r.TP()) <= o <= r.offset {
      InFetches(fetches, LogOf(g, r.TP())[o]);
    }
  }

  lemma FlattenIsValid(g: Group, fetches: seq<FetchPartition>)
    requires LogsWellFormed(g) && ValidFetches(g, fetches)
    ensures ValidBatch(g, Flatten(fetches))
  {
    var records := Flatten(fetches);
    forall r | r in records
      ensures r.offset in LogOf(g, r.TP()) && LogOf(g, r.TP())[r.offset] == r && At(g.position, r.TP()) <= r.offset
      ensures forall o | o in LogOf(g, r.TP()) && At(g.position, r.TP()) <= o <= r.offset ::
                LogOf(g, r.TP())[o] in records
    {
      FlattenCovers(g, fetches, r, r.offset);
      forall o | o in LogOf(g, r.TP()) && At(g.position, r.TP()) <= o <= r.offset
        ensures LogOf(g, r.TP())[o] in records
      {
        FlattenCovers(g, fetches, r, o);
      }
    }
    forall i, j | 0 <= i < j < |records| && records[i].TP() == records[j].TP()
      ensures records[i].offset < records[j].offset
    {
      FlattenAscends(g, fetches, i, j);
    }
  }

  // ---- Cursor arithmetic ----

  ghost predicate Touches(fetches: seq<FetchPartition>, tp: TopicPartition) {
    exists i :: 0 <= i < |fetches| && fetches[i].tp == tp && fetches[i].records != []
  }

  lemma {:induction false} Untouched(position: map<TopicPartition, int>, fetches: seq<FetchPartition>,
                                     committable: map<TopicPartition, EpochOffset>, tp: TopicPartition)
    requires !Touches(fetches, tp)
    ensures At(Advance(position, fetches), tp) == At(position, tp)
    ensures tp !in ResetOffsets(fetches, committable)
  {
    if fetches == [] {
    } else {
      var n := |fetches| - 1;
      assert fetches[n].tp != tp || fetches[n].records == [];
      Untouched(position, fetches[..n], committable, tp);
    }
  }

  lemma {:induction false} Touched(position: map<TopicPartition, int>, fetches: seq<FetchPartition>,
                                   committable: map<TopicPartition, EpochOffset>, i: nat)
    requires i < |fetches| && fetches[i].records != []
    requires forall j, k | 0 <= j < k < |fetches| :: fetches[j].tp != fetches[k].tp
    ensures var f := fetches[i];
            && At(Advance(position, fetches), f.tp) == f.records[|f.records| - 1].offset + 1
            && f.tp in ResetOffsets(fetches, committable)
            && ResetOffsets(fetches, committable)[f.tp].offset
               == if f.tp in committable then committable[f.tp].offset else f.records[0].offset
  {
    var n := |fetches| - 1;
    if i < n {
      Touched(position, fetches[..n], committable, i);
    }
  }

  // ---- Invariants ----

  ghost predicate Handled(g: Group, r: Record) {
    r in g.consumed || r in g.dlq
  }

  /** Every record of the partition below x was consumed or is on the dead-letter topic. */
  ghost predicate SafeBelow(g: Group, tp: TopicPartition, x: int) {
    forall o | o in LogOf(g, tp) && o < x :: Handled(g, LogOf(g, tp)[o])
  }

  /** x points at most just behind the last record. */
  ghost predicate Bounded(g: Group, tp: TopicPartition, x: int) {
    x <= 0 || exists o :: o in LogOf(g, tp) && x <= o + 1
  }

  /** What every poll keeps, whatever happens to the dead letters. */
  ghost predicate OrderedAt(g: Group, tp: TopicPartition) {
    && Bounded(g, tp, At(g.committed, tp))
    && (g.running ==> At(g.committed, tp) <= At(g.position, tp) && Bounded(g, tp, At(g.position, tp)))
  }

  ghost predicate Ordered(g: Group) {
    LogsWellFormed(g) && forall tp :: OrderedAt(g, tp)
  }

  /** No record is lost: a restart resumes at the committed offset, a running consumer at its position. */
  ghost predicate NoLoss(g: Group) {
    forall tp ::
      && SafeBelow(g, tp, At(g.committed, tp))
      && (g.running ==> SafeBelow(g, tp, At(g.position, tp)))
  }

  /** A dead-lettered record ahead of every consumed record of its partition in the batch. */
  ghost predicate AheadOfConsumed(records: seq<Record>, outcomes: seq<Outcome>, i: nat) {
    && i < |outcomes| <= |records| && outcomes[i] == DeadLettered
    && (forall j | 0 <= j < i && records[j].TP() == records[i].TP() :: outcomes[j] != Consumed)
    && (exists j :: i < j < |outcomes| && records[j].TP() == records[i].TP() && outcomes[j] == Consumed)
  }

  /** The guard of no-loss for one partition: the dead letters ahead of its first consumed record
      really were published, now or by an earlier poll. */
  ghost predicate HeadCovered(g: Group, input: PollInput, tp: TopicPartition)
    requires |input.published| == |DeadLetters(g, input)|
  {
    var records, outcomes := Flatten(input.fetches), BatchOutcomes(g, input);
    forall i: nat | AheadOfConsumed(records, outcomes, i) && records[i].TP() == tp ::
      Handled(AfterBatch(g, input), records[i])
  }

  /** The poll reaches the commit. */
  ghost predicate Commits(g: Group, input: PollInput) {
    && !input.closed && !FatalErrors(input.errors)
    && (ErrorOf(g, input).IsNil() || ErrorOf(g, input).ContextCanceled())
  }

  /** The partitions whose committed offset or position follows the frontier. */
  ghost predicate Moves(input: PollInput, tp: TopicPartition) {
    tp in input.commit.applied || !input.commit.failed
  }

  ghost predicate HeadsCovered(g: Group, input: PollInput)
    requires |input.published| == |DeadLetters(g, input)|
  {
    Commits(g, input) ==>
      forall tp | tp in Committable(Tracked(g, input)) && Moves(input, tp) :: HeadCovered(g, input, tp)
  }

  // ---- The frontier against the log ----

  lemma TrackedIff(g: Group, input: PollInput, r: Record)
    requires |input.published| == |DeadLetters(g, input)|
    ensures r in Tracked(g, input) <==>
            exists i :: 0 <= i < |BatchOutcomes(g, input)| && Flatten(input.fetches)[i] == r
                        && (BatchOutcomes(g, input)[i] == Consumed || AllPublished(input.published))
  {
    var records, outcomes := Flatten(input.fetches), BatchOutcomes(g, input);
    WithOutcomeIff(records, outcomes, Consumed, r);
    WithOutcomeIff(records, outcomes, DeadLettered, r);
    if i :| 0 <= i < |outcomes| && records[i] == r && (outcomes[i] == Consumed || AllPublished(input.published)) {
      assert outcomes[i] == Consumed || outcomes[i] == DeadLettered;
    }
  }

  /** A batch only adds to what is handled, and what the tracker knows is handled. */
  lemma TrackedIsHandled(g: Group, input: PollInput, r: Record)
    requires |input.published| == |DeadLetters(g, input)|
    ensures Handled(g, r) ==> Handled(AfterBatch(g, input), r)
    ensures r in Tracked(g, input) ==> Handled(AfterBatch(g, input), r)
  {
    if AllPublished(input.published) {
      AllPublishedAreSuccesses(DeadLetters(g, input), input.published);
    }
  }

  /** The smallest stored offset of a partition comes from the first of its tracked records. */
  lemma FirstTracked(g: Group, input: PollInput, tp: TopicPartition) returns (first: nat, m: int)
    requires LogsWellFormed(g) && ValidInput(g, input) && tp in Committable(Tracked(g, input))
    ensures var records, outcomes := Flatten(input.fetches), BatchOutcomes(g, input);
            && first < |outcomes| && records[first].TP() == tp && records[first] in Tracked(g, input)
            && (forall r | r in Tracked(g, input) && r.TP() == tp :: records[first].offset <= r.offset)
            && m == Committable(Tracked(g, input))[tp].offset
            && EndsRun(Tracked(g, input), tp, records[first].offset + 1, m)
            && exists r :: r in Tracked(g, input) && r.TP() == tp && m == r.offset + 1
  {
    var tracked := Tracked(g, input);
    var low := FrontierFacts(tracked, tp);
    m := Committable(tracked)[tp].offset;
    var r :| r in tracked && Registers(r, tp, low);
    TrackedIff(g, input, r);
    first :| 0 <= first < |BatchOutcomes(g, input)| && Flatten(input.fetches)[first] == r;
    forall other | other in tracked && other.TP() == tp
      ensures r.offset <= other.offset
    {
      assert Registers(other, tp, other.offset + 1);
      assert IsEnd(tracked, tp, other.offset + 1);
    }
  }

  /** Within one partition, batch order is offset order. */
  lemma EarlierInBatch(g: Group, records: seq<Record>, first: nat, o: int) returns (i: nat)
    requires LogsWellFormed(g) && ValidBatch(g, records) && first < |records|
    requires o in LogOf(g, records[first].TP())
    requires At(g.position, records[first].TP()) <= o < records[first].offset
    ensures i < first && records[i] == LogOf(g, records[first].TP())[o]
  {
    assert records[first] in records;
    assert LogOf(g, records[first].TP())[o] in records;
    i :| 0 <= i < |records| && records[i] == LogOf(g, records[first].TP())[o];
  }

  /** Nothing untracked lies between the first tracked record and the frontier. */
  lemma RunIsTracked(g: Group, input: PollInput, tp: TopicPartition, o: int, first: nat)
    requires LogsWellFormed(g) && ValidBatch(g, Flatten(input.fetches))
    requires |input.published| == |DeadLetters(g, input)| && first < |Flatten(input.fetches)|
    requires o in LogOf(g, tp) && Flatten(input.fetches)[first].offset <= o
    requires IsEnd(Tracked(g, input), tp, o + 1)
    ensures LogOf(g, tp)[o] in Tracked(g, input)
  {
    var r :| r in Tracked(g, input) && Registers(r, tp, o + 1);
    TrackedIff(g, input, r);
    assert r in Flatten(input.fetches);
  }

  /** A fetched record below the frontier that the tracker does not know is ahead of every consumed
      record of its partition. */
  lemma UntrackedBelowFrontier(g: Group, input: PollInput, tp: TopicPartition, o: int) returns (i: nat)
    requires LogsWellFormed(g) && ValidInput(g, input) && tp in Committable(Tracked(g, input))
    requires ValidBatch(g, Flatten(input.fetches))
    requires o in LogOf(g, tp) && At(g.position, tp) <= o < Committable(Tracked(g, input))[tp].offset
    requires LogOf(g, tp)[o] !in Tracked(g, input)
    ensures var records := Flatten(input.fetches);
            AheadOfConsumed(records, BatchOutcomes(g, input), i) && records[i] == LogOf(g, tp)[o]
  {
    var records := Flatten(input.fetches);
    var first, m := FirstTracked(g, input, tp);
    if records[first].offset <= o {
      RunIsTracked(g, input, tp, o, first);
    }
    i := EarlierInBatch(g, records, first, o);
    AheadOfFirst(g, input, i, first);
  }

  lemma AheadOfFirst(g: Group, input: PollInput, i: nat, first: nat)
    requires LogsWellFormed(g) && ValidInput(g, input) && ValidBatch(g, Flatten(input.fetches))
    requires i < first < |BatchOutcomes(g, input)|
    requires var records, tracked := Flatten(input.fetches), Tracked(g, input);
             && records[i].TP() == records[first].TP()
             && records[first] in tracked && records[i] !in tracked
             && (forall r | r in tracked && r.TP() == records[first].TP() :: records[first].offset <= r.offset)
    ensures AheadOfConsumed(Flatten(input.fetches), BatchOutcomes(g, input), i)
  {
    var records, outcomes := Flatten(input.fetches), BatchOutcomes(g, input);
    TrackedIff(g, input, records[i]);
    assert outcomes[i] == DeadLettered && !AllPublished(input.published);
    TrackedIff(g, input, records[first]);
    var j :| 0 <= j < |outcomes| && records[j] == records[first] && outcomes[j] == Consumed;
    assert j == first;
    forall k | 0 <= k < i && records[k].TP() == records[i].TP()
      ensures outcomes[k] != Consumed
    {
      TrackedIff(g, input, records[k]);
      assert records[k].offset < records[first].offset;
    }
  }

  /** Conversely, a dead letter ahead of the consumed records that was not published is below it. */
  lemma AheadIsBelowFrontier(g: Group, input: PollInput, tp: TopicPartition, i: nat)
    requires LogsWellFormed(g) && ValidInput(g, input) && tp in Committable(Tracked(g, input))
    requires AheadOfConsumed(Flatten(input.fetches), BatchOutcomes(g, input), i)
    requires Flatten(input.fetches)[i].TP() == tp && !AllPublished(input.published)
    ensures Flatten(input.fetches)[i].offset < Committable(Tracked(g, input))[tp].offset
  {
    var records, outcomes := Flatten(input.fetches), BatchOutcomes(g, input);
    FlattenIsValid(g, input.fetches);
    var first, m := FirstTracked(g, input, tp);
    TrackedIff(g, input, records[first]);
    var j :| 0 <= j < |outcomes| && records[j] == records[first] && outcomes[j] == Consumed;
    assert i < j;
  }

  lemma CoveredFrontierIsSafe(g: Group, input: PollInput, tp: TopicPartition)
    requires LogsWellFormed(g) && ValidInput(g, input) && tp in Committable(Tracked(g, input))
    requires SafeBelow(g, tp, At(g.position, tp)) && HeadCovered(g, input, tp)
    ensures SafeBelow(AfterBatch(g, input), tp, Committable(Tracked(g, input))[tp].offset)
  {
    var m, after := Committable(Tracked(g, input))[tp].offset, AfterBatch(g, input);
    FlattenIsValid(g, input.fetches);
    assert LogOf(after, tp) == LogOf(g, tp);
    forall o | o in LogOf(g, tp) && o < m
      ensures Handled(after, LogOf(g, tp)[o])
    {
      TrackedIsHandled(g, input, LogOf(g, tp)[o]);
      if At(g.position, tp) <= o && LogOf(g, tp)[o] !in Tracked(g, input) {
        var i := UntrackedBelowFrontier(g, input, tp, o);
        assert Flatten(input.fetches)[i].TP() == tp;
      }
    }
  }

  lemma SafeFrontierCoversHead(g: Group, input: PollInput, tp: TopicPartition, i: nat)
    requires LogsWellFormed(g) && ValidInput(g, input) && tp in Committable(Tracked(g, input))
    requires SafeBelow(AfterBatch(g, input), tp, Committable(Tracked(g, input))[tp].offset)
    requires AheadOfConsumed(Flatten(input.fetches), BatchOutcomes(g, input), i)
    requires Flatten(input.fetches)[i].TP() == tp
    ensures Handled(AfterBatch(g, input), Flatten(input.fetches)[i])
  {
    var r := Flatten(input.fetches)[i];
    if AllPublished(input.published) {
      TrackedIff(g, input, r);
      TrackedIsHandled(g, input, r);
    } else {
      AheadIsBelowFrontier(g, input, tp, i);
      FlattenIsValid(g, input.fetches);
      assert r in Flatten(input.fetches);
      assert LogOf(AfterBatch(g, input), tp) == LogOf(g, tp);
    }
  }

  /** Committing or resuming at the frontier of a partition is safe exactly when its head is covered. */
  lemma FrontierSafeIff(g: Group, input: PollInput, tp: TopicPartition)
    requires LogsWellFormed(g) && ValidInput(g, input) && tp in Committable(Tracked(g, input))
    requires SafeBelow(g, tp, At(g.position, tp))
    ensures SafeBelow(AfterBatch(g, input), tp, Committable(Tracked(g, input))[tp].offset)
            <==> HeadCovered(g, input, tp)
  {
    if HeadCovered(g, input, tp) {
      CoveredFrontierIsSafe(g, input, tp);
    }
    if SafeBelow(AfterBatch(g, input), tp, Committable(Tracked(g, input))[tp].offset) {
      forall i: nat | AheadOfConsumed(Flatten(input.fetches), BatchOutcomes(g, input), i)
                      && Flatten(input.fetches)[i].TP() == tp
        ensures Handled(AfterBatch(g, input), Flatten(input.fetches)[i])
      {
        SafeFrontierCoversHead(g, input, tp, i);
      }
    }
  }

  // ---- What a drained batch commits ----

  ghost predicate IsFirstOf(records: seq<Record>, tp: TopicPartition, first: nat) {
    && first < |records| && records[first].TP() == tp
    && forall j | 0 <= j < first :: records[j].TP() != tp
  }

  lemma EqualEnds(a: seq<Record>, b: seq<Record>, tp: TopicPartition)
    requires SameRecords(a, b)
    ensures forall end :: IsEnd(a, tp, end) <==> IsEnd(b, tp, end)
  {
    forall end
      ensures IsEnd(a, tp, end) <==> IsEnd(b, tp, end)
    {
      if IsEnd(a, tp, end) {
        var r :| r in a && Registers(r, tp, end);
        assert r in b;
      }
      if IsEnd(b, tp, end) {
        var r :| r in b && Registers(r, tp, end);
        assert r in a;
      }
    }
  }

  lemma CommittableIff(registered: seq<Record>, tp: TopicPartition)
    ensures tp in Committable(registered) <==> exists r :: r in registered && r.TP() == tp
  {
    StoredPartitions(registered, tp);
  }

  lemma LaterIsHigher(records: seq<Record>, tp: TopicPartition, first: nat, i: nat)
    requires BatchAscends(records) && IsFirstOf(records, tp, first) && i < |records| && records[i].TP() == tp
    ensures records[first].offset <= records[i].offset
  {
  }

  /** The first record of the partition in the batch has the smallest end of those settled. */
  lemma FirstIsLowest(records: seq<Record>, n: nat, tp: TopicPartition, first: nat)
    requires BatchAscends(records) && IsFirstOf(records, tp, first) && first < n <= |records|
    ensures IsEnd(records[..n], tp, records[first].offset + 1)
    ensures forall end | IsEnd(records[..n], tp, end) :: records[first].offset + 1 <= end
  {
    var settled := records[..n];
    assert settled[first] == records[first] && Registers(records[first], tp, records[first].offset + 1);
    forall end | IsEnd(settled, tp, end)
      ensures records[first].offset + 1 <= end
    {
      var r :| r in settled && Registers(r, tp, end);
      var i :| 0 <= i < n && settled[i] == r;
      LaterIsHigher(records, tp, first, i);
    }
  }

  lemma SettledPartition(records: seq<Record>, n: nat, tp: TopicPartition, first: nat)
    requires IsFirstOf(records, tp, first) && n <= |records|
    ensures (exists r :: r in records[..n] && r.TP() == tp) <==> first < n
  {
    if r :| r in records[..n] && r.TP() == tp {
      var i :| 0 <= i < n && records[..n][i] == r;
      assert records[i].TP() == tp;
    }
    if first < n {
      assert records[..n][first] == records[first];
    }
  }

  /** What is committed is the end of the maximal run of consecutive settled offsets from low. */
  ghost predicate CommitsRun(tracked: seq<Record>, settled: seq<Record>, tp: TopicPartition, low: int) {
    tp in Committable(tracked) && forall m :: EndsRun(settled, tp, low, m) <==> m == Committable(tracked)[tp].offset
  }

  /** A tracker that knows exactly the settled records commits the end of their first run. */
  lemma CommitsFirstRun(tracked: seq<Record>, settled: seq<Record>, tp: TopicPartition, low: int)
    requires SameRecords(tracked, settled) && tp in Committable(tracked)
    requires IsEnd(settled, tp, low) && forall end | IsEnd(settled, tp, end) :: low <= end
    ensures CommitsRun(tracked, settled, tp, low)
  {
    EqualEnds(tracked, settled, tp);
    CommittableIsExactFrontier(tracked, tp, low);
    forall m
      ensures EndsRun(settled, tp, low, m) <==> EndsRun(tracked, tp, low, m)
    {
    }
  }

  /** The partition is committed exactly when its first record is among the first n of the batch, at
      the end of the run of settled offsets that starts there. */
  ghost predicate CommitsFrom(tracked: seq<Record>, records: seq<Record>, n: nat, tp: TopicPartition, first: nat)
    requires n <= |records| && first < |records|
  {
    && (tp in Committable(tracked) <==> first < n)
    && (first < n ==> CommitsRun(tracked, records[..n], tp, records[first].offset + 1))
  }

  lemma DrainedPrefixCommits(records: seq<Record>, outcomes: seq<Outcome>, published: seq<PublishOutcome>,
                             tp: TopicPartition, first: nat)
    requires BatchAscends(records) && |outcomes| <= |records| && AllPublished(published)
    requires IsFirstOf(records, tp, first)
    ensures CommitsFrom(Registered(records, outcomes, published), records, |outcomes|, tp, first)
  {
    var tracked := Registered(records, outcomes, published);
    DrainedBatchIsAPrefix(records, outcomes, published);
    CommittableIff(tracked, tp);
    SettledPartition(records, |outcomes|, tp, first);
    if first < |outcomes| {
      FirstIsLowest(records, |outcomes|, tp, first);
      CommitsFirstRun(tracked, records[..|outcomes|], tp, records[first].offset + 1);
    }
  }

  /** After a successful drain a partition is committed exactly when the batch settled its first
      record, at the end of the maximal run of consecutive settled offsets that starts there. */
  lemma DrainedCommitEndsFirstRun(g: Group, input: PollInput, tp: TopicPartition, first: nat)
    requires LogsWellFormed(g) && ValidInput(g, input) && AllPublished(input.published)
    requires IsFirstOf(Flatten(input.fetches), tp, first)
    ensures CommitsFrom(Tracked(g, input), Flatten(input.fetches), |BatchOutcomes(g, input)|, tp, first)
  {
    FlattenIsValid(g, input.fetches);
    DrainedPrefixCommits(Flatten(input.fetches), BatchOutcomes(g, input), input.published, tp, first);
  }
}
