/** Resuming in order: with consecutive offsets, drains that succeed and commits that are applied,
    cancelled batches are refetched without skipping, repeating or reordering a record. */
module GroupOrder {
  import opened Kafka
  import opened Offsets
  import opened Dlq
  import opened BatchLaws
  import opened Group
  import opened GroupSafety
  import opened GroupRuns

  ghost predicate Consecutive(log: map<int, Record>) {
    forall o :: o in log <==> 0 <= o < |log|
  }

  /** The records at the offsets below n, in order. */
  ghost function LogPrefix(log: map<int, Record>, n: int): seq<Record> {
    if n <= 0 then []
    else LogPrefix(log, n - 1) + if n - 1 in log then [log[n - 1]] else []
  }

  ghost predicate CommitsWithin(g: Group, tp: TopicPartition) {
    Consecutive(LogOf(g, tp)) && 0 <= At(g.committed, tp) <= |LogOf(g, tp)|
  }

  ghost predicate SettledIsPrefix(g: Group, tp: TopicPartition) {
    OfPartition(g.settled, tp) == LogPrefix(LogOf(g, tp), At(g.committed, tp))
  }

  ghost predicate StandsAtCommit(g: Group, tp: TopicPartition) {
    g.running ==> At(g.position, tp) == At(g.committed, tp)
  }

  /** What was settled in a partition is exactly the log up to the committed offset, which is where
      a running consumer stands. */
  ghost predicate InOrderAt(g: Group, tp: TopicPartition) {
    CommitsWithin(g, tp) && SettledIsPrefix(g, tp) && StandsAtCommit(g, tp)
  }

  ghost predicate InOrder(g: Group) {
    Ordered(g) && forall tp :: InOrderAt(g, tp)
  }

  /** Every dead letter was published and every commit applied (even one reported as failed). */
  ghost predicate InSync(g: Group, input: PollInput) {
    AllPublished(input.published) && Committable(Tracked(g, input)).Keys <= input.commit.applied
  }

  // ---- The records of one partition in a batch ----

  lemma {:induction false} OfPartitionIff(records: seq<Record>, tp: TopicPartition, r: Record)
    ensures r in OfPartition(records, tp) <==> r in records && r.TP() == tp
  {
    if records == [] {
    } else {
      var n := |records| - 1;
      OfPartitionIff(records[..n], tp, r);
      assert records == records[..n] + [records[n]];
    }
  }

  lemma {:induction false} OfPartitionConcat(a: seq<Record>, b: seq<Record>, tp: TopicPartition)
    ensures OfPartition(a + b, tp) == OfPartition(a, tp) + OfPartition(b, tp)
  {
    if b == [] {
      assert a + b == a;
    } else {
      var n := |b| - 1;
      OfPartitionConcat(a, b[..n], tp);
      assert (a + b)[..|a + b| - 1] == a + b[..n];
    }
  }

  ghost predicate Ascending(records: seq<Record>, tp: TopicPartition) {
    forall i, j | 0 <= i < j < |records| && records[i].TP() == tp && records[j].TP() == tp ::
      records[i].offset < records[j].offset
  }

  lemma {:induction false} OfPartitionAscends(records: seq<Record>, tp: TopicPartition)
    requires Ascending(records, tp)
    ensures forall i, j | 0 <= i < j < |OfPartition(records, tp)| ::
              OfPartition(records, tp)[i].offset < OfPartition(records, tp)[j].offset
  {
    if records == [] {
    } else {
      var n := |records| - 1;
      OfPartitionAscends(records[..n], tp);
      var before := OfPartition(records[..n], tp);
      forall i | 0 <= i < |before| && records[n].TP() == tp
        ensures before[i].offset < records[n].offset
      {
        OfPartitionIff(records[..n], tp, before[i]);
      }
    }
  }

  ghost predicate Covering(own: seq<Record>, log: map<int, Record>, start: int) {
    && (forall o | o in log :: log[o].offset == o)
    && (forall r | r in own :: Stands(log, r.offset, r) && start <= r.offset)
    && (forall i, j | 0 <= i < j < |own| :: own[i].offset < own[j].offset)
    && (forall r, o | r in own && start <= o <= r.offset :: o in log && log[o] in own)
  }

  /** Ascending records that cover the log from `start` carry consecutive offsets. */
  lemma {:induction false} RunOfRecords(log: map<int, Record>, start: nat, own: seq<Record>, k: nat)
    requires Covering(own, log, start) && k < |own|
    ensures Stands(log, start + k, own[k])
  {
    if k == 0 {
    } else {
      RunOfRecords(log, start, own, k - 1);
    }
    assert own[k] in own;
    assert start + k <= own[k].offset;
    var l :| 0 <= l < |own| && own[l] == log[start + k];
    assert own[l].offset == start + k;
  }

  /** The records are the log from `start` on, one by one. */
  ghost predicate Continues(own: seq<Record>, log: map<int, Record>, start: int) {
    forall k | 0 <= k < |own| :: Stands(log, start + k, own[k])
  }

  ghost predicate Stands(log: map<int, Record>, o: int, r: Record) {
    o in log && log[o] == r
  }

  lemma ContinuesAt(own: seq<Record>, log: map<int, Record>, start: int, k: nat)
    requires Continues(own, log, start) && k < |own|
    ensures start + k in log && own[k] == log[start + k]
  {
    assert Stands(log, start + k, own[k]);
  }

  lemma {:induction false} LogPrefixExtends(log: map<int, Record>, start: nat, own: seq<Record>)
    requires Consecutive(log) && Continues(own, log, start)
    ensures own != [] ==> start + |own| <= |log|
    ensures LogPrefix(log, start) + own == LogPrefix(log, start + |own|)
  {
    if own == [] {
      assert LogPrefix(log, start) + own == LogPrefix(log, start);
    } else {
      var n := |own| - 1;
      ContinuesAt(own, log, start, n);
      assert Continues(own[..n], log, start);
      LogPrefixExtends(log, start, own[..n]);
      assert LogPrefix(log, start) + own == LogPrefix(log, start) + own[..n] + [own[n]];
    }
  }

  /** What a batch settles in a partition continues its log without a gap. */
  lemma SettledRun(g: Group, records: seq<Record>, n: nat, tp: TopicPartition)
    requires LogsWellFormed(g) && ValidBatch(g, records) && n <= |records|
    requires Consecutive(LogOf(g, tp)) && 0 <= At(g.position, tp)
    ensures Continues(OfPartition(records[..n], tp), LogOf(g, tp), At(g.position, tp))
  {
    var own, log, start := OfPartition(records[..n], tp), LogOf(g, tp), At(g.position, tp);
    BatchCoversLog(g, records, n, tp);
    forall k | 0 <= k < |own|
      ensures Stands(log, start + k, own[k])
    {
      RunOfRecords(log, start, own, k);
    }
  }

  lemma BatchCoversLog(g: Group, records: seq<Record>, n: nat, tp: TopicPartition)
    requires LogsWellFormed(g) && ValidBatch(g, records) && n <= |records|
    requires Consecutive(LogOf(g, tp)) && 0 <= At(g.position, tp)
    ensures Covering(OfPartition(records[..n], tp), LogOf(g, tp), At(g.position, tp))
  {
    var own, log, start := OfPartition(records[..n], tp), LogOf(g, tp), At(g.position, tp);
    OfPartitionAscends(records[..n], tp);
    forall r | r in own
      ensures r in records && r.offset in log && log[r.offset] == r && start <= r.offset
      ensures forall o | start <= o <= r.offset :: o in log && log[o] in own
    {
      OfPartitionIff(records[..n], tp, r);
      assert r in records;
      forall o | start <= o <= r.offset
        ensures o in log && log[o] in own
      {
        EarlierIsIn(g, records, n, tp, r, o);
      }
    }
  }

  lemma EarlierIsIn(g: Group, records: seq<Record>, n: nat, tp: TopicPartition, r: Record, o: int)
    requires LogsWellFormed(g) && ValidBatch(g, records) && n <= |records| && Consecutive(LogOf(g, tp))
    requires r in records[..n] && r.TP() == tp && 0 <= At(g.position, tp) <= o <= r.offset
    ensures o in LogOf(g, tp) && LogOf(g, tp)[o] in OfPartition(records[..n], tp)
  {
    assert r in records;
    assert o in LogOf(g, tp);
    var e := LogOf(g, tp)[o];
    var i :| 0 <= i < |records| && records[i] == e;
    var j :| 0 <= j < n && records[j] == r;
    assert i <= j;
    assert e in records[..n];
    OfPartitionIff(records[..n], tp, e);
  }

  // ---- One poll ----

  ghost function SettledOf(g: Group, input: PollInput, tp: TopicPartition): seq<Record> {
    OfPartition(Flatten(input.fetches)[..|BatchOutcomes(g, input)|], tp)
  }

  lemma SettledOfRun(g: Group, input: PollInput, tp: TopicPartition)
    requires LogsWellFormed(g) && ValidInput(g, input)
    requires Consecutive(LogOf(g, tp)) && 0 <= At(g.position, tp)
    ensures Continues(SettledOf(g, input, tp), LogOf(g, tp), At(g.position, tp))
  {
    FlattenIsValid(g, input.fetches);
    SettledRun(g, Flatten(input.fetches), |BatchOutcomes(g, input)|, tp);
  }

  lemma TrackedEnds(g: Group, input: PollInput, tp: TopicPartition)
    requires LogsWellFormed(g) && ValidInput(g, input) && AllPublished(input.published)
    requires Consecutive(LogOf(g, tp)) && 0 <= At(g.position, tp)
    ensures forall end :: IsEnd(Tracked(g, input), tp, end)
                          <==> At(g.position, tp) + 1 <= end <= At(g.position, tp) + |SettledOf(g, input, tp)|
  {
    var settled := Flatten(input.fetches)[..|BatchOutcomes(g, input)|];
    SettledOfRun(g, input, tp);
    DrainedBatchIsAPrefix(Flatten(input.fetches), BatchOutcomes(g, input), input.published);
    SameEnds(g, Tracked(g, input), settled, tp, At(g.position, tp));
  }

  lemma CommittableByEnds(tracked: seq<Record>, tp: TopicPartition)
    ensures tp in Committable(tracked) <==> exists end :: IsEnd(tracked, tp, end)
  {
    if tp in Partitions(tracked) {
      var r :| r in tracked && r.TP() == tp;
      assert Registers(r, tp, r.offset + 1);
      assert IsEnd(tracked, tp, r.offset + 1);
    }
  }

  /** The offset a partition commits is exactly behind what the batch settled there. */
  lemma CommitsWhatWasSettled(g: Group, input: PollInput, tp: TopicPartition)
    requires LogsWellFormed(g) && ValidInput(g, input) && AllPublished(input.published)
    requires Consecutive(LogOf(g, tp)) && 0 <= At(g.position, tp)
    ensures var committable := Committable(Tracked(g, input));
            && (tp in committable <==> SettledOf(g, input, tp) != [])
            && (tp in committable ==> committable[tp].offset == At(g.position, tp) + |SettledOf(g, input, tp)|)
  {
    var tracked, start, n := Tracked(g, input), At(g.position, tp), |SettledOf(g, input, tp)|;
    TrackedEnds(g, input, tp);
    CommittableByEnds(tracked, tp);
    if n > 0 {
      assert IsEnd(tracked, tp, start + 1);
      assert EndsRun(tracked, tp, start + 1, start + n);
      CommittableIsExactFrontier(tracked, tp, start + 1);
    }
  }

  lemma SameEnds(g: Group, tracked: seq<Record>, settled: seq<Record>, tp: TopicPartition, start: int)
    requires SameRecords(tracked, settled)
    requires Continues(OfPartition(settled, tp), LogOf(g, tp), start)
    requires LogsWellFormed(g)
    ensures forall end :: IsEnd(tracked, tp, end) <==> start + 1 <= end <= start + |OfPartition(settled, tp)|
  {
    var own := OfPartition(settled, tp);
    forall end
      ensures IsEnd(tracked, tp, end) <==> start + 1 <= end <= start + |own|
    {
      if IsEnd(tracked, tp, end) {
        var r :| r in tracked && Registers(r, tp, end);
        OfPartitionIff(settled, tp, r);
        var k :| 0 <= k < |own| && own[k] == r;
        ContinuesAt(own, LogOf(g, tp), start, k);
      }
      if start + 1 <= end <= start + |own| {
        var k := end - 1 - start;
        ContinuesAt(own, LogOf(g, tp), start, k);
        assert own[k] in own;
        OfPartitionIff(settled, tp, own[k]);
        assert Registers(own[k], tp, end);
      }
    }
  }

  lemma PositionFollows(g: Group, input: PollInput, tp: TopicPartition)
    requires InOrder(g) && g.running && ValidInput(g, input) && AllPublished(input.published)
    ensures var own := SettledOf(g, input, tp);
            && At(Rewound(g, input), tp) == At(g.position, tp) + |own|
            && (ErrorOf(g, input).IsNil() ==>
                  At(Advance(g.position, input.fetches), tp) == At(g.position, tp) + |own|)
  {
    assert OrderedAt(g, tp) && InOrderAt(g, tp);
    var log, start := LogOf(g, tp), At(g.position, tp);
    CommitsWhatWasSettled(g, input, tp);
    if tp in Committable(Tracked(g, input)) {
      RewindToFrontier(g, input, tp);
    } else {
      RewindToFirst(g, input, tp);
      assert start < At(Rewound(g, input), tp) ==> start in log;
    }
    if ErrorOf(g, input).IsNil() {
      AdvanceFollows(g, input, tp);
    }
  }

  lemma AdvanceFollows(g: Group, input: PollInput, tp: TopicPartition)
    requires InOrder(g) && g.running && ValidInput(g, input) && AllPublished(input.published)
    requires ErrorOf(g, input).IsNil()
    ensures At(Advance(g.position, input.fetches), tp)
         == At(g.position, tp) + |SettledOf(g, input, tp)|
  {
    assert OrderedAt(g, tp) && InOrderAt(g, tp);
    var records, log, start := Flatten(input.fetches), LogOf(g, tp), At(g.position, tp);
    var own, end := OfPartition(records, tp), At(Advance(g.position, input.fetches), tp);
    assert records[..|BatchOutcomes(g, input)|] == records;
    CommitsWhatWasSettled(g, input, tp);
    AdvanceLands(g, input, tp);
    if tp in Committable(Tracked(g, input)) {
      FrontierWithinAdvance(g, input, tp);
    }
    if start + |own| < end {
      var o := start + |own|;
      assert o in log;
      SettledOfRun(g, input, tp);
      OfPartitionIff(records, tp, log[o]);
    }
  }

  lemma OffsetsFollow(g: Group, input: PollInput, tp: TopicPartition)
    requires InOrder(g) && g.running && ValidInput(g, input) && InSync(g, input) && Commits(g, input)
    ensures var after, n := Poll(g, input), |SettledOf(g, input, tp)|;
            && At(after.committed, tp) == At(g.committed, tp) + n
            && (after.running ==> At(after.position, tp) == At(g.committed, tp) + n)
  {
    assert InOrderAt(g, tp);
    PollCommits(g, input);
    OverwriteAt(g.committed, Committable(Tracked(g, input)), input.commit.applied, tp);
    CommitsWhatWasSettled(g, input, tp);
    PositionFollows(g, input, tp);
    CanceledOrNil(g, input);
  }

  /** Settling the next records of the log and committing behind them keeps the order. */
  lemma SettledAppends(g: Group, after: Group, settled: seq<Record>, tp: TopicPartition)
    requires CommitsWithin(g, tp) && SettledIsPrefix(g, tp)
    requires Continues(OfPartition(settled, tp), LogOf(g, tp), At(g.committed, tp))
    requires after.logs == g.logs && after.settled == g.settled + settled
    requires At(after.committed, tp) == At(g.committed, tp) + |OfPartition(settled, tp)|
    ensures CommitsWithin(after, tp) && SettledIsPrefix(after, tp)
  {
    assert LogOf(after, tp) == LogOf(g, tp);
    OfPartitionConcat(g.settled, settled, tp);
    LogPrefixExtends(LogOf(g, tp), At(g.committed, tp), OfPartition(settled, tp));
  }

  lemma PollSettlesPrefix(g: Group, input: PollInput, tp: TopicPartition)
    requires InOrder(g) && g.running && ValidInput(g, input) && InSync(g, input) && Commits(g, input)
    ensures CommitsWithin(Poll(g, input), tp) && SettledIsPrefix(Poll(g, input), tp)
  {
    assert InOrderAt(g, tp);
    OffsetsFollow(g, input, tp);
    PollSettles(g, input);
    PollKeepsLogs(g, input);
    SettledOfRun(g, input, tp);
    SettledAppends(g, Poll(g, input), Flatten(input.fetches)[..|BatchOutcomes(g, input)|], tp);
  }

  lemma PollStandsAtCommit(g: Group, input: PollInput, tp: TopicPartition)
    requires InOrder(g) && g.running && ValidInput(g, input) && InSync(g, input) && Commits(g, input)
    ensures StandsAtCommit(Poll(g, input), tp)
  {
    OffsetsFollow(g, input, tp);
  }

  lemma CanceledOrNil(g: Group, input: PollInput)
    requires AllPublished(input.published)
    ensures ErrorOf(g, input).IsNil() || ErrorOf(g, input).ContextCanceled()
  {
    FailuresIff(input.published);
  }

  lemma PollSettles(g: Group, input: PollInput)
    requires ValidInput(g, input) && Commits(g, input)
    ensures Poll(g, input).settled == g.settled + Flatten(input.fetches)[..|BatchOutcomes(g, input)|]
  {
    var batch := AfterBatch(g, input);
    assert Poll(g, input).settled == batch.settled;
  }

  /** A poll keeps the order of every partition. */
  lemma PollInOrder(g: Group, input: PollInput)
    requires InOrder(g) && g.running && ValidInput(g, input) && InSync(g, input)
    ensures InOrder(Poll(g, input))
  {
    PollKeepsOrder(g, input);
    CanceledOrNil(g, input);
    if !Commits(g, input) {
      PollStops(g, input);
    }
    forall tp
      ensures InOrderAt(Poll(g, input), tp)
    {
      assert InOrderAt(g, tp);
      if Commits(g, input) {
        PollSettlesPrefix(g, input, tp);
        PollStandsAtCommit(g, input, tp);
      } else {
        assert LogOf(Poll(g, input), tp) == LogOf(g, tp);
      }
    }
  }

  // ---- Whole runs ----

  ghost predicate InSyncRun(g: Group, events: seq<Event>)
    requires ValidRun(g, events)
    decreases |events|
  {
    events != [] ==>
      && (events[0].PollOnce? ==> InSync(g, events[0].input))
      && (events[0].Append? ==> events[0].record.offset == |LogOf(g, events[0].record.TP())|)
      && InSyncRun(Next(g, events[0]), events[1..])
  }

  lemma {:induction false} LogPrefixOfExtension(log: map<int, Record>, record: Record, n: nat)
    requires Consecutive(log) && n <= |log| && record.offset == |log|
    ensures LogPrefix(log[record.offset := record], n) == LogPrefix(log, n)
  {
    if n == 0 {
    } else {
      LogPrefixOfExtension(log, record, n - 1);
    }
  }

  lemma AppendInOrder(g: Group, record: Record)
    requires InOrder(g) && Enabled(g, Append(record)) && record.offset == |LogOf(g, record.TP())|
    ensures InOrder(Next(g, Append(record)))
  {
    var after := Next(g, Append(record));
    AppendKeeps(g, record);
    forall tp
      ensures InOrderAt(after, tp)
    {
      assert InOrderAt(g, tp);
      if tp == record.TP() {
        assert LogOf(after, tp) == LogOf(g, tp)[record.offset := record];
        assert |LogOf(after, tp)| == |LogOf(g, tp)| + 1;
        LogPrefixOfExtension(LogOf(g, tp), record, At(g.committed, tp));
      } else {
        assert LogOf(after, tp) == LogOf(g, tp);
      }
    }
  }

  lemma ResumeInOrderAt(g: Group, after: Group, tp: TopicPartition)
    requires InOrderAt(g, tp)
    requires after.logs == g.logs && after.committed == g.committed && after.settled == g.settled
    requires after.running ==> At(after.position, tp) == At(g.committed, tp)
    ensures InOrderAt(after, tp)
  {
    assert LogOf(after, tp) == LogOf(g, tp);
  }

  lemma ReassignInOrder(g: Group, e: Event)
    requires InOrder(g) && Enabled(g, e) && e.Reassign?
    ensures InOrder(Next(g, e))
  {
    ResumeKeeps(g, e);
    forall tp
      ensures InOrderAt(Next(g, e), tp)
    {
      assert InOrderAt(g, tp);
      ResumeInOrderAt(g, Next(g, e), tp);
    }
  }

  lemma RestartInOrder(g: Group, e: Event)
    requires InOrder(g) && Enabled(g, e) && (e.Restart? || e.RebalanceBlocked?)
    ensures InOrder(Next(g, e))
  {
    ResumeKeeps(g, e);
    forall tp
      ensures InOrderAt(Next(g, e), tp)
    {
      assert InOrderAt(g, tp);
      ResumeInOrderAt(g, Next(g, e), tp);
    }
  }

  /** Over any run of completed and cancelled polls, rebalances and restarts, what was settled in a
      partition is a prefix of its log: every record once, in order, none skipped. */
  lemma {:induction false} SettledIsALogPrefix(g: Group, events: seq<Event>)
    requires InOrder(g) && ValidRun(g, events) && InSyncRun(g, events)
    ensures InOrder(Run(g, events))
    decreases |events|
  {
    if events == [] {
    } else {
      match events[0] {
        case Append(record) => AppendInOrder(g, record);
        case PollOnce(input) => PollInOrder(g, input);
        case Reassign(_) => ReassignInOrder(g, events[0]);
        case _ => RestartInOrder(g, events[0]);
      }
      SettledIsALogPrefix(Next(g, events[0]), events[1..]);
    }
  }
}
