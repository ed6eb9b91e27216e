/** No record is ever skipped undecided: whatever happens to the dead letters, every record below a
    committed offset, or below the position of a running consumer, had a call that settled it. */
module GroupDecisions {
  import opened Kafka
  import opened Offsets
  import opened Group
  import opened GroupSafety
  import opened GroupRuns

  ghost predicate DecidedBelow(g: Group, tp: TopicPartition, x: int) {
    forall o | o in LogOf(g, tp) && o < x :: LogOf(g, tp)[o] in g.settled
  }

  ghost predicate DecidedAt(g: Group, tp: TopicPartition) {
    && DecidedBelow(g, tp, At(g.committed, tp))
    && (g.running ==> DecidedBelow(g, tp, At(g.position, tp)))
  }

  ghost predicate NothingSkipped(g: Group) {
    forall tp :: DecidedAt(g, tp)
  }

  // ---- One poll ----

  lemma TrackedWasSettled(g: Group, input: PollInput, r: Record) returns (k: nat)
    requires |input.published| == |DeadLetters(g, input)| && r in Tracked(g, input)
    ensures k < |BatchOutcomes(g, input)| && Flatten(input.fetches)[k] == r
  {
    TrackedIff(g, input, r);
    k :| 0 <= k < |BatchOutcomes(g, input)| && Flatten(input.fetches)[k] == r;
  }

  /** Up to a settled record everything fetched of its partition is settled. */
  lemma EarlierIsSettled(g: Group, records: seq<Record>, n: nat, k: nat, o: int)
    requires LogsWellFormed(g) && ValidBatch(g, records) && k < n <= |records|
    requires o in LogOf(g, records[k].TP()) && At(g.position, records[k].TP()) <= o <= records[k].offset
    ensures LogOf(g, records[k].TP())[o] in records[..n]
  {
    if o == records[k].offset {
      assert records[k] in records && records[..n][k] == records[k];
    } else {
      var i := EarlierInBatch(g, records, k, o);
      assert records[..n][i] == records[i];
    }
  }

  lemma StillDecided(g: Group, input: PollInput, tp: TopicPartition, x: int)
    requires |input.published| == |DeadLetters(g, input)| && DecidedBelow(g, tp, x)
    ensures DecidedBelow(AfterBatch(g, input), tp, x)
  {
    assert LogOf(AfterBatch(g, input), tp) == LogOf(g, tp);
  }

  lemma PrefixDecides(g: Group, after: Group, records: seq<Record>, n: nat, k: nat)
    requires LogsWellFormed(g) && ValidBatch(g, records) && k < n <= |records|
    requires after.logs == g.logs && after.settled == g.settled + records[..n]
    requires DecidedBelow(g, records[k].TP(), At(g.position, records[k].TP()))
    ensures DecidedBelow(after, records[k].TP(), records[k].offset + 1)
  {
    var tp := records[k].TP();
    assert LogOf(after, tp) == LogOf(g, tp);
    forall o | o in LogOf(g, tp) && o < records[k].offset + 1
      ensures LogOf(g, tp)[o] in after.settled
    {
      if At(g.position, tp) <= o {
        EarlierIsSettled(g, records, n, k, o);
      }
    }
  }

  /** Everything below the frontier of a partition is decided. */
  lemma FrontierIsDecided(g: Group, input: PollInput, tp: TopicPartition)
    requires LogsWellFormed(g) && ValidInput(g, input) && tp in Committable(Tracked(g, input))
    requires DecidedBelow(g, tp, At(g.position, tp))
    ensures DecidedBelow(AfterBatch(g, input), tp, Committable(Tracked(g, input))[tp].offset)
  {
    var first, m := FirstTracked(g, input, tp);
    var r :| r in Tracked(g, input) && r.TP() == tp && m == r.offset + 1;
    var k := TrackedWasSettled(g, input, r);
    FlattenIsValid(g, input.fetches);
    PrefixDecides(g, AfterBatch(g, input), Flatten(input.fetches), |BatchOutcomes(g, input)|, k);
  }

  /** Everything a completed batch moved the position over is decided. */
  lemma AdvanceIsDecided(g: Group, input: PollInput, tp: TopicPartition)
    requires LogsWellFormed(g) && ValidInput(g, input) && !ErrorOf(g, input).cancelled
    requires DecidedBelow(g, tp, At(g.position, tp))
    ensures DecidedBelow(AfterBatch(g, input), tp, At(Advance(g.position, input.fetches), tp))
  {
    var records, after := Flatten(input.fetches), AfterBatch(g, input);
    assert records[..|BatchOutcomes(g, input)|] == records;
    assert LogOf(after, tp) == LogOf(g, tp) && after.settled == g.settled + records;
    AdvanceLands(g, input, tp);
  }

  /** So is everything below the point a cancelled batch resumes from. */
  lemma RewoundIsDecided(g: Group, input: PollInput, tp: TopicPartition)
    requires LogsWellFormed(g) && ValidInput(g, input) && DecidedBelow(g, tp, At(g.position, tp))
    ensures DecidedBelow(AfterBatch(g, input), tp, At(Rewound(g, input), tp))
  {
    if tp in Committable(Tracked(g, input)) {
      RewindToFrontier(g, input, tp);
      FrontierIsDecided(g, input, tp);
    } else {
      RewindToFirst(g, input, tp);
      assert DecidedBelow(g, tp, At(Rewound(g, input), tp));
      StillDecided(g, input, tp, At(Rewound(g, input), tp));
    }
  }

  lemma CommitIsDecided(g: Group, input: PollInput, tp: TopicPartition)
    requires LogsWellFormed(g) && ValidInput(g, input) && g.running && DecidedAt(g, tp) && Commits(g, input)
    ensures DecidedBelow(AfterBatch(g, input), tp, At(Poll(g, input).committed, tp))
  {
    PollCommits(g, input);
    OverwriteAt(g.committed, Committable(Tracked(g, input)), input.commit.applied, tp);
    if tp in Committable(Tracked(g, input)) {
      FrontierIsDecided(g, input, tp);
    }
    StillDecided(g, input, tp, At(g.committed, tp));
  }

  lemma PositionIsDecided(g: Group, input: PollInput, tp: TopicPartition)
    requires LogsWellFormed(g) && ValidInput(g, input) && g.running && DecidedAt(g, tp) && Commits(g, input)
    requires !input.commit.failed
    ensures DecidedBelow(AfterBatch(g, input), tp, At(Poll(g, input).position, tp))
  {
    PollCommits(g, input);
    if ErrorOf(g, input).ContextCanceled() {
      RewoundIsDecided(g, input, tp);
    } else {
      AdvanceIsDecided(g, input, tp);
    }
  }

  lemma SameDecisions(a: Group, b: Group, tp: TopicPartition)
    requires a.logs == b.logs && a.settled == b.settled
    ensures forall x :: DecidedBelow(a, tp, x) <==> DecidedBelow(b, tp, x)
  {
    assert LogOf(a, tp) == LogOf(b, tp);
  }

  lemma CommittingPollDecides(g: Group, input: PollInput, tp: TopicPartition)
    requires LogsWellFormed(g) && ValidInput(g, input) && g.running && DecidedAt(g, tp) && Commits(g, input)
    ensures DecidedAt(Poll(g, input), tp)
  {
    PollCommits(g, input);
    SameDecisions(Poll(g, input), AfterBatch(g, input), tp);
    CommitIsDecided(g, input, tp);
    if !input.commit.failed {
      PositionIsDecided(g, input, tp);
    }
  }

  /** Whatever it does not commit, a poll forgets no decision. */
  lemma PollKeepsDecisions(g: Group, input: PollInput)
    requires |input.published| == |DeadLetters(g, input)|
    ensures forall r | r in g.settled :: r in Poll(g, input).settled
  {
    var batch := AfterBatch(g, input);
    assert Poll(g, input).settled == g.settled || Poll(g, input).settled == batch.settled;
  }

  lemma StoppedPollDecides(g: Group, input: PollInput, tp: TopicPartition)
    requires |input.published| == |DeadLetters(g, input)| && DecidedAt(g, tp) && !Commits(g, input)
    ensures DecidedAt(Poll(g, input), tp)
  {
    var after := Poll(g, input);
    PollStops(g, input);
    PollKeepsDecisions(g, input);
    assert LogOf(after, tp) == LogOf(g, tp);
  }

  /** Every poll, with any outcome of its dead letters, skips nothing undecided. */
  lemma PollSkipsNothing(g: Group, input: PollInput)
    requires LogsWellFormed(g) && NothingSkipped(g) && g.running && ValidInput(g, input)
    ensures NothingSkipped(Poll(g, input))
  {
    forall tp
      ensures DecidedAt(Poll(g, input), tp)
    {
      assert DecidedAt(g, tp);
      if Commits(g, input) {
        CommittingPollDecides(g, input, tp);
      } else {
        StoppedPollDecides(g, input, tp);
      }
    }
  }

  // ---- Whole runs ----

  lemma AppendKeepsDecided(g: Group, record: Record, tp: TopicPartition, x: int)
    requires Enabled(g, Append(record)) && Bounded(g, tp, x) && DecidedBelow(g, tp, x)
    ensures DecidedBelow(Next(g, Append(record)), tp, x)
  {
    var after := Next(g, Append(record));
    if tp == record.TP() {
      assert LogOf(after, tp) == LogOf(g, tp)[record.offset := record];
      if x > 0 {
        var o :| o in LogOf(g, tp) && x <= o + 1;
      }
    } else {
      assert LogOf(after, tp) == LogOf(g, tp);
    }
  }

  lemma AppendSkipsNothing(g: Group, record: Record)
    requires Ordered(g) && NothingSkipped(g) && Enabled(g, Append(record))
    ensures NothingSkipped(Next(g, Append(record)))
  {
    forall tp
      ensures DecidedAt(Next(g, Append(record)), tp)
    {
      assert OrderedAt(g, tp) && DecidedAt(g, tp);
      AppendKeepsDecided(g, record, tp, At(g.committed, tp));
      if g.running {
        AppendKeepsDecided(g, record, tp, At(g.position, tp));
      }
    }
  }

  lemma ResumeSkipsNothing(g: Group, e: Event)
    requires NothingSkipped(g) && Enabled(g, e) && (e.Reassign? || e.Restart? || e.RebalanceBlocked?)
    ensures NothingSkipped(Next(g, e))
  {
    var after := Next(g, e);
    forall tp
      ensures DecidedAt(after, tp)
    {
      assert DecidedAt(g, tp);
      SameDecisions(after, g, tp);
      assert At(after.position, tp) == At(g.position, tp) || At(after.position, tp) == At(g.committed, tp);
    }
  }

  /** Over any run at all, with failed drains and cancelled batches, nothing is skipped undecided. */
  lemma {:induction false} NothingSkippedOverRuns(g: Group, events: seq<Event>)
    requires Ordered(g) && NothingSkipped(g) && ValidRun(g, events)
    ensures NothingSkipped(Run(g, events)) && Ordered(Run(g, events))
    decreases |events|
  {
    if events == [] {
    } else {
      match events[0] {
        case Append(record) =>
          AppendKeeps(g, record);
          AppendSkipsNothing(g, record);
        case PollOnce(input) =>
          PollKeepsOrder(g, input);
          PollSkipsNothing(g, input);
        case _ =>
          ResumeKeeps(g, events[0]);
          ResumeSkipsNothing(g, events[0]);
      }
      NothingSkippedOverRuns(Next(g, events[0]), events[1..]);
    }
  }
}
