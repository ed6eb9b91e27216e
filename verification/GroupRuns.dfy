/** One poll, then any sequence of polls, rebalances, restarts and produced records. */
module GroupRuns {
  import opened Kafka
  import opened Offsets
  import opened Dlq
  import opened Batch
  import opened Group
  import opened GroupSafety

  // ---- Where a poll leaves one partition ----

  lemma FetchOf(g: Group, fetches: seq<FetchPartition>, r: Record) returns (i: nat)
    requires LogsWellFormed(g) && ValidFetches(g, fetches) && r in Flatten(fetches)
    ensures i < |fetches| && fetches[i].tp == r.TP() && r in fetches[i].records
  {
    FlattenMembers(g, fetches, r);
    i :| 0 <= i < |fetches| && r in fetches[i].records && fetches[i].tp == r.TP();
  }

  lemma LastIsLargest(g: Group, f: FetchPartition, r: Record)
    requires ValidFetch(g, f) && r in f.records
    ensures r.offset <= f.records[|f.records| - 1].offset
  {
    var k :| 0 <= k < |f.records| && f.records[k] == r;
  }

  lemma NothingBeforeFirst(g: Group, f: FetchPartition, o: int)
    requires ValidFetch(g, f) && f.records != [] && o in LogOf(g, f.tp) && LogsWellFormed(g)
    requires o < f.records[0].offset
    ensures o < At(g.position, f.tp)
  {
  }

  lemma TrackedFetch(g: Group, input: PollInput, tp: TopicPartition) returns (i: nat, m: int, r: Record)
    requires LogsWellFormed(g) && ValidInput(g, input) && tp in Committable(Tracked(g, input))
    ensures m == Committable(Tracked(g, input))[tp].offset
    ensures i < |input.fetches| && input.fetches[i].tp == tp && input.fetches[i].records != []
    ensures r in input.fetches[i].records && m == r.offset + 1
  {
    var first;
    first, m := FirstTracked(g, input, tp);
    r :| r in Tracked(g, input) && r.TP() == tp && m == r.offset + 1;
    TrackedIff(g, input, r);
    i := FetchOf(g, input.fetches, r);
  }

  /** The frontier lies above the old position and at most just behind a record of the log. */
  lemma FrontierBounds(g: Group, input: PollInput, tp: TopicPartition)
    requires LogsWellFormed(g) && ValidInput(g, input) && tp in Committable(Tracked(g, input))
    ensures At(g.position, tp) < Committable(Tracked(g, input))[tp].offset
    ensures Bounded(g, tp, Committable(Tracked(g, input))[tp].offset)
  {
    var i, m, r := TrackedFetch(g, input, tp);
    assert ValidFetch(g, input.fetches[i]);
  }

  lemma OverwriteAt(offsets: map<TopicPartition, int>, points: map<TopicPartition, EpochOffset>,
                    partitions: set<TopicPartition>, tp: TopicPartition)
    ensures At(Overwrite(offsets, points, partitions), tp)
         == if tp in points && tp in partitions then points[tp].offset else At(offsets, tp)
  {
  }

  ghost function Rewound(g: Group, input: PollInput): map<TopicPartition, int> {
    var reset := ResetOffsets(input.fetches, Committable(Tracked(g, input)));
    Overwrite(Advance(g.position, input.fetches), reset, reset.Keys)
  }

  /** Rewinding puts a partition with tracked records at its frontier, ... */
  lemma RewindToFrontier(g: Group, input: PollInput, tp: TopicPartition)
    requires LogsWellFormed(g) && ValidInput(g, input) && tp in Committable(Tracked(g, input))
    ensures At(Rewound(g, input), tp) == Committable(Tracked(g, input))[tp].offset
  {
    var committable := Committable(Tracked(g, input));
    var reset := ResetOffsets(input.fetches, committable);
    var i, m, r := TrackedFetch(g, input, tp);
    Touched(g.position, input.fetches, committable, i);
    OverwriteAt(Advance(g.position, input.fetches), reset, reset.Keys, tp);
  }

  /** Nothing of the log lies between the position and the first fetched record. */
  lemma FetchStarts(g: Group, f: FetchPartition)
    requires LogsWellFormed(g) && ValidFetch(g, f) && f.records != []
    ensures At(g.position, f.tp) <= f.records[0].offset && Bounded(g, f.tp, f.records[0].offset)
    ensures forall o | o in LogOf(g, f.tp) && o < f.records[0].offset :: o < At(g.position, f.tp)
  {
    forall o | o in LogOf(g, f.tp) && o < f.records[0].offset
      ensures o < At(g.position, f.tp)
    {
      NothingBeforeFirst(g, f, o);
    }
    assert f.records[0].offset in LogOf(g, f.tp);
  }

  predicate StartsAt(f: FetchPartition, tp: TopicPartition, start: int) {
    f.tp == tp && f.records != [] && start == f.records[0].offset
  }

  lemma RewoundStart(g: Group, input: PollInput, tp: TopicPartition)
    requires ValidInput(g, input) && tp !in Committable(Tracked(g, input))
    ensures var start := At(Rewound(g, input), tp);
            start == At(g.position, tp)
            || exists i :: 0 <= i < |input.fetches| && StartsAt(input.fetches[i], tp, start)
  {
    var committable := Committable(Tracked(g, input));
    var reset := ResetOffsets(input.fetches, committable);
    OverwriteAt(Advance(g.position, input.fetches), reset, reset.Keys, tp);
    if Touches(input.fetches, tp) {
      var i :| 0 <= i < |input.fetches| && input.fetches[i].tp == tp && input.fetches[i].records != [];
      Touched(g.position, input.fetches, committable, i);
      assert StartsAt(input.fetches[i], tp, At(Rewound(g, input), tp));
    } else {
      Untouched(g.position, input.fetches, committable, tp);
    }
  }

  /** ... and any other back to its first fetched record, with no record left out before it. */
  lemma RewindToFirst(g: Group, input: PollInput, tp: TopicPartition)
    requires LogsWellFormed(g) && ValidInput(g, input) && tp !in Committable(Tracked(g, input))
    ensures At(g.position, tp) <= At(Rewound(g, input), tp)
    ensures forall o | o in LogOf(g, tp) && o < At(Rewound(g, input), tp) :: o < At(g.position, tp)
    ensures At(Rewound(g, input), tp) == At(g.position, tp) || Bounded(g, tp, At(Rewound(g, input), tp))
  {
    var start := At(Rewound(g, input), tp);
    RewoundStart(g, input, tp);
    if start != At(g.position, tp) {
      var i :| 0 <= i < |input.fetches| && StartsAt(input.fetches[i], tp, start);
      FetchStarts(g, input.fetches[i]);
    }
  }

  /** Everything in the log between the position and `end` is in the batch. */
  ghost predicate Lands(g: Group, fetches: seq<FetchPartition>, tp: TopicPartition, end: int) {
    && Bounded(g, tp, end)
    && forall o | o in LogOf(g, tp) && At(g.position, tp) <= o < end :: LogOf(g, tp)[o] in Flatten(fetches)
  }

  lemma FetchLands(g: Group, fetches: seq<FetchPartition>, i: nat)
    requires LogsWellFormed(g) && ValidFetches(g, fetches) && i < |fetches| && fetches[i].records != []
    ensures var f := fetches[i];
            var end := f.records[|f.records| - 1].offset + 1;
            At(g.position, f.tp) < end && Lands(g, fetches, f.tp, end)
  {
    var f := fetches[i];
    assert ValidFetch(g, f);
    var last := f.records[|f.records| - 1];
    assert last.offset in LogOf(g, f.tp);
    forall o | o in LogOf(g, f.tp) && At(g.position, f.tp) <= o < last.offset + 1
      ensures LogOf(g, f.tp)[o] in Flatten(fetches)
    {
      InFetches(fetches, LogOf(g, f.tp)[o]);
    }
  }

  /** Behind the last fetched record of the partition, when there is one. */
  lemma AdvanceEnd(g: Group, fetches: seq<FetchPartition>, tp: TopicPartition)
    requires LogsWellFormed(g) && ValidFetches(g, fetches)
    ensures var end := At(Advance(g.position, fetches), tp);
            if !Touches(fetches, tp) then end == At(g.position, tp)
            else exists i :: 0 <= i < |fetches| && EndsAt(fetches[i], tp, end)
  {
    if Touches(fetches, tp) {
      var i :| 0 <= i < |fetches| && fetches[i].tp == tp && fetches[i].records != [];
      Touched(g.position, fetches, map[], i);
      assert EndsAt(fetches[i], tp, At(Advance(g.position, fetches), tp));
    } else {
      Untouched(g.position, fetches, map[], tp);
    }
  }

  predicate EndsAt(f: FetchPartition, tp: TopicPartition, end: int) {
    f.tp == tp && f.records != [] && end == f.records[|f.records| - 1].offset + 1
  }

  /** Fetching alone moves a partition forward, at most just behind a record of the log. */
  lemma AdvanceLands(g: Group, input: PollInput, tp: TopicPartition)
    requires LogsWellFormed(g) && ValidInput(g, input)
    ensures var end := At(Advance(g.position, input.fetches), tp);
            end == At(g.position, tp) || (At(g.position, tp) < end && Lands(g, input.fetches, tp, end))
  {
    AdvanceEnd(g, input.fetches, tp);
    EndLands(g, input.fetches, tp, At(Advance(g.position, input.fetches), tp));
  }

  lemma EndLands(g: Group, fetches: seq<FetchPartition>, tp: TopicPartition, end: int)
    requires LogsWellFormed(g) && ValidFetches(g, fetches)
    ensures (exists i :: 0 <= i < |fetches| && EndsAt(fetches[i], tp, end)) ==>
              At(g.position, tp) < end && Lands(g, fetches, tp, end)
  {
    if i :| 0 <= i < |fetches| && EndsAt(fetches[i], tp, end) {
      FetchLands(g, fetches, i);
    }
  }

  lemma FrontierWithinFetch(g: Group, input: PollInput, tp: TopicPartition) returns (i: nat)
    requires LogsWellFormed(g) && ValidInput(g, input) && tp in Committable(Tracked(g, input))
    ensures i < |input.fetches| && input.fetches[i].tp == tp && input.fetches[i].records != []
    ensures var f := input.fetches[i];
            Committable(Tracked(g, input))[tp].offset <= f.records[|f.records| - 1].offset + 1
  {
    var m, r;
    i, m, r := TrackedFetch(g, input, tp);
    assert ValidFetch(g, input.fetches[i]);
    LastIsLargest(g, input.fetches[i], r);
  }

  lemma FrontierWithinAdvance(g: Group, input: PollInput, tp: TopicPartition)
    requires LogsWellFormed(g) && ValidInput(g, input) && tp in Committable(Tracked(g, input))
    ensures Committable(Tracked(g, input))[tp].offset <= At(Advance(g.position, input.fetches), tp)
  {
    var i := FrontierWithinFetch(g, input, tp);
    Touched(g.position, input.fetches, map[], i);
  }

  // ---- One poll ----

  /** What a poll that reaches the commit leaves behind. */
  lemma PollCommits(g: Group, input: PollInput)
    requires ValidInput(g, input) && Commits(g, input)
    ensures var after, batch := Poll(g, input), AfterBatch(g, input);
            && after.logs == g.logs && after.consumed == batch.consumed && after.dlq == batch.dlq
            && after.settled == batch.settled
            && after.committed == Overwrite(g.committed, Committable(Tracked(g, input)), input.commit.applied)
            && (after.running ==> !input.commit.failed)
            && (g.running && !input.commit.failed ==> after.running)
            && (!input.commit.failed ==>
                  after.position == if ErrorOf(g, input).ContextCanceled() then Rewound(g, input)
                                    else Advance(g.position, input.fetches))
  {
  }

  lemma PositionInOrder(g: Group, input: PollInput, tp: TopicPartition)
    requires Ordered(g) && g.running && ValidInput(g, input)
    ensures forall position | position == Rewound(g, input) || position == Advance(g.position, input.fetches) ::
              && At(g.position, tp) <= At(position, tp)
              && Bounded(g, tp, At(position, tp))
              && (tp in Committable(Tracked(g, input)) ==>
                    Committable(Tracked(g, input))[tp].offset <= At(position, tp))
  {
    assert OrderedAt(g, tp);
    AdvanceLands(g, input, tp);
    if tp in Committable(Tracked(g, input)) {
      FrontierBounds(g, input, tp);
      FrontierWithinAdvance(g, input, tp);
      RewindToFrontier(g, input, tp);
    } else {
      RewindToFirst(g, input, tp);
    }
  }

  /** A poll that does not reach the commit leaves everything committed as it was. */
  lemma PollStops(g: Group, input: PollInput)
    requires |input.published| == |DeadLetters(g, input)| && !Commits(g, input)
    ensures var after := Poll(g, input);
            && after.logs == g.logs && after.committed == g.committed
            && (after.running ==> after == g)
            && (forall r | Handled(g, r) :: Handled(after, r))
  {
  }

  // ---- The poll, spelled out ----

  lemma FatalIff(errors: seq<FetchError>)
    ensures FatalErrors(errors) <==> exists e :: e in errors && e != DataLoss
  {
  }

  /** Some publish of the drain failed. */
  lemma DrainFailedIff(published: seq<PublishOutcome>)
    ensures AllPublished(published) <==> forall outcome | outcome in published :: outcome == Published
  {
    forall i | 0 <= i < |published|
      ensures published[i] in published
    {
    }
  }

  /** A poll ends the consumer exactly when a fetch error is fatal, when a batch that was handled to its
      end could not publish all its dead letters for reasons other than a context, or when the commit
      fails. In the first two cases nothing is committed. */
  lemma PollStopsIff(g: Group, input: PollInput)
    requires g.running && ValidInput(g, input)
    ensures var complete := |BatchOutcomes(g, input)| == |Flatten(input.fetches)|;
            var undrained := complete && !AllPublished(input.published) && Interrupted !in input.published;
            var fatal := exists e :: e in input.errors && e != DataLoss;
            && (!Poll(g, input).running <==> !input.closed && (fatal || undrained || input.commit.failed))
            && (input.closed || fatal || undrained ==> Poll(g, input).committed == g.committed)
  {
    FatalIff(input.errors);
    FailuresIff(input.published);
    var batch := AfterBatch(g, input);
    assert batch.running == g.running && batch.committed == g.committed;
  }

  /** The committed offset of every partition after a poll that gets to the commit. */
  lemma PollCommittedAt(g: Group, input: PollInput, tp: TopicPartition)
    requires g.running && ValidInput(g, input)
    requires !input.closed && forall e | e in input.errors :: e == DataLoss
    requires AllPublished(input.published) || Interrupted in input.published
             || |BatchOutcomes(g, input)| < |Flatten(input.fetches)|
    ensures At(Poll(g, input).committed, tp)
         == if tp in input.commit.applied && tp in Committable(Tracked(g, input))
            then Committable(Tracked(g, input))[tp].offset
            else At(g.committed, tp)
  {
    FatalIff(input.errors);
    FailuresIff(input.published);
    PollCommits(g, input);
    OverwriteAt(g.committed, Committable(Tracked(g, input)), input.commit.applied, tp);
  }

  lemma RewoundAt(g: Group, input: PollInput, i: nat)
    requires ValidInput(g, input) && i < |input.fetches| && input.fetches[i].records != []
    ensures var f, committable := input.fetches[i], Committable(Tracked(g, input));
            At(Rewound(g, input), f.tp)
            == if f.tp in committable then committable[f.tp].offset else f.records[0].offset
  {
    var f, committable := input.fetches[i], Committable(Tracked(g, input));
    var reset := ResetOffsets(input.fetches, committable);
    Touched(g.position, input.fetches, committable, i);
    OverwriteAt(Advance(g.position, input.fetches), reset, reset.Keys, f.tp);
  }

  /** Where a fetched partition stands after a poll that goes on: cancelled, at its commit point or its
      first record; completed, behind its last record. */
  lemma PollPositionAt(g: Group, input: PollInput, i: nat)
    requires g.running && ValidInput(g, input) && Poll(g, input).running && !input.closed
    requires i < |input.fetches| && input.fetches[i].records != []
    ensures var f, committable := input.fetches[i], Committable(Tracked(g, input));
            var canceled := |BatchOutcomes(g, input)| < |Flatten(input.fetches)| || Interrupted in input.published;
            At(Poll(g, input).position, f.tp)
            == if !canceled then f.records[|f.records| - 1].offset + 1
               else if f.tp in committable then committable[f.tp].offset
               else f.records[0].offset
  {
    PollGoesOn(g, input);
    PollCommits(g, input);
    FailuresIff(input.published);
    RewoundAt(g, input, i);
    Touched(g.position, input.fetches, map[], i);
  }

  /** A poll that ends the consumer does not rewind. */
  lemma PollStoppedAt(g: Group, input: PollInput, i: nat)
    requires g.running && ValidInput(g, input) && !Poll(g, input).running
    requires i < |input.fetches| && input.fetches[i].records != []
    ensures var f := input.fetches[i];
            At(Poll(g, input).position, f.tp) == f.records[|f.records| - 1].offset + 1
  {
    StoppedPosition(g, input);
    Touched(g.position, input.fetches, map[], i);
  }

  lemma StoppedPosition(g: Group, input: PollInput)
    requires g.running && |input.published| == |DeadLetters(g, input)| && !Poll(g, input).running
    ensures Poll(g, input).position == Advance(g.position, input.fetches)
  {
  }

  lemma PollGoesOn(g: Group, input: PollInput)
    requires g.running && ValidInput(g, input) && Poll(g, input).running && !input.closed
    ensures Commits(g, input) && !input.commit.failed
  {
  }

  /** A partition that was not fetched stays where it was. */
  lemma PollLeavesAt(g: Group, input: PollInput, tp: TopicPartition)
    requires g.running && ValidInput(g, input) && Poll(g, input).running
    requires forall f | f in input.fetches && f.tp == tp :: f.records == []
    ensures At(Poll(g, input).position, tp) == At(g.position, tp)
  {
    if !input.closed {
      var committable := Committable(Tracked(g, input));
      var reset := ResetOffsets(input.fetches, committable);
      PollGoesOn(g, input);
      PollCommits(g, input);
      Untouched(g.position, input.fetches, committable, tp);
      OverwriteAt(Advance(g.position, input.fetches), reset, reset.Keys, tp);
    }
  }

  /** The points a cancelled poll resets to carry the epochs of the commit points and first records. */
  lemma {:induction false} ResetEpochs(fetches: seq<FetchPartition>, committable: map<TopicPartition, EpochOffset>,
                                       i: nat)
    requires i < |fetches| && fetches[i].records != []
    requires forall j, k | 0 <= j < k < |fetches| :: fetches[j].tp != fetches[k].tp
    ensures var f, reset := fetches[i], ResetOffsets(fetches, committable);
            && f.tp in reset
            && (f.tp in committable ==> reset[f.tp] == committable[f.tp])
            && (f.tp !in committable ==>
                  reset[f.tp].epoch == f.records[0].leaderEpoch && reset[f.tp].offset == f.records[0].offset)
  {
    var n := |fetches| - 1;
    if i < n {
      ResetEpochs(fetches[..n], committable, i);
    }
  }

  lemma PollKeepsLogs(g: Group, input: PollInput)
    requires |input.published| == |DeadLetters(g, input)|
    ensures Poll(g, input).logs == g.logs
  {
  }

  lemma CommitKeepsOrderAt(g: Group, input: PollInput, tp: TopicPartition)
    requires Ordered(g) && g.running && ValidInput(g, input) && Commits(g, input)
    ensures At(g.committed, tp) <= At(Poll(g, input).committed, tp)
    ensures Bounded(g, tp, At(Poll(g, input).committed, tp))
    ensures At(Poll(g, input).committed, tp) == At(g.committed, tp)
            || (tp in Committable(Tracked(g, input))
                && At(Poll(g, input).committed, tp) == Committable(Tracked(g, input))[tp].offset)
  {
    assert OrderedAt(g, tp);
    PollCommits(g, input);
    OverwriteAt(g.committed, Committable(Tracked(g, input)), input.commit.applied, tp);
    if tp in Committable(Tracked(g, input)) {
      FrontierBounds(g, input, tp);
    }
  }

  lemma PositionKeepsOrderAt(g: Group, input: PollInput, tp: TopicPartition)
    requires Ordered(g) && g.running && ValidInput(g, input) && Commits(g, input) && Poll(g, input).running
    ensures At(Poll(g, input).committed, tp) <= At(Poll(g, input).position, tp)
    ensures Bounded(g, tp, At(Poll(g, input).position, tp))
  {
    assert OrderedAt(g, tp);
    PollCommits(g, input);
    CommitKeepsOrderAt(g, input, tp);
    PositionInOrder(g, input, tp);
  }

  lemma SameBounds(g: Group, after: Group, tp: TopicPartition)
    requires after.logs == g.logs
    ensures forall x :: Bounded(after, tp, x) <==> Bounded(g, tp, x)
  {
    assert LogOf(after, tp) == LogOf(g, tp);
  }

  lemma PollKeepsOrderAt(g: Group, input: PollInput, tp: TopicPartition)
    requires Ordered(g) && g.running && ValidInput(g, input)
    ensures OrderedAt(Poll(g, input), tp)
    ensures At(g.committed, tp) <= At(Poll(g, input).committed, tp)
  {
    var after := Poll(g, input);
    assert OrderedAt(g, tp);
    PollKeepsLogs(g, input);
    SameBounds(g, after, tp);
    if Commits(g, input) {
      CommitKeepsOrderAt(g, input, tp);
      if after.running {
        PositionKeepsOrderAt(g, input, tp);
      }
    } else {
      PollStops(g, input);
    }
  }

  /** Whatever happens to the dead letters, the order of offsets is kept and no committed offset
      ever moves back. */
  lemma PollKeepsOrder(g: Group, input: PollInput)
    requires Ordered(g) && g.running && ValidInput(g, input)
    ensures Ordered(Poll(g, input))
    ensures forall tp :: At(g.committed, tp) <= At(Poll(g, input).committed, tp)
  {
    PollKeepsLogs(g, input);
    forall tp
      ensures OrderedAt(Poll(g, input), tp)
      ensures At(g.committed, tp) <= At(Poll(g, input).committed, tp)
    {
      PollKeepsOrderAt(g, input, tp);
    }
  }

  lemma SameSafety(a: Group, b: Group, tp: TopicPartition)
    requires a.logs == b.logs && a.consumed == b.consumed && a.dlq == b.dlq
    ensures forall x :: SafeBelow(a, tp, x) <==> SafeBelow(b, tp, x)
  {
    assert LogOf(a, tp) == LogOf(b, tp);
    assert forall r :: Handled(a, r) <==> Handled(b, r);
  }

  lemma SafetyGrows(g: Group, input: PollInput, tp: TopicPartition, x: int)
    requires |input.published| == |DeadLetters(g, input)| && SafeBelow(g, tp, x)
    ensures SafeBelow(AfterBatch(g, input), tp, x)
  {
    assert LogOf(AfterBatch(g, input), tp) == LogOf(g, tp);
  }

  lemma CommitSafeIff(g: Group, input: PollInput, tp: TopicPartition)
    requires Ordered(g) && NoLoss(g) && g.running && ValidInput(g, input) && Commits(g, input)
    ensures var after := Poll(g, input);
            SafeBelow(after, tp, At(after.committed, tp))
            <==> (tp in Committable(Tracked(g, input)) && tp in input.commit.applied ==> HeadCovered(g, input, tp))
  {
    PollCommits(g, input);
    SameSafety(Poll(g, input), AfterBatch(g, input), tp);
    OverwriteAt(g.committed, Committable(Tracked(g, input)), input.commit.applied, tp);
    if tp in Committable(Tracked(g, input)) && tp in input.commit.applied {
      FrontierSafeIff(g, input, tp);
    } else {
      SafetyGrows(g, input, tp, At(g.committed, tp));
    }
  }

  lemma FetchedIsHandled(g: Group, input: PollInput, r: Record)
    requires ValidInput(g, input) && ErrorOf(g, input).IsNil() && r in Flatten(input.fetches)
    ensures Handled(AfterBatch(g, input), r)
  {
    FailuresIff(input.published);
    CompletedBatchTracks(g, input, r);
    TrackedIsHandled(g, input, r);
  }

  /** What is safe below x and lands up to `end` is safe below `end`. */
  lemma SafetyExtends(g: Group, after: Group, fetches: seq<FetchPartition>, tp: TopicPartition, end: int)
    requires SafeBelow(after, tp, At(g.position, tp)) && after.logs == g.logs
    requires end == At(g.position, tp) || Lands(g, fetches, tp, end)
    requires forall r | r in Flatten(fetches) :: Handled(after, r)
    ensures SafeBelow(after, tp, end)
  {
    assert LogOf(after, tp) == LogOf(g, tp);
  }

  lemma CompletedBatchIsHandled(g: Group, input: PollInput, tp: TopicPartition)
    requires Ordered(g) && NoLoss(g) && g.running && ValidInput(g, input) && ErrorOf(g, input).IsNil()
    ensures SafeBelow(AfterBatch(g, input), tp, At(Advance(g.position, input.fetches), tp))
    ensures HeadCovered(g, input, tp)
  {
    AdvanceLands(g, input, tp);
    SafetyGrows(g, input, tp, At(g.position, tp));
    forall r | r in Flatten(input.fetches)
      ensures Handled(AfterBatch(g, input), r)
    {
      FetchedIsHandled(g, input, r);
    }
    SafetyExtends(g, AfterBatch(g, input), input.fetches, tp, At(Advance(g.position, input.fetches), tp));
    FailuresIff(input.published);
    DrainedHeadIsCovered(g, input, tp);
  }

  lemma CompletedBatchTracks(g: Group, input: PollInput, r: Record)
    requires ValidInput(g, input) && AllPublished(input.published) && r in Flatten(input.fetches)
    requires |BatchOutcomes(g, input)| == |Flatten(input.fetches)|
    ensures r in Tracked(g, input)
  {
    TrackedIff(g, input, r);
    var i :| 0 <= i < |Flatten(input.fetches)| && Flatten(input.fetches)[i] == r;
  }

  /** A successful drain covers every head. */
  lemma DrainedHeadIsCovered(g: Group, input: PollInput, tp: TopicPartition)
    requires ValidInput(g, input) && AllPublished(input.published)
    ensures HeadCovered(g, input, tp)
  {
    var records, outcomes := Flatten(input.fetches), BatchOutcomes(g, input);
    forall i: nat | AheadOfConsumed(records, outcomes, i) && records[i].TP() == tp
      ensures Handled(AfterBatch(g, input), records[i])
    {
      TrackedIff(g, input, records[i]);
      TrackedIsHandled(g, input, records[i]);
    }
  }

  lemma PositionSafeIff(g: Group, input: PollInput, tp: TopicPartition)
    requires Ordered(g) && NoLoss(g) && g.running && ValidInput(g, input)
    requires Commits(g, input) && !input.commit.failed
    ensures var after := Poll(g, input);
            SafeBelow(after, tp, At(after.position, tp))
            <==> (tp in Committable(Tracked(g, input)) ==> HeadCovered(g, input, tp))
  {
    PollCommits(g, input);
    SameSafety(Poll(g, input), AfterBatch(g, input), tp);
    if !ErrorOf(g, input).ContextCanceled() {
      CompletedBatchIsHandled(g, input, tp);
    } else if tp in Committable(Tracked(g, input)) {
      RewindToFrontier(g, input, tp);
      FrontierSafeIff(g, input, tp);
    } else {
      RewindToFirst(g, input, tp);
      assert SafeBelow(g, tp, At(Rewound(g, input), tp));
      SafetyGrows(g, input, tp, At(Rewound(g, input), tp));
    }
  }

  /** The exact guard of at-least-once delivery: a poll that starts without loss ends without loss if
      and only if, whenever it commits, the dead letters ahead of the first consumed record of every
      partition that moves have been published. */
  lemma NoLossIff(g: Group, input: PollInput)
    requires Ordered(g) && NoLoss(g) && g.running && ValidInput(g, input)
    ensures NoLoss(Poll(g, input)) <==> HeadsCovered(g, input)
  {
    var after := Poll(g, input);
    if Commits(g, input) {
      forall tp
        ensures SafeBelow(after, tp, At(after.committed, tp))
                && (after.running ==> SafeBelow(after, tp, At(after.position, tp)))
                <==> (tp in Committable(Tracked(g, input)) && Moves(input, tp) ==> HeadCovered(g, input, tp))
      {
        CommitSafeIff(g, input, tp);
        if !input.commit.failed {
          PositionSafeIff(g, input, tp);
        }
      }
    } else {
      PollStops(g, input);
      forall tp
        ensures SafeBelow(after, tp, At(after.committed, tp))
        ensures after.running ==> SafeBelow(after, tp, At(after.position, tp))
      {
        assert LogOf(after, tp) == LogOf(g, tp) && SafeBelow(g, tp, At(g.committed, tp));
      }
    }
  }

  /** In particular a poll whose drain succeeds never loses a record. */
  lemma DrainedPollIsSafe(g: Group, input: PollInput)
    requires Ordered(g) && NoLoss(g) && g.running && ValidInput(g, input) && AllPublished(input.published)
    ensures NoLoss(Poll(g, input))
  {
    forall tp
      ensures HeadCovered(g, input, tp)
    {
      DrainedHeadIsCovered(g, input, tp);
    }
    NoLossIff(g, input);
  }

  // ---- Whole runs ----

  datatype Event =
    | Append(record: Record)                       // a producer adds a record
    | PollOnce(input: PollInput)
    | RebalanceBlocked                             // cancels the next batch
    | Reassign(partitions: set<TopicPartition>)    // partitions come back from the group
    | Restart                                      // of a stopped or crashed consumer

  ghost predicate Enabled(g: Group, e: Event) {
    match e
    case Append(record) => forall o | o in LogOf(g, record.TP()) :: o < record.offset
    case PollOnce(input) => g.running && ValidInput(g, input)
    case RebalanceBlocked => g.running
    case Reassign(_) => g.running
    case Restart => true
  }

  ghost function Next(g: Group, e: Event): Group
    requires Enabled(g, e)
  {
    match e
    case Append(record) => g.(logs := g.logs[record.TP() := LogOf(g, record.TP())[record.offset := record]])
    case PollOnce(input) => Poll(g, input)
    case RebalanceBlocked => g.(pendingCancel := true)
    case Reassign(partitions) => g.(position := g.position + map tp | tp in partitions :: At(g.committed, tp))
    case Restart => g.(position := g.committed, pendingCancel := false, running := true)
  }

  ghost predicate ValidRun(g: Group, events: seq<Event>)
    decreases |events|
  {
    events != [] ==> Enabled(g, events[0]) && ValidRun(Next(g, events[0]), events[1..])
  }

  ghost function Run(g: Group, events: seq<Event>): Group
    requires ValidRun(g, events)
    decreases |events|
  {
    if events == [] then g else Run(Next(g, events[0]), events[1..])
  }

  /** Every poll of the run meets the guard of NoLossIff. */
  ghost predicate Guarded(g: Group, events: seq<Event>)
    requires ValidRun(g, events)
    decreases |events|
  {
    events != [] ==>
      && (events[0].PollOnce? ==> HeadsCovered(g, events[0].input))
      && Guarded(Next(g, events[0]), events[1..])
  }

  lemma AppendKeeps(g: Group, record: Record)
    requires Ordered(g) && Enabled(g, Append(record))
    ensures Ordered(Next(g, Append(record)))
    ensures NoLoss(g) ==> NoLoss(Next(g, Append(record)))
  {
    var after := Next(g, Append(record));
    forall tp
      ensures OrderedAt(after, tp)
      ensures NoLoss(g) ==> SafeBelow(after, tp, At(g.committed, tp))
      ensures NoLoss(g) && g.running ==> SafeBelow(after, tp, At(g.position, tp))
    {
      assert OrderedAt(g, tp);
      AppendKeepsBound(g, record, tp, At(g.committed, tp));
      if g.running {
        AppendKeepsBound(g, record, tp, At(g.position, tp));
      }
    }
  }

  /** A produced record lands at or above every committed offset and position. */
  lemma AppendKeepsBound(g: Group, record: Record, tp: TopicPartition, x: int)
    requires Enabled(g, Append(record)) && Bounded(g, tp, x)
    ensures Bounded(Next(g, Append(record)), tp, x)
    ensures SafeBelow(g, tp, x) ==> SafeBelow(Next(g, Append(record)), tp, x)
  {
    var after := Next(g, Append(record));
    if tp == record.TP() {
      assert LogOf(after, tp) == LogOf(g, tp)[record.offset := record];
      if x > 0 {
        var o :| o in LogOf(g, tp) && x <= o + 1;
        assert o in LogOf(after, tp);
      }
    } else {
      assert LogOf(after, tp) == LogOf(g, tp);
    }
  }

  lemma ResumeKeeps(g: Group, e: Event)
    requires Ordered(g) && Enabled(g, e) && (e.Reassign? || e.Restart? || e.RebalanceBlocked?)
    ensures Ordered(Next(g, e)) && Next(g, e).committed == g.committed
    ensures NoLoss(g) ==> NoLoss(Next(g, e))
  {
    var after := Next(g, e);
    forall tp
      ensures OrderedAt(after, tp)
      ensures NoLoss(g) ==> SafeBelow(after, tp, At(after.committed, tp))
      ensures NoLoss(g) && after.running ==> SafeBelow(after, tp, At(after.position, tp))
    {
      assert OrderedAt(g, tp) && LogOf(after, tp) == LogOf(g, tp);
      assert At(after.position, tp) == At(g.position, tp) || At(after.position, tp) == At(g.committed, tp);
    }
  }

  /** Over any run the offsets stay in order and no committed offset moves back. */
  lemma {:induction false} CommitsNeverMoveBack(g: Group, events: seq<Event>)
    requires Ordered(g) && ValidRun(g, events)
    ensures Ordered(Run(g, events))
    ensures forall tp :: At(g.committed, tp) <= At(Run(g, events).committed, tp)
    decreases |events|
  {
    if events == [] {
    } else {
      match events[0] {
        case Append(record) => AppendKeeps(g, record);
        case PollOnce(input) => PollKeepsOrder(g, input);
        case _ => ResumeKeeps(g, events[0]);
      }
      CommitsNeverMoveBack(Next(g, events[0]), events[1..]);
    }
  }

  /** No loss over whole runs: every record below a committed offset, and below the position of a
      running consumer, has been consumed or dead-lettered. */
  lemma {:induction false} NoLossOverRuns(g: Group, events: seq<Event>)
    requires Ordered(g) && NoLoss(g) && ValidRun(g, events) && Guarded(g, events)
    ensures NoLoss(Run(g, events))
    ensures Ordered(Run(g, events))
    decreases |events|
  {
    if events == [] {
    } else {
      match events[0] {
        case Append(record) => AppendKeeps(g, record);
        case PollOnce(input) => PollKeepsOrder(g, input); NoLossIff(g, input);
        case _ => ResumeKeeps(g, events[0]);
      }
      NoLossOverRuns(Next(g, events[0]), events[1..]);
    }
  }

  lemma EmptyBatch(g: Group, input: PollInput)
    requires g.pendingCancel && Flatten(input.fetches) != []
    ensures BatchOutcomes(g, input) == [] && DeadLetters(g, input) == []
    ensures ErrorOf(g, input).cancelled
    ensures input.published == [] ==> Tracked(g, input) == []
  {
  }

  lemma NothingCommittable()
    ensures Committable([]) == map[]
  {
    assert Partitions([]) == {};
  }

  /** A cancel that was pending when the batch started settles nothing and commits nothing. */
  lemma PendingCancelSettlesNothing(g: Group, input: PollInput)
    requires g.pendingCancel && g.running && ValidInput(g, input)
    requires Flatten(input.fetches) != [] && !input.closed && !FatalErrors(input.errors)
    ensures var after := Poll(g, input);
            && after.settled == g.settled && after.consumed == g.consumed && after.dlq == g.dlq
            && after.committed == g.committed && !after.pendingCancel
  {
    EmptyBatch(g, input);
    NothingCommittable();
    assert Overwrite(g.committed, map[], input.commit.applied) == g.committed;
    var batch := AfterBatch(g, input);
    assert batch.settled == g.settled && batch.consumed == g.consumed && batch.dlq == g.dlq;
  }

  /** A rebalance that was blocked between two polls makes the next batch settle and commit nothing. */
  lemma BlockedThenPolled(g: Group, input: PollInput)
    requires g.running && ValidInput(Next(g, RebalanceBlocked), input)
    requires Flatten(input.fetches) != [] && !input.closed && !FatalErrors(input.errors)
    ensures var after := Poll(Next(g, RebalanceBlocked), input);
            && after.settled == g.settled && after.consumed == g.consumed && after.dlq == g.dlq
            && after.committed == g.committed && !after.pendingCancel
  {
    PendingCancelSettlesNothing(Next(g, RebalanceBlocked), input);
  }

  /** A partition that comes back, and every partition of a consumer that starts again, is read from its
      committed offset; a cancel does not outlive the process. */
  lemma ResumesAtCommitted(g: Group, partitions: set<TopicPartition>, tp: TopicPartition)
    requires g.running
    ensures At(Next(g, Reassign(partitions)).position, tp)
         == if tp in partitions then At(g.committed, tp) else At(g.position, tp)
    ensures At(Next(g, Restart).position, tp) == At(g.committed, tp)
    ensures Next(g, Restart).running && !Next(g, Restart).pendingCancel
  {
  }

  // ---- Why the guard is needed ----

  function SampleRecord(offset: nat): Record {
    Record("commands", 0, 0, offset, Message("key", Garbage, []))
  }

  const SAMPLE := TopicPartition("commands", 0)

  function SampleFetch(): FetchPartition {
    FetchPartition(SAMPLE, [SampleRecord(0), SampleRecord(1), SampleRecord(2)])
  }

  function SampleGroup(): Group {
    Group(map[SAMPLE := map[0 := SampleRecord(0), 1 := SampleRecord(1), 2 := SampleRecord(2)]],
          map[], map[], [], [], [], false, true)
  }

  function SampleInput(): PollInput {
    PollInput(false, [SampleFetch()], [], [Permanent, Succeeded], [Rejected], CommitAnswer({SAMPLE}, false))
  }

  lemma SampleFetches()
    ensures LogsWellFormed(SampleGroup()) && ValidFetches(SampleGroup(), SampleInput().fetches)
  {
    assert ValidFetch(SampleGroup(), SampleFetch());
  }

  lemma SampleIsValid()
    ensures Ordered(SampleGroup()) && NoLoss(SampleGroup()) && ValidFetches(SampleGroup(), SampleInput().fetches)
  {
    SampleFetches();
    var g := SampleGroup();
    forall tp
      ensures OrderedAt(g, tp) && SafeBelow(g, tp, 0)
    {
      assert At(g.committed, tp) == At(g.position, tp) == 0;
    }
  }

  lemma NothingSucceeds(dead: seq<Record>)
    requires |dead| == 1
    ensures Successes(dead, [Rejected]) == [] && !AllPublished([Rejected])
  {
    assert Successes(dead[..0], []) == [];
    assert [Rejected][0] != Published;
  }

  lemma SampleTracks()
    ensures ValidInput(SampleGroup(), SampleInput())
    ensures Tracked(SampleGroup(), SampleInput()) == [SampleRecord(1)]
  {
    SampleIsValid();
    SampleBatch(SampleGroup(), SampleInput(), SampleFetch());
    NothingSucceeds(DeadLetters(SampleGroup(), SampleInput()));
  }

  lemma SampleHandles()
    ensures ValidInput(SampleGroup(), SampleInput())
    ensures AfterBatch(SampleGroup(), SampleInput()).consumed == [SampleRecord(1)]
    ensures AfterBatch(SampleGroup(), SampleInput()).dlq == []
  {
    SampleTracks();
    SampleBatch(SampleGroup(), SampleInput(), SampleFetch());
    NothingSucceeds(DeadLetters(SampleGroup(), SampleInput()));
  }

  lemma SampleFlat()
    ensures Flatten(SampleInput().fetches) == [SampleRecord(0), SampleRecord(1), SampleRecord(2)]
  {
    assert SampleInput().fetches[..0] == [];
  }

  lemma SampleHeadIsAhead()
    ensures AheadOfConsumed(Flatten(SampleInput().fetches), BatchOutcomes(SampleGroup(), SampleInput()), 0)
  {
    SampleBatch(SampleGroup(), SampleInput(), SampleFetch());
    var records: seq<Record> := SampleFetch().records;
    var outcomes: seq<Outcome> := [DeadLettered, Consumed];
    assert outcomes[1] == Consumed && records[1].TP() == records[0].TP();
    assert AheadOfConsumed(records, outcomes, 0);
  }

  lemma UncoveredHead(g: Group, input: PollInput, i: nat)
    requires ValidInput(g, input) && Commits(g, input)
    requires AheadOfConsumed(Flatten(input.fetches), BatchOutcomes(g, input), i)
    requires var tp := Flatten(input.fetches)[i].TP();
             tp in Partitions(Tracked(g, input)) && Moves(input, tp)
    requires !Handled(AfterBatch(g, input), Flatten(input.fetches)[i])
    ensures !HeadsCovered(g, input)
  {
    assert !HeadCovered(g, input, Flatten(input.fetches)[i].TP());
  }

  lemma SampleCommits()
    ensures Commits(SampleGroup(), SampleInput())
  {
    SampleBatch(SampleGroup(), SampleInput(), SampleFetch());
    assert ErrorOf(SampleGroup(), SampleInput()).cancelled;
  }

  lemma SampleIsTracked()
    ensures SAMPLE in Partitions(Tracked(SampleGroup(), SampleInput()))
  {
    SampleTracks();
    assert SampleRecord(1) in Tracked(SampleGroup(), SampleInput()) && SampleRecord(1).TP() == SAMPLE;
  }

  lemma NotHandled(g: Group, r: Record, other: Record)
    requires g.consumed == [other] && g.dlq == [] && r != other
    ensures !Handled(g, r)
  {
  }

  lemma SampleHeadIsLost()
    ensures |Flatten(SampleInput().fetches)| == 3 && Flatten(SampleInput().fetches)[0].TP() == SAMPLE
    ensures |SampleInput().published| == |DeadLetters(SampleGroup(), SampleInput())|
    ensures !Handled(AfterBatch(SampleGroup(), SampleInput()), Flatten(SampleInput().fetches)[0])
  {
    SampleHandles();
    SampleFlat();
    assert SampleRecord(0).offset != SampleRecord(1).offset;
    NotHandled(AfterBatch(SampleGroup(), SampleInput()), SampleRecord(0), SampleRecord(1));
  }

  lemma SampleIsUncovered()
    ensures ValidInput(SampleGroup(), SampleInput()) && !HeadsCovered(SampleGroup(), SampleInput())
  {
    SampleHandles();
    SampleHeadIsAhead();
    SampleCommits();
    SampleIsTracked();
    SampleHeadIsLost();
    assert Moves(SampleInput(), SAMPLE);
    UncoveredHead(SampleGroup(), SampleInput(), 0);
  }

  /** The first record fails permanently and its publish is rejected, the second succeeds, then the
      batch is cancelled: the commit skips the first record for good. */
  lemma FailedDrainCanLoseARecord() returns (g: Group, input: PollInput)
    ensures Ordered(g) && NoLoss(g) && g.running && ValidInput(g, input)
    ensures !NoLoss(Poll(g, input))
  {
    g, input := SampleGroup(), SampleInput();
    SampleIsValid();
    SampleIsUncovered();
    NoLossIff(g, input);
  }

  lemma SampleBatch(g: Group, input: PollInput, fetch: FetchPartition)
    requires !g.pendingCancel && input.fetches == [fetch] && |fetch.records| == 3
    requires input.results == [Permanent, Succeeded]
    ensures Flatten(input.fetches) == fetch.records
    ensures BatchOutcomes(g, input) == [DeadLettered, Consumed]
    ensures DeadLetters(g, input) == [fetch.records[0]]
    ensures WithOutcome(fetch.records, [DeadLettered, Consumed], Consumed) == [fetch.records[1]]
  {
    assert input.fetches[..0] == [];
    var script: seq<HandlerResult> := [Permanent, Succeeded];
    assert script[1..] == [Succeeded] && script[1..][1..] == [];
    assert Retry(script[1..]) == Some(Consumed) && RetryCalls(script[1..]) == 1;
    assert Outcomes(1, []) == [];
    assert Outcomes(2, script[1..]) == [Consumed] + Outcomes(1, script[1..][1..]);
    assert Outcomes(3, script) == [DeadLettered] + Outcomes(2, script[1..]);
    var outcomes: seq<Outcome> := [DeadLettered, Consumed];
    assert outcomes[..1] == [DeadLettered] && outcomes[..1][..0] == [];
    assert WithOutcome(fetch.records, outcomes[..1], Consumed) == [];
    assert WithOutcome(fetch.records, outcomes[..1], DeadLettered) == [fetch.records[0]];
  }
}
