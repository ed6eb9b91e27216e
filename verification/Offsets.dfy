/** kgoconsumer/offsets.go: which offset of every partition may be committed. */
module Offsets {
  import opened Kafka

  datatype EpochOffsetRange = EpochOffsetRange(min: EpochOffset, max: EpochOffset)

  const ZERO := EpochOffset(0, 0)

  // ---- The frontier of a set of stored offsets ----

  ghost predicate IsMin(ends: set<int>, low: int) {
    low in ends && forall end | end in ends :: low <= end
  }

  ghost predicate RunFrom(ends: set<int>, low: int, m: int) {
    forall end | low <= end <= m :: end in ends
  }

  /** m ends the maximal run of consecutive stored offsets that starts at the smallest one. */
  ghost predicate IsFrontier(ends: set<int>, m: int) {
    && m in ends
    && m + 1 !in ends
    && forall low | IsMin(ends, low) :: RunFrom(ends, low, m)
  }

  lemma HasElement(ends: set<int>)
    ensures ends != {} <==> exists end :: end in ends
  {
    assert (forall end :: end !in ends) ==> ends == {};
  }

  lemma {:induction false} MinExists(ends: set<int>) returns (low: int)
    requires ends != {}
    ensures IsMin(ends, low)
  {
    HasElement(ends);
    low :| low in ends;
    var others := ends - {low};
    assert forall end | end in ends :: end == low || end in others;
    if others != {} {
      var rest := MinExists(others);
      low := if low < rest then low else rest;
    }
  }

  ghost function Min(ends: set<int>): (low: int)
    requires ends != {}
    ensures IsMin(ends, low)
  {
    assert exists low :: IsMin(ends, low) by { var low := MinExists(ends); }
    var low: int :| IsMin(ends, low);
    low
  }

  ghost function Above(ends: set<int>, m: int): set<int> {
    set end | end in ends && m < end
  }

  lemma Narrows(ends: set<int>, m: int)
    requires m + 1 in ends
    ensures Above(ends, m + 1) < Above(ends, m)
  {
    assert m + 1 in Above(ends, m) && m + 1 !in Above(ends, m + 1);
  }

  /** Walks up from m while the next offset is stored. */
  ghost function RunEnd(ends: set<int>, m: int): (end: int)
    requires m in ends
    ensures m <= end && end in ends && end + 1 !in ends && RunFrom(ends, m, end)
    decreases Above(ends, m)
  {
    if m + 1 in ends then
      Narrows(ends, m);
      RunEnd(ends, m + 1)
    else m
  }

  ghost function Frontier(ends: set<int>): (m: int)
    requires ends != {}
    ensures IsFrontier(ends, m) && Min(ends) <= m
  {
    RunEnd(ends, Min(ends))
  }

  /** There is exactly one frontier. */
  lemma FrontierIsUnique(ends: set<int>, a: int, b: int)
    requires IsFrontier(ends, a) && IsFrontier(ends, b)
    ensures a == b
  {
    var low := Min(ends);
    assert RunFrom(ends, low, a) && RunFrom(ends, low, b);
    assert a < b ==> a + 1 in ends;
    assert b < a ==> b + 1 in ends;
  }

  // ---- What a sequence of registrations stores ----

  /** A record is stored under the offset that would be committed after it. */
  function End(record: Record): EpochOffset {
    EpochOffset(record.leaderEpoch, record.offset + 1)
  }

  ghost predicate Registers(record: Record, tp: TopicPartition, end: int) {
    record.TP() == tp && record.offset + 1 == end
  }

  ghost function Partitions(registered: seq<Record>): set<TopicPartition> {
    set record | record in registered :: record.TP()
  }

  /** The stored offsets of one partition; a repeated registration keeps the last epoch. */
  ghost function Stored(registered: seq<Record>, tp: TopicPartition): map<int, EpochOffset> {
    if registered == [] then map[]
    else
      var last := registered[|registered| - 1];
      var before := Stored(registered[..|registered| - 1], tp);
      if last.TP() == tp then before[last.offset + 1 := End(last)] else before
  }

  /** The smallest stored offset; a repeated registration keeps the first epoch. */
  ghost function Smallest(registered: seq<Record>, tp: TopicPartition): Option<EpochOffset> {
    if registered == [] then None
    else
      var last := registered[|registered| - 1];
      var before := Smallest(registered[..|registered| - 1], tp);
      if last.TP() == tp && (before.None? || last.offset + 1 < before.value.offset) then Some(End(last)) else before
  }

  ghost function Largest(registered: seq<Record>, tp: TopicPartition): Option<EpochOffset> {
    if registered == [] then None
    else
      var last := registered[|registered| - 1];
      var before := Largest(registered[..|registered| - 1], tp);
      if last.TP() == tp && (before.None? || before.value.offset < last.offset + 1) then Some(End(last)) else before
  }

  /** The stored offsets are exactly the ends of the registered records of the partition. */
  lemma {:induction false} StoredOffsets(registered: seq<Record>, tp: TopicPartition)
    ensures forall end :: end in Stored(registered, tp)
                          <==> exists record :: record in registered && Registers(record, tp, end)
    ensures forall end | end in Stored(registered, tp) :: Stored(registered, tp)[end].offset == end
  {
    if registered == [] {
    } else {
      var rest, last := registered[..|registered| - 1], registered[|registered| - 1];
      StoredOffsets(rest, tp);
      assert registered == rest + [last];
      forall end
        ensures end in Stored(registered, tp) <==> exists record :: record in registered && Registers(record, tp, end)
      {
        if Registers(last, tp, end) {
          assert last in registered;
        } else if end in Stored(rest, tp) {
          var record :| record in rest && Registers(record, tp, end);
          assert record in registered;
        }
      }
    }
  }

  /** Every stored epoch was registered together with its offset. */
  lemma {:induction false} StoredEpochs(registered: seq<Record>, tp: TopicPartition, end: int)
    requires end in Stored(registered, tp)
    ensures exists record :: record in registered && Registers(record, tp, end)
                             && Stored(registered, tp)[end] == End(record)
  {
    var rest := registered[..|registered| - 1];
    var last := registered[|registered| - 1];
    if Registers(last, tp, end) {
      assert last in registered;
    } else {
      StoredEpochs(rest, tp, end);
      var record :| record in rest && Registers(record, tp, end) && Stored(rest, tp)[end] == End(record);
      assert record in registered;
    }
  }

  /** The tracked range brackets the stored offsets. */
  lemma {:induction false} RangeOfStored(registered: seq<Record>, tp: TopicPartition)
    ensures Smallest(registered, tp).Some? <==> Stored(registered, tp).Keys != {}
    ensures Largest(registered, tp).Some? <==> Stored(registered, tp).Keys != {}
    ensures Stored(registered, tp).Keys != {} ==>
              && IsMin(Stored(registered, tp).Keys, Smallest(registered, tp).value.offset)
              && Largest(registered, tp).value.offset in Stored(registered, tp)
              && forall end | end in Stored(registered, tp) :: end <= Largest(registered, tp).value.offset
  {
    if registered == [] {
    } else {
      var rest, last := registered[..|registered| - 1], registered[|registered| - 1];
      RangeOfStored(rest, tp);
      assert last.TP() == tp ==> last.offset + 1 in Stored(registered, tp);
    }
  }

  lemma {:induction false} StoredPartitions(registered: seq<Record>, tp: TopicPartition)
    ensures tp in Partitions(registered) <==> Stored(registered, tp).Keys != {}
  {
    StoredOffsets(registered, tp);
    if tp in Partitions(registered) {
      var record :| record in registered && record.TP() == tp;
      assert Registers(record, tp, record.offset + 1);
      assert record.offset + 1 in Stored(registered, tp);
    } else {
      HasElement(Stored(registered, tp).Keys);
    }
  }

  /** What committing a partition means: the frontier, with the epoch the source keeps for it. */
  ghost function CommitPoint(registered: seq<Record>, tp: TopicPartition): EpochOffset
    requires Stored(registered, tp).Keys != {}
  {
    RangeOfStored(registered, tp);
    var stored := Stored(registered, tp);
    var m := Frontier(stored.Keys);
    if m == Smallest(registered, tp).value.offset then Smallest(registered, tp).value else stored[m]
  }

  ghost function Committable(registered: seq<Record>): map<TopicPartition, EpochOffset> {
    map tp | tp in Partitions(registered) :: (StoredPartitions(registered, tp); CommitPoint(registered, tp))
  }

  /** One more registration, as the definitions unfold. */
  lemma RegisteredOneMore(registered: seq<Record>, record: Record, tp: TopicPartition)
    ensures var longer, min, max := registered + [record], Smallest(registered, tp), Largest(registered, tp);
            if record.TP() == tp then
              && Stored(longer, tp) == Stored(registered, tp)[record.offset + 1 := End(record)]
              && Smallest(longer, tp) ==
                   (if min.None? || record.offset + 1 < min.value.offset then Some(End(record)) else min)
              && Largest(longer, tp) ==
                   if max.None? || max.value.offset < record.offset + 1 then Some(End(record)) else max
            else
              && Stored(longer, tp) == Stored(registered, tp)
              && Smallest(longer, tp) == min
              && Largest(longer, tp) == max
  {
    assert (registered + [record])[..|registered|] == registered;
  }

  // ---- The tracker ----

  class ProcessedEpochOffsetsTracker {
    var processed: map<TopicPartition, map<int, EpochOffset>>
    var epochOffsetRange: map<TopicPartition, EpochOffsetRange>
    ghost var registered: seq<Record>

    ghost predicate Tracks(tp: TopicPartition)
      reads this
    {
      if Stored(registered, tp).Keys == {} then tp !in processed && tp !in epochOffsetRange
      else
        && tp in processed && processed[tp] == Stored(registered, tp)
        && tp in epochOffsetRange
        && Some(epochOffsetRange[tp].min) == Smallest(registered, tp)
        && Some(epochOffsetRange[tp].max) == Largest(registered, tp)
    }

    ghost predicate Valid()
      reads this
    {
      forall tp :: Tracks(tp)
    }

    constructor ()
      ensures Valid() && registered == []
    {
      processed := map[];
      epochOffsetRange := map[];
      registered := [];
    }

    method RegisterSingleAsProcessed(record: Record)
      requires Valid()
      modifies this
      ensures Valid() && registered == old(registered) + [record]
    {
      var tp := record.TP();
      assert Tracks(tp);
      RangeOfStored(registered, tp);
      NeverZero(registered, tp);

      var processedFromPartition := if tp in processed then processed[tp] else map[];
      var partitionOffsetRange :=
        if tp in epochOffsetRange then epochOffsetRange[tp] else EpochOffsetRange(ZERO, ZERO);

      var epochOffset := End(record);
      if partitionOffsetRange.max == ZERO || partitionOffsetRange.max.offset < epochOffset.offset {
        partitionOffsetRange := partitionOffsetRange.(max := epochOffset);
      }
      if partitionOffsetRange.min == ZERO || epochOffset.offset < partitionOffsetRange.min.offset {
        partitionOffsetRange := partitionOffsetRange.(min := epochOffset);
      }

      epochOffsetRange := epochOffsetRange[tp := partitionOffsetRange];
      processed := processed[tp := processedFromPartition[epochOffset.offset := epochOffset]];
      registered := registered + [record];

      forall other
        ensures Tracks(other)
      {
        assert old(Tracks(other));
        RegisteredOneMore(old(registered), record, other);
        assert other == tp ==> epochOffset.offset in Stored(registered, tp);
      }
    }

    method RegisterAsProcessed(records: seq<Record>)
      requires Valid()
      modifies this
      ensures Valid() && registered == old(registered) + records
    {
      for i := 0 to |records|
        invariant Valid() && registered == old(registered) + records[..i]
      {
        RegisterSingleAsProcessed(records[i]);
      }
    }

    /** The inner loop of committableEpochOffsets: climbs from the smallest stored offset. */
    method MaxCommittable(partition: TopicPartition) returns (maxCommittable: EpochOffset)
      requires Valid() && partition in processed
      ensures Stored(registered, partition).Keys != {} && maxCommittable == CommitPoint(registered, partition)
    {
      assert Tracks(partition);
      RangeOfStored(registered, partition);
      StoredOffsets(registered, partition);
      var epochOffsets := processed[partition];
      var range := epochOffsetRange[partition];
      ghost var ends := epochOffsets.Keys;

      maxCommittable := range.min;
      var offset := range.min.offset;
      while offset <= range.max.offset
        invariant offset == maxCommittable.offset && offset in ends
        invariant range.min.offset <= offset && RunFrom(ends, range.min.offset, offset)
        invariant maxCommittable == if offset == range.min.offset then range.min else epochOffsets[offset]
        decreases range.max.offset - offset
      {
        if offset + 1 !in epochOffsets {
          break;
        }
        maxCommittable := epochOffsets[offset + 1];
        offset := offset + 1;
      }
      FrontierIsUnique(ends, Frontier(ends), offset);
    }

    method CommittableEpochOffsets() returns (committable: map<TopicPartition, EpochOffset>)
      requires Valid()
      ensures committable == Committable(registered)
    {
      committable := map[];
      var left := processed.Keys;
      while left != {}
        invariant left <= processed.Keys
        invariant committable.Keys == processed.Keys - left
        invariant forall tp | tp in committable ::
                    Stored(registered, tp).Keys != {} && committable[tp] == CommitPoint(registered, tp)
      {
        var partition :| partition in left;
        var point := MaxCommittable(partition);
        committable := committable[partition := point];
        left := left - {partition};
      }
      forall tp
        ensures tp in committable <==> tp in Partitions(registered)
      {
        assert Tracks(tp);
        StoredPartitions(registered, tp);
      }
    }
  }

  /** Offsets are non-negative, so a stored range never looks like an unset one. */
  lemma {:induction false} NeverZero(registered: seq<Record>, tp: TopicPartition)
    ensures Smallest(registered, tp).Some? ==> Smallest(registered, tp).value.offset > 0
    ensures Largest(registered, tp).Some? ==> Largest(registered, tp).value.offset > 0
  {
    if registered == [] {
    } else {
      NeverZero(registered[..|registered| - 1], tp);
    }
  }

  /** Registering an offset again keeps the epoch of the first registration in the range and stores that
      of the last. */
  lemma RepeatedRegistration(registered: seq<Record>, again: Record, tp: TopicPartition)
    requires again.TP() == tp && Smallest(registered, tp).Some? && Largest(registered, tp).Some?
    ensures var longer := registered + [again];
            && Stored(longer, tp)[again.offset + 1].epoch == again.leaderEpoch
            && Stored(longer, tp)[again.offset + 1].offset == again.offset + 1
            && (again.offset + 1 == Smallest(registered, tp).value.offset ==>
                  Smallest(longer, tp) == Smallest(registered, tp))
            && (again.offset + 1 == Largest(registered, tp).value.offset ==>
                  Largest(longer, tp) == Largest(registered, tp))
  {
    assert (registered + [again])[..|registered|] == registered;
  }

  // ---- Order independence ----

  ghost predicate SameRecords(a: seq<Record>, b: seq<Record>) {
    forall record :: record in a <==> record in b
  }

  /** The leader epoch of a record is determined by its topic, partition and offset. */
  ghost predicate EpochsConsistent(registered: seq<Record>) {
    forall a, b | a in registered && b in registered && a.TP() == b.TP() && a.offset == b.offset ::
      a.leaderEpoch == b.leaderEpoch
  }

  lemma SameStoredOffsets(a: seq<Record>, b: seq<Record>, tp: TopicPartition)
    requires SameRecords(a, b)
    ensures Stored(a, tp).Keys == Stored(b, tp).Keys
  {
    StoredOffsets(a, tp);
    StoredOffsets(b, tp);
  }

  /** With any epochs at all, the offset to commit depends only on which records were registered. */
  lemma CommittedOffsetIsOrderIndependent(a: seq<Record>, b: seq<Record>, tp: TopicPartition)
    requires SameRecords(a, b) && Stored(a, tp).Keys != {}
    ensures Stored(b, tp).Keys != {}
    ensures CommitPoint(a, tp).offset == CommitPoint(b, tp).offset
  {
    SameStoredOffsets(a, b, tp);
    RangeOfStored(a, tp);
    RangeOfStored(b, tp);
    StoredOffsets(a, tp);
    StoredOffsets(b, tp);
  }

  lemma {:induction false} SmallestEpoch(registered: seq<Record>, tp: TopicPartition)
    requires Smallest(registered, tp).Some?
    ensures exists record :: record in registered && record.TP() == tp && Smallest(registered, tp) == Some(End(record))
  {
    var last := registered[|registered| - 1];
    var rest := registered[..|registered| - 1];
    if Smallest(registered, tp) == Some(End(last)) && last.TP() == tp {
      assert last in registered;
    } else {
      SmallestEpoch(rest, tp);
      var record :| record in rest && record.TP() == tp && Smallest(rest, tp) == Some(End(record));
      assert record in registered;
    }
  }

  lemma CommitPointWasRegistered(registered: seq<Record>, tp: TopicPartition)
    requires Stored(registered, tp).Keys != {}
    ensures exists record :: record in registered && record.TP() == tp && CommitPoint(registered, tp) == End(record)
  {
    RangeOfStored(registered, tp);
    var m := Frontier(Stored(registered, tp).Keys);
    if m == Smallest(registered, tp).value.offset {
      SmallestEpoch(registered, tp);
    } else {
      StoredEpochs(registered, tp, m);
    }
  }

  ghost predicate IsEnd(registered: seq<Record>, tp: TopicPartition, end: int) {
    exists record :: record in registered && Registers(record, tp, end)
  }

  ghost predicate EndsRun(registered: seq<Record>, tp: TopicPartition, low: int, m: int) {
    low <= m && !IsEnd(registered, tp, m + 1) && forall end | low <= end <= m :: IsEnd(registered, tp, end)
  }

  /** The committed offset m is the one number such that every registered offset from the smallest
      up to m is present and m + 1 is not, and its epoch is that of a registered record at m - 1. */
  lemma CommittableIsExactFrontier(registered: seq<Record>, tp: TopicPartition, low: int)
    requires tp in Committable(registered)
    requires IsEnd(registered, tp, low) && forall end | IsEnd(registered, tp, end) :: low <= end
    ensures forall m :: EndsRun(registered, tp, low, m) <==> m == Committable(registered)[tp].offset
    ensures exists record :: record in registered && record.topic == tp.topic && record.partition == tp.partition
                             && Committable(registered)[tp].epoch == record.leaderEpoch
                             && Committable(registered)[tp].offset == record.offset + 1
  {
    StoredPartitions(registered, tp);
    StoredOffsets(registered, tp);
    RangeOfStored(registered, tp);
    CommitPointWasRegistered(registered, tp);
    var ends := Stored(registered, tp).Keys;
    assert forall end :: end in ends <==> IsEnd(registered, tp, end);
    var frontier := Frontier(ends);
    assert IsMin(ends, low) && RunFrom(ends, low, frontier);
    forall m | EndsRun(registered, tp, low, m)
      ensures m == frontier
    {
      assert RunFrom(ends, low, m);
      FrontierIsUnique(ends, m, frontier);
    }
  }

  lemma FrontierFacts(registered: seq<Record>, tp: TopicPartition) returns (low: int)
    requires tp in Committable(registered)
    ensures IsEnd(registered, tp, low) && forall end | IsEnd(registered, tp, end) :: low <= end
    ensures EndsRun(registered, tp, low, Committable(registered)[tp].offset)
    ensures exists record :: record in registered && record.TP() == tp
                             && Committable(registered)[tp].epoch == record.leaderEpoch
                             && Committable(registered)[tp].offset == record.offset + 1
  {
    StoredPartitions(registered, tp);
    StoredOffsets(registered, tp);
    low := Min(Stored(registered, tp).Keys);
    assert forall end :: end in Stored(registered, tp).Keys <==> IsEnd(registered, tp, end);
    CommittableIsExactFrontier(registered, tp, low);
  }

  /** Reordering or repeating registrations never changes what is committed. */
  lemma CommittableIsOrderIndependent(a: seq<Record>, b: seq<Record>)
    requires SameRecords(a, b) && EpochsConsistent(a)
    ensures Committable(a) == Committable(b)
  {
    forall tp
      ensures tp in Committable(a) <==> tp in Committable(b)
      ensures tp in Committable(a) && tp in Committable(b) ==> Committable(a)[tp] == Committable(b)[tp]
    {
      StoredPartitions(a, tp);
      StoredPartitions(b, tp);
      if tp in Partitions(a) {
        CommittedOffsetIsOrderIndependent(a, b, tp);
        CommitPointWasRegistered(a, tp);
        CommitPointWasRegistered(b, tp);
      } else if tp in Partitions(b) {
        CommittedOffsetIsOrderIndependent(b, a, tp);
      }
    }
  }

  /** What a partition commits depends on its own records alone. */
  ghost function OfPartition(registered: seq<Record>, tp: TopicPartition): seq<Record> {
    if registered == [] then []
    else
      var before := OfPartition(registered[..|registered| - 1], tp);
      var last := registered[|registered| - 1];
      if last.TP() == tp then before + [last] else before
  }

  lemma {:induction false} PartitionsAreIndependent(registered: seq<Record>, tp: TopicPartition)
    ensures Stored(OfPartition(registered, tp), tp) == Stored(registered, tp)
    ensures Smallest(OfPartition(registered, tp), tp) == Smallest(registered, tp)
    ensures Stored(registered, tp).Keys != {} ==>
              CommitPoint(OfPartition(registered, tp), tp) == CommitPoint(registered, tp)
  {
    if registered == [] {
    } else {
      var rest := registered[..|registered| - 1];
      PartitionsAreIndependent(rest, tp);
      var own := OfPartition(registered, tp);
      if registered[|registered| - 1].TP() == tp {
        assert own[..|own| - 1] == OfPartition(rest, tp);
      }
    }
  }
}
