/** One consumer group of the transactions topic, poll by poll and call by call, against the merged log
    of the choreography. */
module Reading {
  import opened Kafka
  import opened Batch
  import opened BatchLaws
  import opened Group
  import opened GroupSafety
  import opened GroupDecisions
  import EndToEnd
  import Choreography

  /** Where in the partitions a message of the log is. */
  datatype Place = Place(tp: TopicPartition, offset: int)

  /** The poll in progress and how many calls of the record consumer it has made. */
  datatype Polling = Polling(input: PollInput, calls: nat)

  datatype Reader = Reader(group: Group, polling: Option<Polling>)

  datatype Event =
    | Polls(input: PollInput)                  // fetches a batch
    | Ends                                     // drains, commits, and rewinds or not
    | Crashes(published: seq<Record>)          // dies, with some dead letters published
    | Resumes(event: GroupRuns.Event)          // a rebalance or a restart

  function PlaceOf(r: Record): Place {
    Place(r.TP(), r.offset)
  }

  /** Polls that return before they consume anything. */
  predicate Skips(input: PollInput) {
    input.closed || FatalErrors(input.errors)
  }

  /** The batch has a call of the record consumer to make or to finish. */
  predicate Calling(reader: Reader) {
    && reader.polling.Some?
    && !Skips(reader.polling.value.input)
    && reader.polling.value.calls < |EndToEnd.CallsOf(reader.group, reader.polling.value.input)|
  }

  function CallOf(reader: Reader): Record
    requires Calling(reader)
  {
    EndToEnd.CallsOf(reader.group, reader.polling.value.input)[reader.polling.value.calls]
  }

  function AnswerOf(reader: Reader): HandlerResult
    requires Calling(reader)
  {
    Script(reader.group, reader.polling.value.input)[reader.polling.value.calls]
  }

  ghost predicate Enabled(reader: Reader, e: Event) {
    match e
    case Polls(input) => reader.polling.None? && GroupRuns.Enabled(reader.group, GroupRuns.PollOnce(input))
    case Ends =>
      && reader.polling.Some? && GroupRuns.Enabled(reader.group, GroupRuns.PollOnce(reader.polling.value.input))
      && !Calling(reader)
    case Crashes(_) => reader.group.running
    case Resumes(event) =>
      && reader.polling.None? && GroupRuns.Enabled(reader.group, event)
      && (event.Reassign? || event.Restart? || event.RebalanceBlocked?)
  }

  ghost function Next(reader: Reader, e: Event): Reader
    requires Enabled(reader, e)
  {
    match e
    case Polls(input) => reader.(polling := Some(Polling(input, 0)))
    case Ends => Reader(Poll(reader.group, reader.polling.value.input), None)
    case Crashes(published) =>
      Reader(reader.group.(running := false, dlq := reader.group.dlq + published), None)
    case Resumes(event) => reader.(group := GroupRuns.Next(reader.group, event))
  }

  function Called(reader: Reader): Reader
    requires Calling(reader)
  {
    reader.(polling := Some(reader.polling.value.(calls := reader.polling.value.calls + 1)))
  }

  ghost function Appended(reader: Reader, record: Record): Reader
    requires GroupRuns.Enabled(reader.group, GroupRuns.Append(record))
  {
    reader.(group := GroupRuns.Next(reader.group, GroupRuns.Append(record)))
  }

  // ---- The merged log ----

  /** The i-th message of the log is at its place. */
  ghost predicate Sits(log: seq<Message>, place: seq<Place>, g: Group, i: nat)
    requires i < |place| == |log|
  {
    place[i].offset in LogOf(g, place[i].tp) && LogOf(g, place[i].tp)[place[i].offset].message == log[i]
  }

  ghost predicate AllPlaced(log: seq<Message>, place: seq<Place>, g: Group) {
    |place| == |log| && forall i: nat | i < |place| :: Sits(log, place, g, i)
  }

  ghost predicate AllLogged(place: seq<Place>, g: Group) {
    forall tp, o | o in LogOf(g, tp) :: Place(tp, o) in place
  }

  ghost predicate OffsetsAscend(place: seq<Place>) {
    forall i, j | 0 <= i < j < |place| && place[i].tp == place[j].tp :: place[i].offset < place[j].offset
  }

  ghost predicate KeysTogether(log: seq<Message>, place: seq<Place>)
    requires |place| == |log|
  {
    forall i, j | 0 <= i < j < |place| && log[i].key == log[j].key :: place[i].tp == place[j].tp
  }

  /** The log is the logs of the partitions, merged; messages with one key are in one partition. */
  ghost predicate Merged(log: seq<Message>, place: seq<Place>, g: Group) {
    AllPlaced(log, place, g) && AllLogged(place, g) && OffsetsAscend(place) && KeysTogether(log, place)
  }

  ghost function IndexOf(place: seq<Place>, r: Record): (i: nat)
    ensures PlaceOf(r) in place ==> i < |place| && place[i] == PlaceOf(r)
  {
    if PlaceOf(r) in place then
      var i: nat :| i < |place| && place[i] == PlaceOf(r);
      i
    else 0
  }

  lemma PlacesAreUnique(place: seq<Place>, i: nat, j: nat)
    requires OffsetsAscend(place) && i < |place| && j < |place| && place[i] == place[j]
    ensures i == j
  {
  }

  // ---- The invariant ----

  /** The record is in the log, and its index is done. */
  ghost predicate DoneAt(place: seq<Place>, r: Record, done: set<nat>) {
    PlaceOf(r) in place && forall i: nat | i < |place| && place[i] == PlaceOf(r) :: i in done
  }

  /** Every settled record is done. */
  ghost predicate SettledIsDone(place: seq<Place>, g: Group, done: set<nat>) {
    forall r | r in g.settled :: DoneAt(place, r, done)
  }

  ghost predicate CallDone(place: seq<Place>, g: Group, input: PollInput, done: set<nat>, k: nat)
    requires k < |EndToEnd.CallsOf(g, input)|
  {
    Script(g, input)[k] != Transient ==> DoneAt(place, EndToEnd.CallsOf(g, input)[k], done)
  }

  /** So is every record that the poll in progress has settled. */
  ghost predicate CallsAreDone(place: seq<Place>, g: Group, polling: Polling, done: set<nat>) {
    && g.running && ValidInput(g, polling.input) && polling.calls <= |EndToEnd.CallsOf(g, polling.input)|
    && forall k: nat | k < polling.calls :: CallDone(place, g, polling.input, done, k)
  }

  ghost predicate GroupInv(log: seq<Message>, place: seq<Place>, g: Group, done: set<nat>) {
    Merged(log, place, g) && Ordered(g) && NothingSkipped(g) && SettledIsDone(place, g, done)
  }

  ghost predicate Inv(log: seq<Message>, place: seq<Place>, reader: Reader, done: set<nat>) {
    && GroupInv(log, place, reader.group, done)
    && (reader.polling.Some? ==> CallsAreDone(place, reader.group, reader.polling.value, done))
  }

  // ---- A call and what is ahead of it ----

  lemma CallIsPlaced(log: seq<Message>, place: seq<Place>, g: Group, input: PollInput, j: nat)
    requires AllPlaced(log, place, g) && AllLogged(place, g) && LogsWellFormed(g) && ValidInput(g, input)
    requires j < |EndToEnd.CallsOf(g, input)|
    ensures var r := EndToEnd.CallsOf(g, input)[j];
            PlaceOf(r) in place && IndexOf(place, r) < |log| && log[IndexOf(place, r)] == r.message
  {
    EndToEnd.CallIsInLog(g, input, j);
    var r := EndToEnd.CallsOf(g, input)[j];
    assert Place(r.TP(), r.offset) in place;
    assert Sits(log, place, g, IndexOf(place, r));
  }

  /** A record settled by the first n calls has a call among them that settled it. */
  lemma SettledWasCalled(records: seq<Record>, script: seq<HandlerResult>, n: nat, i: nat) returns (k: nat)
    requires n <= |Calls(records, script)| && i < |Outcomes(|records|, script[..n])|
    ensures k < n && Calls(records, script)[k] == records[i] && script[k] != Transient
  {
    k := SettlingCall(records, script[..n], i);
    CallsInOrder(records, script[..n], k);
    CallsInOrder(records, script, k);
    assert script[..n][..k] == script[..k];
  }

  /** The record at an index, as the group's log has it. */
  lemma RecordThere(log: seq<Message>, place: seq<Place>, g: Group, j: nat) returns (r: Record)
    requires AllPlaced(log, place, g) && LogsWellFormed(g) && j < |place|
    ensures place[j].offset in LogOf(g, place[j].tp) && r == LogOf(g, place[j].tp)[place[j].offset]
    ensures PlaceOf(r) == place[j]
  {
    assert Sits(log, place, g, j);
    r := LogOf(g, place[j].tp)[place[j].offset];
    assert place[j].tp in g.logs && place[j].offset in g.logs[place[j].tp];
  }

  /** Whatever is ahead of a call under the same key is done by then. */
  lemma AheadOfCall(log: seq<Message>, place: seq<Place>, reader: Reader, done: set<nat>, i: nat, j: nat)
    requires Inv(log, place, reader, done) && Calling(reader)
    requires j < i < |place| && place[i] == PlaceOf(CallOf(reader)) && log[j].key == log[i].key
    ensures j in done
  {
    var g, input, n := reader.group, reader.polling.value.input, reader.polling.value.calls;
    var records, script := Flatten(input.fetches), Script(g, input);
    var r := RecordThere(log, place, g, j);
    assert place[j].tp == place[i].tp && place[j].offset < place[i].offset;
    EndToEnd.CallsFollowTheLog(g, input, n, place[j].offset);
    if r in g.settled {
      assert DoneAt(place, r, done);
    } else {
      var m :| 0 <= m < |Outcomes(|records|, script[..n])| && records[m] == r;
      var k := SettledWasCalled(records, script, n, m);
      assert CallDone(place, g, input, done, k);
    }
  }

  /** A call is for an index whose predecessors under the key are all done. */
  lemma CallIsAtItsTurn(log: seq<Message>, place: seq<Place>, reader: Reader, done: set<nat>)
    requires Inv(log, place, reader, done) && Calling(reader)
    ensures var i := IndexOf(place, CallOf(reader));
            && i < |log| && log[i] == CallOf(reader).message && place[i] == PlaceOf(CallOf(reader))
            && Choreography.AheadDone(log, i, done)
  {
    var polling := reader.polling.value;
    CallIsPlaced(log, place, reader.group, polling.input, polling.calls);
    var i := IndexOf(place, CallOf(reader));
    forall j: nat | j < i && log[j].key == log[i].key
      ensures j in done
    {
      AheadOfCall(log, place, reader, done, i, j);
    }
  }

  // ---- What keeps the invariant ----

  lemma DoneGrows(log: seq<Message>, place: seq<Place>, reader: Reader, done: set<nat>, more: set<nat>)
    requires Inv(log, place, reader, done) && done <= more
    ensures Inv(log, place, reader, more)
  {
    forall r | r in reader.group.settled
      ensures DoneAt(place, r, more)
    {
      assert DoneAt(place, r, done);
    }
    if reader.polling.Some? {
      var polling := reader.polling.value;
      forall k: nat | k < polling.calls
        ensures CallDone(place, reader.group, polling.input, more, k)
      {
        assert CallDone(place, reader.group, polling.input, done, k);
      }
    }
  }

  /** A call that did not fail transiently makes its index done. */
  ghost function DoneAfter(place: seq<Place>, reader: Reader, done: set<nat>): set<nat>
    requires Calling(reader)
  {
    if AnswerOf(reader) == Transient then done else done + {IndexOf(place, CallOf(reader))}
  }

  lemma IndexIsDone(place: seq<Place>, r: Record, done: set<nat>)
    requires OffsetsAscend(place) && PlaceOf(r) in place && IndexOf(place, r) in done
    ensures DoneAt(place, r, done)
  {
    forall i: nat | i < |place| && place[i] == PlaceOf(r)
      ensures i in done
    {
      PlacesAreUnique(place, i, IndexOf(place, r));
    }
  }

  lemma CallKeepsInv(log: seq<Message>, place: seq<Place>, reader: Reader, done: set<nat>)
    requires Inv(log, place, reader, done) && Calling(reader)
    ensures Inv(log, place, Called(reader), DoneAfter(place, reader, done))
  {
    var more, g := DoneAfter(place, reader, done), reader.group;
    var input, n := reader.polling.value.input, reader.polling.value.calls;
    DoneGrows(log, place, reader, done, more);
    CallIsPlaced(log, place, g, input, n);
    if AnswerOf(reader) != Transient {
      IndexIsDone(place, CallOf(reader), more);
    }
    forall k: nat | k < n + 1
      ensures CallDone(place, g, input, more, k)
    {
      if k < n {
        assert CallDone(place, g, input, more, k);
      }
    }
  }

  lemma SameLogsMerged(log: seq<Message>, place: seq<Place>, g: Group, after: Group)
    requires Merged(log, place, g) && forall tp :: LogOf(after, tp) == LogOf(g, tp)
    ensures Merged(log, place, after)
  {
    forall i: nat | i < |place|
      ensures Sits(log, place, after, i)
    {
      assert Sits(log, place, g, i);
    }
  }

  lemma PollSettled(g: Group, input: PollInput, r: Record) returns (i: nat)
    requires |input.published| == |DeadLetters(g, input)| && r in Poll(g, input).settled && r !in g.settled
    ensures !Skips(input) && i < |BatchOutcomes(g, input)| && Flatten(input.fetches)[i] == r
  {
    var batch := AfterBatch(g, input);
    assert Poll(g, input).settled == g.settled
        || (!Skips(input) && Poll(g, input).settled == batch.settled);
    i :| 0 <= i < |BatchOutcomes(g, input)| && Flatten(input.fetches)[i] == r;
  }

  /** When all calls of a batch are made, everything it settled is done. */
  lemma BatchIsDone(place: seq<Place>, reader: Reader, done: set<nat>, r: Record)
    requires reader.polling.Some? && CallsAreDone(place, reader.group, reader.polling.value, done)
    requires !Calling(reader) && SettledIsDone(place, reader.group, done)
    requires r in Poll(reader.group, reader.polling.value.input).settled
    ensures DoneAt(place, r, done)
  {
    var g, input := reader.group, reader.polling.value.input;
    if r !in g.settled {
      var i := PollSettled(g, input, r);
      var k := SettlingCall(Flatten(input.fetches), Script(g, input), i);
      assert CallDone(place, g, input, done, k);
    }
  }

  lemma EndKeepsInv(log: seq<Message>, place: seq<Place>, reader: Reader, done: set<nat>)
    requires Inv(log, place, reader, done) && Enabled(reader, Ends)
    ensures Inv(log, place, Next(reader, Ends), done)
  {
    var g, input := reader.group, reader.polling.value.input;
    GroupRuns.PollKeepsOrder(g, input);
    GroupRuns.PollKeepsLogs(g, input);
    PollSkipsNothing(g, input);
    SameLogsMerged(log, place, g, Poll(g, input));
    forall r | r in Poll(g, input).settled
      ensures DoneAt(place, r, done)
    {
      BatchIsDone(place, reader, done, r);
    }
  }

  lemma CrashSkipsNothing(g: Group, published: seq<Record>)
    requires Ordered(g) && NothingSkipped(g)
    ensures var after := g.(running := false, dlq := g.dlq + published);
            Ordered(after) && NothingSkipped(after) && forall tp :: LogOf(after, tp) == LogOf(g, tp)
  {
    var after := g.(running := false, dlq := g.dlq + published);
    assert forall tp :: LogOf(after, tp) == LogOf(g, tp);
    forall tp
      ensures OrderedAt(after, tp) && DecidedAt(after, tp)
    {
      assert OrderedAt(g, tp) && DecidedAt(g, tp);
    }
  }

  lemma ReaderKeepsInv(log: seq<Message>, place: seq<Place>, reader: Reader, done: set<nat>, e: Event)
    requires Inv(log, place, reader, done) && Enabled(reader, e)
    ensures Inv(log, place, Next(reader, e), done)
  {
    match e {
      case Polls(_) =>
      case Ends => EndKeepsInv(log, place, reader, done);
      case Crashes(published) =>
        CrashSkipsNothing(reader.group, published);
        SameLogsMerged(log, place, reader.group, Next(reader, e).group);
      case Resumes(event) =>
        GroupRuns.ResumeKeeps(reader.group, event);
        ResumeSkipsNothing(reader.group, event);
        SameLogsMerged(log, place, reader.group, Next(reader, e).group);
    }
  }

  // ---- Appending ----

  /** The record goes behind its partition, which is the one of its key. */
  ghost predicate Appendable(log: seq<Message>, place: seq<Place>, g: Group, record: Record) {
    && GroupRuns.Enabled(g, GroupRuns.Append(record))
    && forall i | 0 <= i < |place| && i < |log| && log[i].key == record.message.key :: place[i].tp == record.TP()
  }

  lemma AppendedLog(g: Group, record: Record, tp: TopicPartition, o: int)
    requires GroupRuns.Enabled(g, GroupRuns.Append(record))
    ensures var after := GroupRuns.Next(g, GroupRuns.Append(record));
            && (o in LogOf(after, tp) <==> o in LogOf(g, tp) || Place(tp, o) == PlaceOf(record))
            && (o in LogOf(g, tp) ==> LogOf(after, tp)[o] == LogOf(g, tp)[o])
            && (Place(tp, o) == PlaceOf(record) ==> LogOf(after, tp)[o] == record)
            && (o in LogOf(g, tp) && tp == record.TP() ==> o < record.offset)
  {
  }

  lemma NewPlaceIsBehind(log: seq<Message>, place: seq<Place>, g: Group, record: Record, i: nat)
    requires AllPlaced(log, place, g) && GroupRuns.Enabled(g, GroupRuns.Append(record))
    requires i < |place| && place[i].tp == record.TP()
    ensures place[i].offset < record.offset
  {
    assert Sits(log, place, g, i);
    AppendedLog(g, record, place[i].tp, place[i].offset);
  }

  lemma AppendKeepsPlaces(log: seq<Message>, place: seq<Place>, g: Group, record: Record)
    requires AllPlaced(log, place, g) && AllLogged(place, g) && GroupRuns.Enabled(g, GroupRuns.Append(record))
    ensures var after := GroupRuns.Next(g, GroupRuns.Append(record));
            AllPlaced(log + [record.message], place + [PlaceOf(record)], after)
            && AllLogged(place + [PlaceOf(record)], after)
  {
    var after := GroupRuns.Next(g, GroupRuns.Append(record));
    var log', place' := log + [record.message], place + [PlaceOf(record)];
    forall i: nat | i < |place'|
      ensures Sits(log', place', after, i)
    {
      if i < |place| {
        assert Sits(log, place, g, i);
      }
      AppendedLog(g, record, place'[i].tp, place'[i].offset);
    }
    forall tp, o | o in LogOf(after, tp)
      ensures Place(tp, o) in place'
    {
      AppendedLog(g, record, tp, o);
      assert place'[|place|] == PlaceOf(record);
    }
  }

  lemma AppendKeepsMerged(log: seq<Message>, place: seq<Place>, g: Group, record: Record)
    requires Merged(log, place, g) && Appendable(log, place, g, record)
    ensures Merged(log + [record.message], place + [PlaceOf(record)], GroupRuns.Next(g, GroupRuns.Append(record)))
  {
    AppendKeepsPlaces(log, place, g, record);
    var place' := place + [PlaceOf(record)];
    forall i: nat, j: nat | i < j < |place'| && place'[i].tp == place'[j].tp
      ensures place'[i].offset < place'[j].offset
    {
      if j == |place| {
        NewPlaceIsBehind(log, place, g, record, i);
      }
    }
  }

  lemma AppendKeepsDone(log: seq<Message>, place: seq<Place>, g: Group, record: Record, r: Record, done: set<nat>)
    requires AllPlaced(log, place, g) && GroupRuns.Enabled(g, GroupRuns.Append(record)) && DoneAt(place, r, done)
    ensures DoneAt(place + [PlaceOf(record)], r, done)
  {
    var j :| 0 <= j < |place| && place[j] == PlaceOf(r);
    if PlaceOf(record) == PlaceOf(r) {
      NewPlaceIsBehind(log, place, g, record, j);
    }
  }

  lemma AppendKeepsFetch(g: Group, record: Record, f: FetchPartition)
    requires ValidFetch(g, f) && GroupRuns.Enabled(g, GroupRuns.Append(record))
    ensures ValidFetch(GroupRuns.Next(g, GroupRuns.Append(record)), f)
  {
    var after := GroupRuns.Next(g, GroupRuns.Append(record));
    forall k: nat | k < |f.records|
      ensures f.records[k].offset in LogOf(after, f.tp)
      ensures LogOf(after, f.tp)[f.records[k].offset] == f.records[k]
    {
      AppendedLog(g, record, f.tp, f.records[k].offset);
    }
    forall k: nat, o | k < |f.records| && o in LogOf(after, f.tp) && At(g.position, f.tp) <= o <= f.records[k].offset
      ensures LogOf(after, f.tp)[o] in f.records
    {
      AppendedLog(g, record, f.tp, f.records[k].offset);
      AppendedLog(g, record, f.tp, o);
    }
  }

  /** A batch that was fetched stays what the broker handed out while others append. */
  lemma AppendKeepsInput(g: Group, record: Record, input: PollInput)
    requires ValidInput(g, input) && GroupRuns.Enabled(g, GroupRuns.Append(record))
    ensures ValidInput(GroupRuns.Next(g, GroupRuns.Append(record)), input)
  {
    forall i | 0 <= i < |input.fetches|
      ensures ValidFetch(GroupRuns.Next(g, GroupRuns.Append(record)), input.fetches[i])
    {
      AppendKeepsFetch(g, record, input.fetches[i]);
    }
  }

  lemma AppendKeepsCalls(log: seq<Message>, place: seq<Place>, g: Group, polling: Polling, done: set<nat>,
                         record: Record)
    requires AllPlaced(log, place, g) && CallsAreDone(place, g, polling, done)
    requires GroupRuns.Enabled(g, GroupRuns.Append(record))
    ensures CallsAreDone(place + [PlaceOf(record)], GroupRuns.Next(g, GroupRuns.Append(record)), polling, done)
  {
    AppendKeepsInput(g, record, polling.input);
    var after := GroupRuns.Next(g, GroupRuns.Append(record));
    forall k: nat | k < polling.calls
      ensures CallDone(place + [PlaceOf(record)], after, polling.input, done, k)
    {
      assert CallDone(place, g, polling.input, done, k);
      if Script(g, polling.input)[k] != Transient {
        AppendKeepsDone(log, place, g, record, EndToEnd.CallsOf(g, polling.input)[k], done);
      }
    }
  }

  lemma AppendKeepsInv(log: seq<Message>, place: seq<Place>, reader: Reader, done: set<nat>, record: Record)
    requires Inv(log, place, reader, done) && Appendable(log, place, reader.group, record)
    ensures Inv(log + [record.message], place + [PlaceOf(record)], Appended(reader, record), done)
  {
    var g := reader.group;
    AppendKeepsMerged(log, place, g, record);
    GroupRuns.AppendKeeps(g, record);
    AppendSkipsNothing(g, record);
    forall r | r in g.settled
      ensures DoneAt(place + [PlaceOf(record)], r, done)
    {
      AppendKeepsDone(log, place, g, record, r, done);
    }
    if reader.polling.Some? {
      AppendKeepsCalls(log, place, g, reader.polling.value, done, record);
    }
  }

  // ---- Committed offsets ----

  /** What lies below a committed offset is done. */
  lemma CommittedIsDone(log: seq<Message>, place: seq<Place>, reader: Reader, done: set<nat>, i: nat)
    requires Inv(log, place, reader, done) && i < |place|
    requires place[i].offset < At(reader.group.committed, place[i].tp)
    ensures i in done
  {
    var r := RecordThere(log, place, reader.group, i);
    assert DecidedAt(reader.group, place[i].tp);
    assert DoneAt(place, r, done);
  }
}
