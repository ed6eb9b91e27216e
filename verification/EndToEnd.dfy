/** The poll loop over the saga database: an at-least-once consumer whose handler is idempotent gives
    every command its effect exactly once. */
module EndToEnd {
  import opened Kafka
  import opened Codec
  import opened Batch
  import opened BatchLaws
  import opened Group
  import opened GroupSafety
  import opened GroupRuns
  import opened GroupDecisions
  import Tables
  import History
  import Saga

  type Db = Tables.Db

  datatype System = System(group: Group, db: Db)

  /** The calls a poll makes of the record consumer. */
  function CallsOf(g: Group, input: PollInput): (calls: seq<Record>)
    ensures |calls| <= |Script(g, input)|
  {
    Calls(Flatten(input.fetches), Script(g, input))
  }

  /** The tables before, between and after the first calls of a poll; each call is one transaction
      whose answer is the one the poll saw. */
  ghost predicate Chain(db: Db, dbs: seq<Db>, calls: seq<Record>, script: seq<HandlerResult>) {
    && 0 < |dbs| <= |calls| + 1 && |calls| <= |script| && dbs[0] == db
    && forall j | 0 <= j < |dbs| - 1 :: Saga.RecordStep(dbs[j], calls[j].message, script[j], dbs[j + 1])
  }

  datatype Event =
    | GroupEvent(event: GroupRuns.Event)                              // anything but a poll
    | Polled(input: PollInput, dbs: seq<Db>)                          // a poll with all its transactions
    | Crashed(input: PollInput, dbs: seq<Db>, published: seq<Record>) // the process dies inside one

  ghost predicate Enabled(s: System, e: Event) {
    match e
    case GroupEvent(event) => !event.PollOnce? && GroupRuns.Enabled(s.group, event)
    case Polled(input, dbs) =>
      && GroupRuns.Enabled(s.group, PollOnce(input))
      && if input.closed || FatalErrors(input.errors) then dbs == [s.db]
         else
           && Chain(s.db, dbs, CallsOf(s.group, input), Script(s.group, input))
           && |dbs| == |CallsOf(s.group, input)| + 1
    case Crashed(input, dbs, published) =>
      && GroupRuns.Enabled(s.group, PollOnce(input))
      && Chain(s.db, dbs, CallsOf(s.group, input), Script(s.group, input))
      && forall r | r in published :: r in DeadLetters(s.group, input)
  }

  ghost function Next(s: System, e: Event): System
    requires Enabled(s, e)
  {
    match e
    case GroupEvent(event) => s.(group := GroupRuns.Next(s.group, event))
    case Polled(input, dbs) => System(Poll(s.group, input), dbs[|dbs| - 1])
    case Crashed(input, dbs, published) =>
      System(s.group.(running := false, dlq := s.group.dlq + published), dbs[|dbs| - 1])
  }

  ghost predicate ValidRun(s: System, events: seq<Event>)
    decreases |events|
  {
    events != [] ==> Enabled(s, events[0]) && ValidRun(Next(s, events[0]), events[1..])
  }

  ghost function Run(s: System, events: seq<Event>): System
    requires ValidRun(s, events)
    decreases |events|
  {
    if events == [] then s else Run(Next(s, events[0]), events[1..])
  }

  /** Every committing poll of the run meets the guard of NoLossIff. */
  ghost predicate Guarded(s: System, events: seq<Event>)
    requires ValidRun(s, events)
    decreases |events|
  {
    events != [] ==>
      && (events[0].Polled? ==> HeadsCovered(s.group, events[0].input))
      && Guarded(Next(s, events[0]), events[1..])
  }

  // ---- The tables ----

  /** The tables are those of a history in which every processed id was handled exactly once. */
  ghost predicate HandledOnce(db: Db, history: seq<Command>) {
    && History.Fresh(Tables.EMPTY, history)
    && db == History.ReplayFrom(Tables.EMPTY, history)
    && db.processed.Keys == History.Ids(history)
  }

  /** The command is read from a record of the logs. */
  ghost predicate InLogs(g: Group, cmd: Command) {
    exists tp, o :: o in LogOf(g, tp) && MapToTxCommand(LogOf(g, tp)[o].message) == Ok(cmd)
  }

  ghost predicate FromLogs(g: Group, history: seq<Command>) {
    forall cmd | cmd in history :: InLogs(g, cmd)
  }

  /** The tables are those of handling commands of the logs, each processed id once. */
  ghost predicate ExactlyOnce(g: Group, db: Db) {
    exists history :: HandledOnce(db, history) && FromLogs(g, history)
  }

  /** The record decodes to a command whose id is in the processed table. */
  ghost predicate IsProcessed(db: Db, r: Record) {
    MapToTxCommand(r.message).Ok? && Tables.Handled(db, MapToTxCommand(r.message).value.Id())
  }

  lemma AppendIsDistinct(history: seq<Command>, cmd: Command)
    requires History.DistinctIds(history) && cmd.Id() !in History.Ids(history)
    ensures History.DistinctIds(history + [cmd])
    ensures History.Ids(history + [cmd]) == History.Ids(history) + {cmd.Id()}
  {
    forall i | 0 <= i < |history|
      ensures history[i].Id() in History.Ids(history)
    {
    }
    forall other
      ensures other in history + [cmd] <==> other in history || other == cmd
    {
    }
  }

  lemma AppendToHistory(history: seq<Command>, cmd: Command)
    requires HandledOnce(History.ReplayFrom(Tables.EMPTY, history), history)
    requires cmd.Id() !in History.Ids(history)
    ensures HandledOnce(Tables.Apply(History.ReplayFrom(Tables.EMPTY, history), cmd), history + [cmd])
  {
    AppendIsDistinct(history, cmd);
    History.ReplayConcat(Tables.EMPTY, history, [cmd]);
    History.ReplayMarks(Tables.EMPTY, history + [cmd]);
    assert ([cmd])[1..] == [];
  }

  lemma AppendFromLogs(g: Group, history: seq<Command>, cmd: Command)
    requires FromLogs(g, history) && InLogs(g, cmd)
    ensures FromLogs(g, history + [cmd])
  {
  }

  lemma ApplyOnce(history: seq<Command>, db: Db, cmd: Command)
    requires HandledOnce(db, history) && !Tables.Handled(db, cmd.Id())
    ensures HandledOnce(Tables.Apply(db, cmd), history + [cmd])
  {
    AppendToHistory(history, cmd);
  }

  lemma HistoryIsExactlyOnce(g: Group, db: Db, history: seq<Command>)
    requires HandledOnce(db, history) && FromLogs(g, history)
    ensures ExactlyOnce(g, db)
  {
  }

  lemma ApplyKeepsExactlyOnce(g: Group, db: Db, cmd: Command)
    requires ExactlyOnce(g, db) && InLogs(g, cmd)
    ensures ExactlyOnce(g, Tables.Apply(db, cmd))
  {
    if !Tables.Handled(db, cmd.Id()) {
      var history :| HandledOnce(db, history) && FromLogs(g, history);
      ApplyOnce(history, db, cmd);
      AppendFromLogs(g, history, cmd);
      HistoryIsExactlyOnce(g, Tables.Apply(db, cmd), history + [cmd]);
    }
  }

  /** Appending to a log takes nothing out of it. */
  ghost predicate LogsGrow(g: Group, after: Group) {
    forall tp, o | o in LogOf(g, tp) :: o in LogOf(after, tp) && LogOf(after, tp)[o] == LogOf(g, tp)[o]
  }

  lemma GrowthKeepsExactlyOnce(g: Group, after: Group, db: Db)
    requires ExactlyOnce(g, db) && LogsGrow(g, after)
    ensures ExactlyOnce(after, db)
  {
    var history :| HandledOnce(db, history) && FromLogs(g, history);
    forall cmd | cmd in history
      ensures InLogs(after, cmd)
    {
      assert InLogs(g, cmd);
      var tp, o :| o in LogOf(g, tp) && MapToTxCommand(LogOf(g, tp)[o].message) == Ok(cmd);
      assert o in LogOf(after, tp) && LogOf(after, tp)[o] == LogOf(g, tp)[o];
    }
    assert FromLogs(after, history);
  }

  lemma RecordStepMarks(db: Db, r: Record, result: HandlerResult, after: Db)
    requires Saga.RecordStep(db, r.message, result, after)
    ensures db.processed.Keys <= after.processed.Keys
    ensures result == Succeeded ==> IsProcessed(after, r)
  {
    var cmd := MapToTxCommand(r.message);
    if cmd.Ok? {
      Tables.ApplyMarks(db, cmd.value);
    }
  }

  lemma RecordStepKeeps(g: Group, db: Db, r: Record, result: HandlerResult, after: Db)
    requires ExactlyOnce(g, db) && Saga.RecordStep(db, r.message, result, after)
    requires r.offset in LogOf(g, r.TP()) && LogOf(g, r.TP())[r.offset] == r
    ensures ExactlyOnce(g, after)
    ensures db.processed.Keys <= after.processed.Keys
    ensures result == Succeeded ==> IsProcessed(after, r)
  {
    RecordStepMarks(db, r, result, after);
    if after != db {
      var cmd := MapToTxCommand(r.message).value;
      assert InLogs(g, cmd) && after == Tables.Apply(db, cmd);
      ApplyKeepsExactlyOnce(g, db, cmd);
    }
  }

  /** Every call of a poll is for a record of the log. */
  lemma CallIsInLog(g: Group, input: PollInput, j: nat)
    requires LogsWellFormed(g) && ValidInput(g, input) && j < |CallsOf(g, input)|
    ensures var r := CallsOf(g, input)[j]; r.offset in LogOf(g, r.TP()) && LogOf(g, r.TP())[r.offset] == r
  {
    var records := Flatten(input.fetches);
    CallsInOrder(records, Script(g, input), j);
    FlattenIsValid(g, input.fetches);
    assert CallsOf(g, input)[j] in records;
  }

  lemma ChainStepKeeps(g: Group, input: PollInput, db: Db, dbs: seq<Db>, n: nat)
    requires LogsWellFormed(g) && ValidInput(g, input) && n + 1 < |dbs|
    requires Chain(db, dbs, CallsOf(g, input), Script(g, input)) && ExactlyOnce(g, dbs[n])
    ensures ExactlyOnce(g, dbs[n + 1]) && dbs[n].processed.Keys <= dbs[n + 1].processed.Keys
    ensures Script(g, input)[n] == Succeeded ==> IsProcessed(dbs[n + 1], CallsOf(g, input)[n])
  {
    var calls, script := CallsOf(g, input), Script(g, input);
    CallIsInLog(g, input, n);
    assert Saga.RecordStep(dbs[n], calls[n].message, script[n], dbs[n + 1]);
    RecordStepKeeps(g, dbs[n], calls[n], script[n], dbs[n + 1]);
  }

  /** Every call up to n that returned nil was for a record that is processed by then. */
  ghost predicate SucceededAreProcessed(calls: seq<Record>, script: seq<HandlerResult>, n: nat, db: Db)
    requires n <= |calls| <= |script|
  {
    forall j | 0 <= j < n && script[j] == Succeeded :: IsProcessed(db, calls[j])
  }

  lemma {:induction false} ChainKeeps(g: Group, input: PollInput, db: Db, dbs: seq<Db>, n: nat)
    requires LogsWellFormed(g) && ValidInput(g, input)
    requires ExactlyOnce(g, db) && Chain(db, dbs, CallsOf(g, input), Script(g, input)) && n < |dbs|
    ensures ExactlyOnce(g, dbs[n]) && db.processed.Keys <= dbs[n].processed.Keys
    ensures SucceededAreProcessed(CallsOf(g, input), Script(g, input), n, dbs[n])
  {
    if n == 0 {
    } else {
      ChainKeeps(g, input, db, dbs, n - 1);
      ChainStepKeeps(g, input, db, dbs, n - 1);
      forall j | 0 <= j < n && Script(g, input)[j] == Succeeded
        ensures IsProcessed(dbs[n], CallsOf(g, input)[j])
      {
        assert j < n - 1 ==> IsProcessed(dbs[n - 1], CallsOf(g, input)[j]);
      }
    }
  }

  // ---- The system ----

  /** What every run keeps, whatever happens to the dead letters. */
  ghost predicate Inv(s: System) {
    && Ordered(s.group)
    && ExactlyOnce(s.group, s.db)
    && forall r | r in s.group.consumed :: IsProcessed(s.db, r)
  }

  /** A record counts as consumed only after a call for it returned nil. */
  lemma ConsumedWasCalled(g: Group, input: PollInput, r: Record) returns (j: nat)
    requires r in WithOutcome(Flatten(input.fetches), BatchOutcomes(g, input), Consumed)
    ensures j < |CallsOf(g, input)| && CallsOf(g, input)[j] == r && Script(g, input)[j] == Succeeded
  {
    var records, outcomes := Flatten(input.fetches), BatchOutcomes(g, input);
    WithOutcomeIff(records, outcomes, Consumed, r);
    var i :| 0 <= i < |outcomes| && records[i] == r && outcomes[i] == Consumed;
    j := SettlingCall(records, Script(g, input), i);
  }

  lemma PollConsumes(g: Group, input: PollInput)
    requires |input.published| == |DeadLetters(g, input)|
    ensures Poll(g, input).consumed
         == if input.closed || FatalErrors(input.errors) then g.consumed
            else g.consumed + WithOutcome(Flatten(input.fetches), BatchOutcomes(g, input), Consumed)
  {
    var batch := AfterBatch(g, input);
    if !input.closed && !FatalErrors(input.errors) {
      assert Poll(g, input).consumed == batch.consumed;
    }
  }

  lemma PolledKeepsTables(s: System, input: PollInput, dbs: seq<Db>)
    requires Inv(s) && Enabled(s, Polled(input, dbs))
    ensures ExactlyOnce(s.group, dbs[|dbs| - 1]) && s.db.processed.Keys <= dbs[|dbs| - 1].processed.Keys
  {
    if !input.closed && !FatalErrors(input.errors) {
      ChainKeeps(s.group, input, s.db, dbs, |dbs| - 1);
    }
  }

  lemma PolledIsProcessed(s: System, input: PollInput, dbs: seq<Db>, r: Record)
    requires Inv(s) && Enabled(s, Polled(input, dbs)) && r in Poll(s.group, input).consumed
    ensures IsProcessed(dbs[|dbs| - 1], r)
  {
    PollConsumes(s.group, input);
    if r in s.group.consumed {
      PolledKeepsTables(s, input, dbs);
      assert IsProcessed(s.db, r);
    } else {
      ChainKeeps(s.group, input, s.db, dbs, |dbs| - 1);
      var j := ConsumedWasCalled(s.group, input, r);
    }
  }

  lemma PolledKeeps(s: System, input: PollInput, dbs: seq<Db>)
    requires Inv(s) && Enabled(s, Polled(input, dbs))
    ensures Inv(Next(s, Polled(input, dbs)))
  {
    var after := Next(s, Polled(input, dbs));
    PollKeepsOrder(s.group, input);
    PollKeepsLogs(s.group, input);
    PolledKeepsTables(s, input, dbs);
    GrowthKeepsExactlyOnce(s.group, after.group, after.db);
    forall r | r in after.group.consumed
      ensures IsProcessed(after.db, r)
    {
      PolledIsProcessed(s, input, dbs, r);
    }
  }

  lemma CrashKeepsOffsets(s: System, e: Event)
    requires Ordered(s.group) && e.Crashed? && Enabled(s, e)
    ensures Ordered(Next(s, e).group)
    ensures NoLoss(s.group) ==> NoLoss(Next(s, e).group)
  {
    var after := Next(s, e);
    forall tp
      ensures OrderedAt(after.group, tp)
      ensures NoLoss(s.group) ==> SafeBelow(after.group, tp, At(after.group.committed, tp))
    {
      assert OrderedAt(s.group, tp);
      assert LogOf(after.group, tp) == LogOf(s.group, tp);
    }
  }

  lemma CrashKeeps(s: System, e: Event)
    requires Inv(s) && e.Crashed? && Enabled(s, e)
    ensures Inv(Next(s, e))
  {
    var after := Next(s, e);
    CrashKeepsOffsets(s, e);
    ChainKeeps(s.group, e.input, s.db, e.dbs, |e.dbs| - 1);
    GrowthKeepsExactlyOnce(s.group, after.group, after.db);
    forall r | r in after.group.consumed
      ensures IsProcessed(after.db, r)
    {
      assert IsProcessed(s.db, r);
    }
  }

  lemma GroupEventKeeps(s: System, event: GroupRuns.Event)
    requires Inv(s) && !event.PollOnce? && GroupRuns.Enabled(s.group, event)
    ensures Inv(s.(group := GroupRuns.Next(s.group, event)))
    ensures NoLoss(s.group) ==> NoLoss(GroupRuns.Next(s.group, event))
  {
    var after := GroupRuns.Next(s.group, event);
    match event {
      case Append(record) => AppendKeeps(s.group, record);
      case _ => ResumeKeeps(s.group, event);
    }
    GrowthKeepsExactlyOnce(s.group, after, s.db);
  }

  lemma StepKeepsInv(s: System, e: Event)
    requires Inv(s) && Enabled(s, e)
    ensures Inv(Next(s, e))
    ensures NoLoss(s.group) && (e.Polled? ==> HeadsCovered(s.group, e.input)) ==> NoLoss(Next(s, e).group)
  {
    match e {
      case GroupEvent(event) => GroupEventKeeps(s, event);
      case Polled(input, dbs) =>
        PolledKeeps(s, input, dbs);
        if NoLoss(s.group) {
          NoLossIff(s.group, input);
        }
      case Crashed(_, _, _) =>
        CrashKeeps(s, e);
        CrashKeepsOffsets(s, e);
    }
  }

  lemma {:induction false} RunKeepsInv(s: System, events: seq<Event>)
    requires Inv(s) && ValidRun(s, events)
    ensures Inv(Run(s, events))
    ensures NoLoss(s.group) && Guarded(s, events) ==> NoLoss(Run(s, events).group)
    decreases |events|
  {
    if events == [] {
    } else {
      StepKeepsInv(s, events[0]);
      RunKeepsInv(Next(s, events[0]), events[1..]);
    }
  }

  /** Where a system starts: some logs, nothing consumed, empty tables. */
  ghost predicate Initial(s: System) {
    && LogsWellFormed(s.group) && s.group.committed == map[] && s.group.position == map[]
    && (forall tp, o | o in LogOf(s.group, tp) :: 0 <= o)
    && s.group.consumed == [] && s.group.dlq == [] && s.db == Tables.EMPTY
  }

  lemma InitialInv(s: System)
    requires Initial(s)
    ensures Inv(s) && NoLoss(s.group)
  {
    assert History.Ids([]) == {};
    assert HandledOnce(s.db, []) && FromLogs(s.group, []);
  }

  /** In every state reached by polls, retries, rollbacks, commits that succeed but report failure,
      cancelled batches, rebalances, crashes and restarts, the tables are those of handling commands
      of the logs, every processed id exactly once, and what counts as consumed is processed. */
  lemma ExactlyOnceTables(s: System, events: seq<Event>)
    requires Initial(s) && ValidRun(s, events)
    ensures var end := Run(s, events);
            && (forall r | r in end.group.consumed :: IsProcessed(end.db, r))
            && exists history :: HandledOnce(end.db, history) && FromLogs(end.group, history)
  {
    InitialInv(s);
    RunKeepsInv(s, events);
    assert ExactlyOnce(Run(s, events).group, Run(s, events).db);
  }

  /** End-to-end exactly-once effect: under the guard of NoLossIff, moreover, every record below a
      committed offset is on the dead-letter topic or has its id in the processed table. */
  lemma ExactlyOnceEffect(s: System, events: seq<Event>, tp: TopicPartition, o: int)
    requires Initial(s) && ValidRun(s, events) && Guarded(s, events)
    ensures var end := Run(s, events);
            && (o in LogOf(end.group, tp) && o < At(end.group.committed, tp) ==>
                  var r := LogOf(end.group, tp)[o];
                  r in end.group.dlq || IsProcessed(end.db, r))
            && exists history :: HandledOnce(end.db, history) && FromLogs(end.group, history)
  {
    InitialInv(s);
    RunKeepsInv(s, events);
    ExactlyOnceTables(s, events);
    assert SafeBelow(Run(s, events).group, tp, At(Run(s, events).group.committed, tp));
  }

  // ---- What is dead-lettered ----

  /** The attempts behind the answers of a poll's calls. */
  ghost predicate Attempted(dbs: seq<Db>, calls: seq<Record>, script: seq<HandlerResult>, attempts: seq<Saga.Attempt>) {
    && |attempts| == |dbs| - 1 <= |calls| <= |script|
    && forall j | 0 <= j < |attempts| :: Saga.AttemptStep(dbs[j], calls[j].message, attempts[j], script[j], dbs[j + 1])
  }

  /** A decodable record is dead-lettered only by an attempt whose error was not classified as transient,
      and that attempt is the last one at the record: later calls are for later records. */
  lemma DeadLetterFailedForGood(g: Group, input: PollInput, dbs: seq<Db>, attempts: seq<Saga.Attempt>, i: nat)
    returns (j: nat)
    requires |dbs| == |CallsOf(g, input)| + 1 && Attempted(dbs, CallsOf(g, input), Script(g, input), attempts)
    requires i < |BatchOutcomes(g, input)| && BatchOutcomes(g, input)[i] == DeadLettered
    ensures j < |attempts| && CallsOf(g, input)[j] == Flatten(input.fetches)[i] && Script(g, input)[j] == Permanent
    ensures MapToTxCommand(Flatten(input.fetches)[i].message).Ok? ==> !attempts[j].transient
    ensures |Outcomes(|Flatten(input.fetches)|, Script(g, input)[..j + 1])| == i + 1
  {
    j := SettlingCall(Flatten(input.fetches), Script(g, input), i);
    var r := CallsOf(g, input)[j];
    assert Saga.AttemptStep(dbs[j], r.message, attempts[j], Script(g, input)[j], dbs[j + 1]);
  }

  /** A transient error is answered with another call for the same record, as long as the context lasts. */
  lemma TransientIsRetried(g: Group, input: PollInput, dbs: seq<Db>, attempts: seq<Saga.Attempt>, j: nat)
    requires |dbs| == |CallsOf(g, input)| + 1 && Attempted(dbs, CallsOf(g, input), Script(g, input), attempts)
    requires j < |attempts| && attempts[j].transient && Script(g, input)[j] != Succeeded
    requires MapToTxCommand(CallsOf(g, input)[j].message).Ok?
    ensures Script(g, input)[j] == Transient
    ensures j + 1 < |Script(g, input)| ==>
              j + 1 < |CallsOf(g, input)| && CallsOf(g, input)[j + 1] == CallsOf(g, input)[j]
  {
    assert Saga.AttemptStep(dbs[j], CallsOf(g, input)[j].message, attempts[j], Script(g, input)[j], dbs[j + 1]);
    if j + 1 < |Script(g, input)| {
      NextCallIsSame(Flatten(input.fetches), Script(g, input), j);
    }
  }

  /** Calls follow the log: when the handler is called for a record, every record of its partition with
      a smaller offset was settled by an earlier batch, or earlier in the same one. */
  lemma CallsFollowTheLog(g: Group, input: PollInput, j: nat, o: int)
    requires LogsWellFormed(g) && NothingSkipped(g) && g.running && ValidInput(g, input)
    requires j < |CallsOf(g, input)|
    requires var r := CallsOf(g, input)[j]; o in LogOf(g, r.TP()) && o < r.offset
    ensures var r, records := CallsOf(g, input)[j], Flatten(input.fetches);
            var settled := Outcomes(|records|, Script(g, input)[..j]);
            LogOf(g, r.TP())[o] in g.settled || LogOf(g, r.TP())[o] in records[..|settled|]
  {
    var r, records := CallsOf(g, input)[j], Flatten(input.fetches);
    CallsInOrder(records, Script(g, input), j);
    var k := |Outcomes(|records|, Script(g, input)[..j])|;
    FlattenIsValid(g, input.fetches);
    if o < At(g.position, r.TP()) {
      assert DecidedAt(g, r.TP());
    } else {
      var i := EarlierInBatch(g, records, k, o);
      assert records[..k][i] == records[i];
    }
  }
}
