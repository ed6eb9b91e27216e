/** Concrete runs of the choreography that show what the hypotheses of the convergence results keep out. */
module ConvergenceSamples {
  import opened Kafka
  import opened Codec
  import opened Batch
  import opened Tables
  import opened TopicLog
  import opened Validation
  import opened Transactions
  import opened Choreography
  import opened Convergence

  const CMD := RegisterCommand("t", "player", "EUR", 0, 5)
  const KEY := Key("player", "EUR", 0)
  const REGISTER := NewRegisterMessage(CMD)
  const FIRST := NewUnregisterMessage("u", 1, CMD)
  const SECOND := NewUnregisterMessage("v", 2, CMD)

  function Rejecting(id: string, now: int, commit: CommitOutcome): Attempt {
    Attempt(true, true, Some(false), Some(id), now, Acknowledged, true, commit, true)
  }

  function Ignoring(): Attempt {
    Attempt(true, true, None, None, 0, Acknowledged, true, Committed, true)
  }

  lemma Decodings()
    ensures Decoded(REGISTER) == Some(Register(CMD)) && MapToRegisterCommand(REGISTER) == Ok(Some(CMD))
    ensures Decoded(FIRST) == Some(Unregister("u", 1, CMD)) && MapToRegisterCommand(FIRST) == Ok(None)
    ensures Decoded(SECOND) == Some(Unregister("v", 2, CMD)) && MapToRegisterCommand(SECOND) == Ok(None)
    ensures KeyOf(CMD) == KEY
    ensures "t" != "u" && "t" != "v" && "u" != "v"
  {
    RegisterRoundTrip(CMD);
    UnregisterRoundTrip("u", 1, CMD);
    UnregisterRoundTrip("v", 2, CMD);
    assert "t"[0] != "u"[0] && "t"[0] != "v"[0] && "u"[0] != "v"[0];
  }

  lemma Cons(w: World, e: Event, rest: seq<Event>)
    requires Enabled(w, e) && ValidRun(Next(w, e), rest)
    ensures ValidRun(w, [e] + rest) && Run(w, [e] + rest) == Run(Next(w, e), rest)
    ensures AllHandle(w, [e] + rest) <==> Handles(w, e) && AllHandle(Next(w, e), rest)
    ensures AllKeepPublished(w, [e] + rest) <==> KeepsPublished(w, e) && AllKeepPublished(Next(w, e), rest)
  {
    assert ([e] + rest)[1..] == rest;
  }

  lemma Nothing(w: World)
    ensures ValidRun(w, []) && Run(w, []) == w && AllHandle(w, []) && AllKeepPublished(w, [])
  {
  }

  const PRODUCED := START.(log := [REGISTER])
  const ONE := [REGISTER, FIRST]
  const TWO := [REGISTER, FIRST, SECOND]
  const NO := map["t" := Verdict(false, CMD)]
  const EXECUTED := Apply(EMPTY, Register(CMD))
  const UNDONE := Apply(EXECUTED, Unregister("u", 1, CMD))
  const UNDONE_TWICE := Apply(UNDONE, Unregister("v", 2, CMD))
  const SHORT := Apply(EMPTY, Unregister("u", 1, CMD))

  lemma Balances()
    ensures Value(SHORT, KEY) == -5 && Value(UNDONE_TWICE, KEY) == -5
  {
    Decodings();
    ApplyMarks(EMPTY, Unregister("u", 1, CMD));
    ApplyMarks(EMPTY, Register(CMD));
    ApplyMarks(EXECUTED, Unregister("u", 1, CMD));
    ApplyMarks(UNDONE, Unregister("v", 2, CMD));
  }

  lemma Settles(end: World, log: seq<Message>, db: Db, all: set<nat>)
    requires end == World(log, db, all, NO, all, map[]) && forall i: nat | i < |log| :: i in all
    requires db == SHORT || db == UNDONE_TWICE
    ensures Settled(end) && Value(end.db, KEY) == -5
  {
    Balances();
  }

  // ---- A dead-lettered register ----

  const DEAD_LETTERED := World([REGISTER], EMPTY, {0}, map[], {}, map[])
  const REJECTED := World(ONE, EMPTY, {0}, NO, {0}, map[])

  lemma CompensationIsPublished() returns (events: seq<Event>)
    ensures ValidRun(DEAD_LETTERED, events) && AllKeepPublished(DEAD_LETTERED, events)
    ensures Run(DEAD_LETTERED, events) == REJECTED
  {
    Decodings();
    var attempt := Rejecting("u", 1, Committed);
    var w1 := World(ONE, EMPTY, {0}, map[], {}, map["t" := FIRST]);
    var e1, e2 := Publish(0, attempt, FIRST), Finish(0, attempt, Succeeded, {"t"});
    assert Next(DEAD_LETTERED, e1) == w1;
    assert Next(w1, e2) == REJECTED;
    Nothing(REJECTED);
    Cons(w1, e2, []);
    Cons(DEAD_LETTERED, e1, [e2]);
    events := [e1] + [e2];
  }

  lemma CompensationIsConsumed() returns (events: seq<Event>)
    ensures ValidRun(REJECTED, events) && AllKeepPublished(REJECTED, events)
    ensures Run(REJECTED, events) == World(ONE, SHORT, {0, 1}, NO, {0, 1}, map[])
  {
    Decodings();
    var w1 := World(ONE, SHORT, {0, 1}, NO, {0}, map[]);
    var e1, e2 := Consume(1, Succeeded, SHORT), Finish(1, Ignoring(), Succeeded, {"t"});
    assert Next(REJECTED, e1) == w1;
    assert Next(w1, e2) == World(ONE, SHORT, {0, 1}, NO, {0, 1}, map[]);
    Nothing(Next(w1, e2));
    Cons(w1, e2, []);
    Cons(REJECTED, e1, [e2]);
    events := [e1] + [e2];
  }

  /** A register that is dead-lettered while its compensation goes through leaves a negative aggregate. */
  lemma DeadLetteredRegister() returns (events: seq<Event>)
    ensures ValidRun(START, events) && AllKeepPublished(START, events) && !AllHandle(START, events)
    ensures Settled(Run(START, events)) && Value(Run(START, events).db, KEY) == -5
  {
    var register := RegisterIsDeadLettered();
    var publish := CompensationIsPublished();
    var consume := CompensationIsConsumed();
    Concat(DEAD_LETTERED, publish, consume);
    Concat(START, register, publish + consume);
    events := register + (publish + consume);
    Settles(Run(START, events), ONE, SHORT, {0, 1});
  }

  lemma RegisterIsDeadLettered() returns (events: seq<Event>)
    ensures ValidRun(START, events) && AllKeepPublished(START, events) && !AllHandle(START, events)
    ensures Run(START, events) == DEAD_LETTERED
  {
    Decodings();
    var e1, e2 := Produce(REGISTER), Consume(0, Permanent, EMPTY);
    assert Next(START, e1) == PRODUCED;
    assert Next(PRODUCED, e2) == DEAD_LETTERED;
    Nothing(DEAD_LETTERED);
    Cons(PRODUCED, e2, []);
    Cons(START, e1, [e2]);
    events := [e1] + [e2];
  }

  // ---- A rollback after a publish ----

  const CONSUMED := World([REGISTER], EXECUTED, {0}, map[], {}, map[])
  const ROLLED_BACK := World(ONE, EXECUTED, {0}, map[], {}, map[])
  const JUDGED := World(TWO, EXECUTED, {0}, NO, {0}, map[])

  lemma FirstAttempt() returns (events: seq<Event>)
    ensures ValidRun(CONSUMED, events) && AllHandle(CONSUMED, events) && !AllKeepPublished(CONSUMED, events)
    ensures Run(CONSUMED, events) == ROLLED_BACK
  {
    Decodings();
    var attempt := Rejecting("u", 1, CommitFailed);
    var w1 := World(ONE, EXECUTED, {0}, map[], {}, map["t" := FIRST]);
    var e1, e2 := Publish(0, attempt, FIRST), Finish(0, attempt, Transient, {});
    assert Next(CONSUMED, e1) == w1;
    assert Next(w1, e2) == ROLLED_BACK;
    Nothing(ROLLED_BACK);
    Cons(w1, e2, []);
    Cons(CONSUMED, e1, [e2]);
    events := [e1] + [e2];
  }

  lemma SecondAttempt() returns (events: seq<Event>)
    ensures ValidRun(ROLLED_BACK, events) && AllHandle(ROLLED_BACK, events)
    ensures Run(ROLLED_BACK, events) == JUDGED
  {
    Decodings();
    var attempt := Rejecting("v", 2, Committed);
    var w1 := World(TWO, EXECUTED, {0}, map[], {}, map["t" := SECOND]);
    var e1, e2 := Publish(0, attempt, SECOND), Finish(0, attempt, Succeeded, {"t"});
    assert ONE + [SECOND] == TWO;
    assert Next(ROLLED_BACK, e1) == w1;
    assert Next(w1, e2) == JUDGED;
    Nothing(JUDGED);
    Cons(w1, e2, []);
    Cons(ROLLED_BACK, e1, [e2]);
    events := [e1] + [e2];
  }

  const CAUGHT_UP := World(TWO, UNDONE_TWICE, {0, 1, 2}, NO, {0}, map[])
  const END := World(TWO, UNDONE_TWICE, {0, 1, 2}, NO, {0, 1, 2}, map[])

  lemma FirstIsConsumed(w1: World, e: Event)
    requires w1 == World(TWO, UNDONE, {0, 1}, NO, {0}, map[]) && e == Consume(1, Succeeded, UNDONE)
    ensures Enabled(JUDGED, e) && Next(JUDGED, e) == w1 && Handles(JUDGED, e)
  {
    Decodings();
  }

  lemma SecondIsConsumed(w1: World, e: Event)
    requires w1 == World(TWO, UNDONE, {0, 1}, NO, {0}, map[]) && e == Consume(2, Succeeded, UNDONE_TWICE)
    ensures Enabled(w1, e) && Next(w1, e) == CAUGHT_UP && Handles(w1, e)
  {
    Decodings();
  }

  lemma ConsumerCatchesUp() returns (events: seq<Event>)
    ensures ValidRun(JUDGED, events) && AllHandle(JUDGED, events) && Run(JUDGED, events) == CAUGHT_UP
  {
    var w1 := World(TWO, UNDONE, {0, 1}, NO, {0}, map[]);
    var e1, e2 := Consume(1, Succeeded, UNDONE), Consume(2, Succeeded, UNDONE_TWICE);
    FirstIsConsumed(w1, e1);
    SecondIsConsumed(w1, e2);
    Nothing(CAUGHT_UP);
    Cons(w1, e2, []);
    Cons(JUDGED, e1, [e2]);
    events := [e1] + [e2];
  }

  lemma ValidatorCatchesUp() returns (events: seq<Event>)
    ensures ValidRun(CAUGHT_UP, events) && AllHandle(CAUGHT_UP, events) && Run(CAUGHT_UP, events) == END
  {
    Decodings();
    var w1 := World(TWO, UNDONE_TWICE, {0, 1, 2}, NO, {0, 1}, map[]);
    var e1, e2 := Finish(1, Ignoring(), Succeeded, {"t"}), Finish(2, Ignoring(), Succeeded, {"t"});
    assert Next(CAUGHT_UP, e1) == w1;
    assert Next(w1, e2) == END;
    Nothing(END);
    Cons(w1, e2, []);
    Cons(CAUGHT_UP, e1, [e2]);
    events := [e1] + [e2];
  }

  lemma BothAreConsumed() returns (events: seq<Event>)
    ensures ValidRun(JUDGED, events) && AllHandle(JUDGED, events) && Run(JUDGED, events) == END
  {
    var consumes := ConsumerCatchesUp();
    var finishes := ValidatorCatchesUp();
    Concat(JUDGED, consumes, finishes);
    events := consumes + finishes;
  }

  lemma BothAttempts() returns (events: seq<Event>)
    ensures ValidRun(CONSUMED, events) && AllHandle(CONSUMED, events) && !AllKeepPublished(CONSUMED, events)
    ensures Run(CONSUMED, events) == END
  {
    var first := FirstAttempt();
    var second := SecondAttempt();
    var consume := BothAreConsumed();
    Concat(ROLLED_BACK, second, consume);
    Concat(CONSUMED, first, second + consume);
    events := first + (second + consume);
  }

  lemma RegisterIsConsumed() returns (events: seq<Event>)
    ensures ValidRun(START, events) && AllHandle(START, events) && Run(START, events) == CONSUMED
  {
    Decodings();
    var e1, e2 := Produce(REGISTER), Consume(0, Succeeded, EXECUTED);
    assert Next(START, e1) == PRODUCED;
    assert Next(PRODUCED, e2) == CONSUMED;
    Nothing(CONSUMED);
    Cons(PRODUCED, e2, []);
    Cons(START, e1, [e2]);
    events := [e1] + [e2];
  }

  lemma AttemptsAfterRegister(start: World) returns (events: seq<Event>)
    requires start == START
    ensures ValidRun(start, events) && AllHandle(start, events) && !AllKeepPublished(start, events)
    ensures Run(start, events) == END
  {
    var register := RegisterIsConsumed();
    var attempts := BothAttempts();
    Concat(start, register, attempts);
    events := register + attempts;
  }

  /** The validator publishes a compensation, rolls back, and on redelivery publishes another: every
      command is handled once, and the transaction is taken off twice. */
  lemma RollbackAfterPublish() returns (events: seq<Event>)
    ensures ValidRun(START, events) && AllHandle(START, events) && !AllKeepPublished(START, events)
    ensures Settled(Run(START, events)) && Value(Run(START, events).db, KEY) == -5
  {
    events := AttemptsAfterRegister(START);
    Settles(Run(START, events), TWO, UNDONE_TWICE, {0, 1, 2});
  }
}
