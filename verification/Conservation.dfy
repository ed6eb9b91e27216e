/** What the tables say about each other, and what the alarms say about the aggregates. */
module Conservation {
  import opened Codec
  import opened Tables
  import opened History

  // ---- Aggregates against log rows ----

  function RowShare(row: LogRow, key: Key): int {
    if row.key == key then row.value else 0
  }

  /** The sum of the logged values of one aggregate. */
  ghost function SumRows(logs: map<string, LogRow>, key: Key): int
    decreases |logs|
  {
    if |logs| == 0 then 0
    else
      var t := SomeKey(logs);
      RowShare(logs[t], key) + SumRows(logs - {t}, key)
  }

  lemma HasKey(logs: map<string, LogRow>)
    requires |logs| != 0
    ensures exists t :: t in logs
  {
    assert (forall t :: t !in logs) ==> logs == map[];
  }

  ghost function SomeKey(logs: map<string, LogRow>): (t: string)
    requires |logs| != 0
    ensures t in logs
  {
    HasKey(logs);
    var t :| t in logs;
    t
  }

  /** The sum may be taken in any order. */
  lemma {:induction false} SumRowsRemove(logs: map<string, LogRow>, t: string, key: Key)
    requires t in logs
    ensures SumRows(logs, key) == RowShare(logs[t], key) + SumRows(logs - {t}, key)
    decreases |logs|
  {
    var s := SomeKey(logs);
    if s != t {
      SumRowsRemove(logs - {s}, t, key);
      SumRowsRemove(logs - {t}, s, key);
      assert logs - {s} - {t} == logs - {t} - {s};
    }
  }

  lemma SumRowsInsert(logs: map<string, LogRow>, t: string, row: LogRow, key: Key)
    requires t !in logs
    ensures SumRows(logs[t := row], key) == SumRows(logs, key) + RowShare(row, key)
  {
    SumRowsRemove(logs[t := row], t, key);
    assert logs[t := row] - {t} == logs;
  }

  /** The values compensated in a history. */
  function SumUndone(commands: seq<Command>, key: Key): int {
    if commands == [] then 0
    else (if commands[0].Unregister? then Share(commands[0], key) else 0) + SumUndone(commands[1..], key)
  }

  lemma {:induction false} ConservationFrom(db: Db, commands: seq<Command>, key: Key)
    requires Integrity(db) && Fresh(db, commands)
    ensures var after := ReplayFrom(db, commands);
            Value(after, key) - SumRows(after.logs, key)
            == Value(db, key) - SumRows(db.logs, key) - SumUndone(commands, key)
    decreases |commands|
  {
    if commands == [] {
    } else {
      var cmd := commands[0];
      FreshStep(db, commands);
      ApplyKeepsIntegrity(db, cmd);
      ApplyMarks(db, cmd);
      ConservationFrom(Apply(db, cmd), commands[1..], key);
      if cmd.Register? && !Compensated(db, cmd.Id()) {
        SumRowsInsert(db.logs, cmd.Id(), RowOf(cmd.register), key);
      }
    }
  }

  /** Conservation: in every reachable database the aggregate is the sum of its log rows minus what was
      compensated, the count is log rows minus compensating rows, and the schema's keys hold. */
  lemma Conserved(trace: seq<Delivery>, key: Key)
    ensures var db, commands := Deliver(EMPTY, trace), FirstCommitted(trace, {});
            && Value(db, key) == SumRows(db.logs, key) - SumUndone(commands, key)
            && Integrity(db)
  {
    var commands := FirstCommitted(trace, {});
    assert EMPTY.processed.Keys == {} && Integrity(EMPTY);
    RedeliveryRefinement(EMPTY, trace);
    ConservationFrom(EMPTY, commands, key);
    ReplayKeepsIntegrity(EMPTY, commands);
    assert SumRows(EMPTY.logs, key) == 0 && Value(EMPTY, key) == 0;
  }

  // ---- Alarms against aggregates ----

  /** The alarms of the committed runs, in order. */
  function Emissions(db: Db, commands: seq<Command>, threshold: int): seq<Emission>
    decreases |commands|
  {
    if commands == [] then []
    else Emits(db, commands[0], threshold) + Emissions(Apply(db, commands[0]), commands[1..], threshold)
  }

  function OfKey(emissions: seq<Emission>, key: Key): seq<Emission> {
    if emissions == [] then []
    else (if emissions[0].key == key then [emissions[0]] else []) + OfKey(emissions[1..], key)
  }

  /** Starting above or below the threshold, clears and raises alternate. */
  predicate Alternates(emissions: seq<Emission>, above: bool) {
    emissions != [] ==>
      emissions[0].Clear? == above && Alternates(emissions[1..], !above)
  }

  function Raises(emissions: seq<Emission>): nat {
    if emissions == [] then 0 else (if emissions[0].Raise? then 1 else 0) + Raises(emissions[1..])
  }

  function Clears(emissions: seq<Emission>): nat {
    if emissions == [] then 0 else (if emissions[0].Clear? then 1 else 0) + Clears(emissions[1..])
  }

  function Bit(b: bool): int {
    if b then 1 else 0
  }

  lemma {:induction false} OfKeyConcat(a: seq<Emission>, b: seq<Emission>, key: Key)
    ensures OfKey(a + b, key) == OfKey(a, key) + OfKey(b, key)
  {
    if a == [] {
      assert a + b == b;
    } else {
      assert (a + b)[1..] == a[1..] + b;
      OfKeyConcat(a[1..], b, key);
    }
  }

  /** One run emits at most one alarm, and exactly when its aggregate crosses the threshold. */
  lemma EmitsOnCrossing(db: Db, cmd: Command, threshold: int, key: Key)
    ensures var before, after := Value(db, key) >= threshold, Value(Apply(db, cmd), key) >= threshold;
            var own := OfKey(Emits(db, cmd, threshold), key);
            && (before == after ==> own == [])
            && (before != after ==> |own| == 1 && own[0].Clear? == before)
            && (own != [] && own[0].Raise? ==>
                  own[0].alarmValue == threshold && own[0].value == Value(Apply(db, cmd), key))
  {
    ApplyMarks(db, cmd);
    var emitted := Emits(db, cmd, threshold);
    if emitted != [] {
      assert emitted[1..] == [];
    }
  }

  /** Alarm alternation: over any committed run, the raises and clears of every aggregate strictly
      alternate, and raises minus clears says on which side of the threshold it stands. */
  lemma {:induction false} AlarmsAlternate(db: Db, commands: seq<Command>, threshold: int, key: Key)
    ensures var own := OfKey(Emissions(db, commands, threshold), key);
            var before, after := Value(db, key) >= threshold, Value(ReplayFrom(db, commands), key) >= threshold;
            Alternates(own, before) && Raises(own) - Clears(own) == Bit(after) - Bit(before)
    decreases |commands|
  {
    if commands == [] {
    } else {
      var cmd := commands[0];
      var first, rest := Emits(db, cmd, threshold), Emissions(Apply(db, cmd), commands[1..], threshold);
      AlarmsAlternate(Apply(db, cmd), commands[1..], threshold, key);
      EmitsOnCrossing(db, cmd, threshold, key);
      OfKeyConcat(first, rest, key);
      var own := OfKey(first, key);
      if own == [] {
        assert OfKey(first, key) + OfKey(rest, key) == OfKey(rest, key);
      } else {
        assert (own + OfKey(rest, key))[1..] == OfKey(rest, key);
      }
    }
  }

  lemma {:induction false} InOfKey(emissions: seq<Emission>, e: Emission)
    requires e in emissions
    ensures e in OfKey(emissions, e.key)
  {
    if emissions[0] != e {
      InOfKey(emissions[1..], e);
    }
  }

  /** Every raise of a committed run carries the threshold and the aggregate as it was stored right after
      the command it came from. */
  lemma {:induction false} RaisesCarryValues(db: Db, commands: seq<Command>, threshold: int, e: Emission)
    returns (n: nat)
    requires e in Emissions(db, commands, threshold) && e.Raise?
    ensures n < |commands| && e in Emits(ReplayFrom(db, commands[..n]), commands[n], threshold)
    ensures e.alarmValue == threshold && e.value == Value(ReplayFrom(db, commands[..n + 1]), e.key) >= threshold
    decreases |commands|
  {
    var cmd := commands[0];
    if e in Emits(db, cmd, threshold) {
      n := 0;
      InOfKey(Emits(db, cmd, threshold), e);
      EmitsOnCrossing(db, cmd, threshold, e.key);
      assert commands[..0] == [] && commands[..1] == [cmd] && [cmd][1..] == [];
      assert ReplayFrom(db, commands[..1]) == Apply(db, cmd);
    } else {
      var m := RaisesCarryValues(Apply(db, cmd), commands[1..], threshold, e);
      n := m + 1;
      ReplayPrefix(db, commands, m);
      ReplayPrefix(db, commands, m + 1);
    }
  }

  lemma ReplayPrefix(db: Db, commands: seq<Command>, m: nat)
    requires m < |commands|
    ensures ReplayFrom(db, commands[..m + 1]) == ReplayFrom(Apply(db, commands[0]), commands[1..][..m])
  {
    assert commands[..m + 1][1..] == commands[1..][..m];
  }

  // ---- The alarms topic ----

  /** An attempt, seen from the tables and from the topic: a rolled-back attempt may have published. */
  datatype Attempted = Attempted(cmd: Command, committed: bool, published: seq<Emission>)

  ghost predicate ValidAttempt(db: Db, attempt: Attempted, threshold: int) {
    && attempt.published <= Emits(db, attempt.cmd, threshold)
    && (attempt.committed ==> attempt.published == Emits(db, attempt.cmd, threshold))
  }

  function AfterAttempt(db: Db, attempt: Attempted): Db {
    if attempt.committed then Apply(db, attempt.cmd) else db
  }

  ghost predicate ValidAttempts(db: Db, attempts: seq<Attempted>, threshold: int)
    decreases |attempts|
  {
    attempts != [] ==>
      && ValidAttempt(db, attempts[0], threshold)
      && ValidAttempts(AfterAttempt(db, attempts[0]), attempts[1..], threshold)
  }

  function Topic(attempts: seq<Attempted>): seq<Emission> {
    if attempts == [] then [] else attempts[0].published + Topic(attempts[1..])
  }

  function Trace(attempts: seq<Attempted>): seq<Delivery> {
    if attempts == [] then []
    else [Delivery(attempts[0].cmd, attempts[0].committed)] + Trace(attempts[1..])
  }

  predicate Subsequence(a: seq<Emission>, b: seq<Emission>) {
    a == [] || (b != [] && ((a[0] == b[0] && Subsequence(a[1..], b[1..])) || Subsequence(a, b[1..])))
  }

  lemma {:induction false} PrependSame(x: seq<Emission>, a: seq<Emission>, b: seq<Emission>)
    requires Subsequence(a, b)
    ensures Subsequence(x + a, x + b)
  {
    if x == [] {
      assert x + a == a && x + b == b;
    } else {
      PrependSame(x[1..], a, b);
      assert (x + a)[1..] == x[1..] + a && (x + b)[1..] == x[1..] + b;
    }
  }

  lemma {:induction false} PrependAny(x: seq<Emission>, a: seq<Emission>, b: seq<Emission>)
    requires Subsequence(a, b)
    ensures Subsequence(a, x + b)
  {
    if x == [] {
      assert x + b == b;
    } else {
      PrependAny(x[1..], a, b);
      assert (x + b)[1..] == x[1..] + b;
    }
  }

  /** Alarms are not rolled back: the topic holds the committed alarms in order, possibly with extra
      ones in between. */
  lemma {:induction false} TopicContainsCommitted(db: Db, attempts: seq<Attempted>, threshold: int)
    requires ValidAttempts(db, attempts, threshold)
    ensures Subsequence(Emissions(db, FirstCommitted(Trace(attempts), db.processed.Keys), threshold), Topic(attempts))
    decreases |attempts|
  {
    if attempts == [] {
    } else {
      var first, rest := attempts[0], attempts[1..];
      var after := AfterAttempt(db, first);
      TopicContainsCommitted(after, rest, threshold);
      assert Trace(attempts)[1..] == Trace(rest);
      ApplyMarks(db, first.cmd);
      if first.committed && !Handled(db, first.cmd.Id()) {
        var later := FirstCommitted(Trace(rest), after.processed.Keys);
        assert FirstCommitted(Trace(attempts), db.processed.Keys) == [first.cmd] + later;
        assert ([first.cmd] + later)[1..] == later;
        PrependSame(first.published, Emissions(after, later, threshold), Topic(rest));
      } else {
        var later := FirstCommitted(Trace(rest), after.processed.Keys);
        PrependAny(first.published, Emissions(after, later, threshold), Topic(rest));
      }
    }
  }
}
