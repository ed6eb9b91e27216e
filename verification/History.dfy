/** What the tables hold after any sequence of deliveries, with redelivery, rollback and commits that
    are reported as failed. */
module History {
  import opened Kafka
  import opened Codec
  import opened Tables

  /** Successful runs of the handler, one after the other. */
  function ReplayFrom(db: Db, commands: seq<Command>): Db
    decreases |commands|
  {
    if commands == [] then db else ReplayFrom(Apply(db, commands[0]), commands[1..])
  }

  ghost function Ids(commands: seq<Command>): set<string> {
    set cmd | cmd in commands :: cmd.Id()
  }

  ghost predicate DistinctIds(commands: seq<Command>) {
    forall i, j | 0 <= i < j < |commands| :: commands[i].Id() != commands[j].Id()
  }

  /** New to the database: no id repeated, none handled before. */
  ghost predicate Fresh(db: Db, commands: seq<Command>) {
    DistinctIds(commands) && forall cmd | cmd in commands :: !Handled(db, cmd.Id())
  }

  lemma FreshStep(db: Db, commands: seq<Command>)
    requires Fresh(db, commands) && commands != []
    ensures !Handled(db, commands[0].Id())
    ensures Fresh(Apply(db, commands[0]), commands[1..])
  {
    var rest := commands[1..];
    ApplyMarks(db, commands[0]);
    forall cmd | cmd in rest
      ensures !Handled(Apply(db, commands[0]), cmd.Id())
    {
      var i :| 0 <= i < |rest| && rest[i] == cmd;
      assert commands[i + 1] == cmd;
    }
    forall i, j | 0 <= i < j < |rest|
      ensures rest[i].Id() != rest[j].Id()
    {
      assert rest[i] == commands[i + 1] && rest[j] == commands[j + 1];
    }
  }

  lemma {:induction false} ReplayMarks(db: Db, commands: seq<Command>)
    ensures ReplayFrom(db, commands).processed.Keys == db.processed.Keys + Ids(commands)
    ensures forall id | id in db.processed :: ReplayFrom(db, commands).processed[id] == db.processed[id]
    decreases |commands|
  {
    if commands == [] {
    } else {
      ApplyMarks(db, commands[0]);
      ReplayMarks(Apply(db, commands[0]), commands[1..]);
      assert commands == [commands[0]] + commands[1..];
    }
  }

  lemma {:induction false} ReplayKeepsIntegrity(db: Db, commands: seq<Command>)
    requires Integrity(db)
    ensures Integrity(ReplayFrom(db, commands))
    decreases |commands|
  {
    if commands == [] {
    } else {
      ApplyKeepsIntegrity(db, commands[0]);
      ReplayKeepsIntegrity(Apply(db, commands[0]), commands[1..]);
    }
  }

  lemma {:induction false} ReplayConcat(db: Db, a: seq<Command>, b: seq<Command>)
    ensures ReplayFrom(db, a + b) == ReplayFrom(ReplayFrom(db, a), b)
    decreases |a|
  {
    if a == [] {
      assert a + b == b;
    } else {
      assert (a + b)[1..] == a[1..] + b;
      ReplayConcat(Apply(db, a[0]), a[1..], b);
    }
  }

  // ---- Redelivery ----

  /** One attempt at a command. A rollback has committed == false; a commit that succeeded but was
      reported as failed has committed == true, like any other. */
  datatype Delivery = Delivery(cmd: Command, committed: bool)

  function Deliver(db: Db, trace: seq<Delivery>): Db
    decreases |trace|
  {
    if trace == [] then db
    else Deliver(if trace[0].committed then Apply(db, trace[0].cmd) else db, trace[1..])
  }

  /** The first committed delivery of every id not seen before. */
  function FirstCommitted(trace: seq<Delivery>, seen: set<string>): seq<Command> {
    if trace == [] then []
    else if trace[0].committed && trace[0].cmd.Id() !in seen then
      [trace[0].cmd] + FirstCommitted(trace[1..], seen + {trace[0].cmd.Id()})
    else FirstCommitted(trace[1..], seen)
  }

  lemma {:induction false} FirstCommittedIsFresh(db: Db, trace: seq<Delivery>, seen: set<string>)
    requires db.processed.Keys == seen
    ensures Fresh(db, FirstCommitted(trace, seen))
    decreases |trace|
  {
    if trace == [] {
    } else {
      var first := trace[0].cmd;
      if trace[0].committed && first.Id() !in seen {
        var rest := FirstCommitted(trace[1..], seen + {first.Id()});
        ApplyMarks(db, first);
        FirstCommittedIsFresh(Apply(db, first), trace[1..], seen + {first.Id()});
        forall cmd | cmd in rest
          ensures !Handled(db, cmd.Id()) && cmd.Id() != first.Id()
        {
        }
      } else {
        FirstCommittedIsFresh(db, trace[1..], seen);
      }
    }
  }

  /** Redelivery refinement: every trace of attempts leaves the tables as if each id had been handled
      exactly once, at its first committed delivery. */
  lemma {:induction false} RedeliveryRefinement(db: Db, trace: seq<Delivery>)
    ensures Deliver(db, trace) == ReplayFrom(db, FirstCommitted(trace, db.processed.Keys))
    ensures Fresh(db, FirstCommitted(trace, db.processed.Keys))
    decreases |trace|
  {
    FirstCommittedIsFresh(db, trace, db.processed.Keys);
    if trace == [] {
    } else {
      var first := trace[0].cmd;
      if trace[0].committed && first.Id() !in db.processed {
        ApplyMarks(db, first);
        RedeliveryRefinement(Apply(db, first), trace[1..]);
      } else {
        RedeliveryRefinement(db, trace[1..]);
      }
    }
  }

  // ---- Closed forms ----

  ghost function CompensatedIds(db: Db): set<string> {
    set u | u in db.processed && db.processed[u].Some? :: db.processed[u].value
  }

  lemma ApplyCompensates(db: Db, cmd: Command)
    requires !Handled(db, cmd.Id())
    ensures CompensatedIds(Apply(db, cmd))
         == CompensatedIds(db) + if cmd.Unregister? then {cmd.register.transactionId} else {}
    ensures forall t :: t in CompensatedIds(db) <==> Compensated(db, t)
  {
    var after := Apply(db, cmd);
    assert after.processed == Marked(db, cmd).processed;
    forall t
      ensures t in CompensatedIds(after)
              <==> t in CompensatedIds(db) || (cmd.Unregister? && t == cmd.register.transactionId)
    {
      if t in CompensatedIds(db) {
        var u :| u in db.processed && db.processed[u].Some? && db.processed[u].value == t;
        assert u in after.processed && after.processed[u].value == t;
      }
      if cmd.Unregister? && t == cmd.register.transactionId {
        assert after.processed[cmd.Id()].value == t;
      }
    }
  }

  function Share(cmd: Command, key: Key): int {
    if KeyOf(cmd.register) == key then cmd.register.value else 0
  }

  /** The contributions of a history to one aggregate: a register counts unless a compensation of it
      came first, a compensation always counts against. */
  function Total(commands: seq<Command>, compensated: set<string>, key: Key): int {
    if commands == [] then 0
    else
      var cmd := commands[0];
      if cmd.Unregister? then -Share(cmd, key) + Total(commands[1..], compensated + {cmd.register.transactionId}, key)
      else (if cmd.Id() in compensated then 0 else Share(cmd, key)) + Total(commands[1..], compensated, key)
  }

  /** Conservation over histories: the stored aggregate is the sum of the contributions. */
  lemma {:induction false} AggregateIsTotal(db: Db, commands: seq<Command>, key: Key)
    requires Fresh(db, commands)
    ensures Value(ReplayFrom(db, commands), key) == Value(db, key) + Total(commands, CompensatedIds(db), key)
    decreases |commands|
  {
    if commands == [] {
    } else {
      var cmd := commands[0];
      FreshStep(db, commands);
      ApplyCompensates(db, cmd);
      ApplyMarks(db, cmd);
      AggregateIsTotal(Apply(db, cmd), commands[1..], key);
      assert cmd.Register? ==> CompensatedIds(Apply(db, cmd)) == CompensatedIds(db);
    }
  }

  ghost predicate CompensatedBefore(commands: seq<Command>, i: nat)
    requires i < |commands|
  {
    exists j | 0 <= j < i :: commands[j].Unregister? && commands[j].register.transactionId == commands[i].Id()
  }

  /** The register of t was executed: it is in the history with no earlier compensation of t. */
  ghost predicate ExecutedIn(commands: seq<Command>, t: string) {
    exists i: nat | i < |commands| ::
      commands[i].Register? && commands[i].Id() == t && !CompensatedBefore(commands, i)
  }

  lemma ExecutedInStep(commands: seq<Command>, t: string)
    requires commands != []
    ensures ExecutedIn(commands, t) <==>
            if commands[0].Unregister? && commands[0].register.transactionId == t then false
            else (commands[0].Register? && commands[0].Id() == t) || ExecutedIn(commands[1..], t)
  {
    var first, rest := commands[0], commands[1..];
    forall i: nat | i < |rest| && rest[i].Id() == t
      ensures CompensatedBefore(commands, i + 1)
              <==> CompensatedBefore(rest, i) || (first.Unregister? && first.register.transactionId == t)
    {
      if CompensatedBefore(rest, i) {
        var j :| 0 <= j < i && rest[j].Unregister? && rest[j].register.transactionId == rest[i].Id();
        assert commands[j + 1] == rest[j];
      }
      if CompensatedBefore(commands, i + 1) {
        var j :| 0 <= j < i + 1 && commands[j].Unregister? && commands[j].register.transactionId == t;
        assert j > 0 ==> rest[j - 1] == commands[j];
      }
      if first.Unregister? && first.register.transactionId == t {
        assert commands[0].register.transactionId == commands[i + 1].Id();
      }
    }
    if ExecutedIn(rest, t) && !(first.Unregister? && first.register.transactionId == t) {
      var i: nat :| i < |rest| && rest[i].Register? && rest[i].Id() == t && !CompensatedBefore(rest, i);
      assert commands[i + 1] == rest[i] && !CompensatedBefore(commands, i + 1);
    }
    if ExecutedIn(commands, t) {
      var i: nat :| i < |commands| && commands[i].Register? && commands[i].Id() == t && !CompensatedBefore(commands, i);
      assert i > 0 ==> rest[i - 1] == commands[i];
    }
    if first.Register? && first.Id() == t {
      assert !CompensatedBefore(commands, 0);
    }
  }

  /** No execute after compensate: a transaction has a log row exactly when its register was committed
      before every compensation of it. */
  lemma {:induction false} LoggedIffExecuted(db: Db, commands: seq<Command>, t: string)
    requires Fresh(db, commands)
    ensures t in ReplayFrom(db, commands).logs
            <==> t in db.logs || (!Compensated(db, t) && ExecutedIn(commands, t))
    decreases |commands|
  {
    if commands == [] {
    } else {
      var cmd := commands[0];
      FreshStep(db, commands);
      ApplyCompensates(db, cmd);
      LoggedIffExecuted(Apply(db, cmd), commands[1..], t);
      CompensatedAfter(db, cmd, t);
      ExecutedInStep(commands, t);
      if cmd.Register? && cmd.Id() == t {
        LaterIsNotExecuted(commands, t);
      }
    }
  }

  lemma CompensatedAfter(db: Db, cmd: Command, t: string)
    requires !Handled(db, cmd.Id())
    ensures Compensated(Apply(db, cmd), t)
            <==> Compensated(db, t) || (cmd.Unregister? && cmd.register.transactionId == t)
  {
    var after := Apply(db, cmd);
    assert after.processed == Marked(db, cmd).processed;
    if Compensated(db, t) {
      var u :| u in db.processed && db.processed[u] == Some(t);
      assert after.processed[u] == Some(t);
    }
    if cmd.Unregister? && cmd.register.transactionId == t {
      assert after.processed[cmd.Id()] == Some(t);
    }
  }

  lemma LaterIsNotExecuted(commands: seq<Command>, t: string)
    requires DistinctIds(commands) && commands != [] && commands[0].Id() == t
    ensures !ExecutedIn(commands[1..], t)
  {
    forall i: nat | i < |commands[1..]|
      ensures commands[1..][i].Id() != t
    {
      assert commands[1..][i] == commands[i + 1];
    }
  }

  /** A register that came after its compensation leaves no trace but its mark, so every later
      delivery of it is a no-op too. */
  lemma SkippedRegisterStaysHandled(db: Db, r: RegisterCommand, later: Command)
    requires !Handled(db, r.transactionId) && Compensated(db, r.transactionId)
    requires later.Id() == r.transactionId
    ensures var after := Apply(db, Register(r));
            && after.logs == db.logs && after.aggregates == db.aggregates && after.counts == db.counts
            && Handled(after, r.transactionId) && Apply(after, later) == after
  {
  }

  // ---- What a compensation undoes ----

  lemma {:induction false} UnusedCompensation(commands: seq<Command>, compensated: set<string>, t: string, key: Key)
    requires forall cmd | cmd in commands :: cmd.Id() != t
    ensures Total(commands, compensated + {t}, key) == Total(commands, compensated, key)
  {
    if commands == [] {
    } else {
      var cmd := commands[0];
      if cmd.Unregister? {
        var target := cmd.register.transactionId;
        assert compensated + {t} + {target} == compensated + {target} + {t};
        UnusedCompensation(commands[1..], compensated + {target}, t, key);
      } else {
        UnusedCompensation(commands[1..], compensated, t, key);
      }
    }
  }

  lemma {:induction false} TotalWithUndo(b: seq<Command>, u: Command, c: seq<Command>, compensated: set<string>,
                                         key: Key)
    requires u.Unregister? && forall cmd | cmd in b + c :: cmd.Id() != u.register.transactionId
    ensures Total(b + [u] + c, compensated, key) == Total(b + c, compensated, key) - Share(u, key)
  {
    var t := u.register.transactionId;
    if b == [] {
      assert b + [u] + c == [u] + c && b + c == c;
      assert ([u] + c)[1..] == c;
      UnusedCompensation(c, compensated, t, key);
    } else {
      var cmd := b[0];
      assert (b + [u] + c)[1..] == b[1..] + [u] + c && (b + c)[1..] == b[1..] + c;
      assert forall other | other in b[1..] + c :: other in b + c;
      TotalWithUndo(b[1..], u, c,
                    if cmd.Unregister? then compensated + {cmd.register.transactionId} else compensated, key);
    }
  }

  /** Register first, then its compensation, in any surroundings: together they change no aggregate. */
  lemma {:induction false} RegisterThenUndo(a: seq<Command>, reg: Command, b: seq<Command>, u: Command, c: seq<Command>,
                                            compensated: set<string>, key: Key)
    requires reg.Register? && u.Unregister? && u.register == reg.register && reg.Id() !in compensated
    requires forall cmd | cmd in a + b + c :: cmd.Id() != reg.Id()
    requires forall cmd | cmd in a :: cmd.Unregister? ==> cmd.register.transactionId != reg.Id()
    ensures Total(a + [reg] + b + [u] + c, compensated, key) == Total(a + b + c, compensated, key)
  {
    if a == [] {
      assert a + [reg] + b + [u] + c == [reg] + (b + [u] + c) && a + b + c == b + c;
      assert ([reg] + (b + [u] + c))[1..] == b + [u] + c;
      TotalWithUndo(b, u, c, compensated, key);
    } else {
      var cmd := a[0];
      assert (a + [reg] + b + [u] + c)[1..] == a[1..] + [reg] + b + [u] + c;
      assert (a + b + c)[1..] == a[1..] + b + c;
      assert forall other | other in a[1..] + b + c :: other in a + b + c;
      assert cmd in a;
      RegisterThenUndo(a[1..], reg, b, u, c,
                       if cmd.Unregister? then compensated + {cmd.register.transactionId} else compensated, key);
    }
  }

  lemma {:induction false} SkippedRegister(b: seq<Command>, reg: Command, c: seq<Command>, compensated: set<string>,
                                           key: Key)
    requires reg.Register? && reg.Id() in compensated
    ensures Total(b + [reg] + c, compensated, key) == Total(b + c, compensated, key)
  {
    if b == [] {
      assert b + [reg] + c == [reg] + c && b + c == c && ([reg] + c)[1..] == c;
    } else {
      var cmd := b[0];
      assert (b + [reg] + c)[1..] == b[1..] + [reg] + c && (b + c)[1..] == b[1..] + c;
      SkippedRegister(b[1..], reg, c,
                      if cmd.Unregister? then compensated + {cmd.register.transactionId} else compensated, key);
    }
  }

  /** Compensation first: the register is skipped, but the compensation was not, so the aggregate is
      left short by the value. */
  lemma {:induction false} UndoThenRegister(a: seq<Command>, u: Command, b: seq<Command>, reg: Command, c: seq<Command>,
                                            compensated: set<string>, key: Key)
    requires reg.Register? && u.Unregister? && u.register == reg.register
    requires forall cmd | cmd in a + b + c :: cmd.Id() != reg.Id()
    ensures Total(a + [u] + b + [reg] + c, compensated, key) == Total(a + b + c, compensated, key) - Share(u, key)
  {
    var t := reg.Id();
    if a == [] {
      assert a + [u] + b + [reg] + c == [u] + (b + [reg] + c) && a + b + c == b + c;
      assert ([u] + (b + [reg] + c))[1..] == b + [reg] + c;
      SkippedRegister(b, reg, c, compensated + {t}, key);
      UnusedCompensation(b + c, compensated, t, key);
    } else {
      var cmd := a[0];
      assert (a + [u] + b + [reg] + c)[1..] == a[1..] + [u] + b + [reg] + c;
      assert (a + b + c)[1..] == a[1..] + b + c;
      assert forall other | other in a[1..] + b + c :: other in a + b + c;
      UndoThenRegister(a[1..], u, b, reg, c,
                       if cmd.Unregister? then compensated + {cmd.register.transactionId} else compensated, key);
    }
  }

  function Skipping(i: nat, a: nat, b: nat): nat {
    if i < a then i else if i < a + b then i + 1 else i + 2
  }

  lemma WithoutTwo(a: seq<Command>, x: Command, b: seq<Command>, y: Command, c: seq<Command>)
    requires DistinctIds(a + [x] + b + [y] + c)
    ensures DistinctIds(a + b + c) && x.Id() != y.Id()
    ensures forall cmd | cmd in a + b + c :: cmd.Id() != x.Id() && cmd.Id() != y.Id()
  {
    var all, less := a + [x] + b + [y] + c, a + b + c;
    assert all[|a|] == x && all[|a| + 1 + |b|] == y;
    forall i: nat | i < |less|
      ensures less[i] == all[Skipping(i, |a|, |b|)]
    {
    }
    forall i, j | 0 <= i < j < |less|
      ensures less[i].Id() != less[j].Id()
    {
      assert less[i] == all[Skipping(i, |a|, |b|)] && less[j] == all[Skipping(j, |a|, |b|)];
    }
    forall cmd | cmd in less
      ensures cmd.Id() != x.Id() && cmd.Id() != y.Id()
    {
      var i :| 0 <= i < |less| && less[i] == cmd;
      assert less[i] == all[Skipping(i, |a|, |b|)];
    }
  }

  lemma CancelsInOrder(a: seq<Command>, b: seq<Command>, c: seq<Command>, reg: Command, u: Command, key: Key)
    requires reg.Register? && u.Unregister? && u.register == reg.register
    requires forall cmd | cmd in a + b + c :: cmd.Unregister? ==> cmd.register.transactionId != reg.Id()
    requires DistinctIds(a + [reg] + b + [u] + c)
    ensures Total(a + [reg] + b + [u] + c, {}, key) == Total(a + b + c, {}, key)
  {
    WithoutTwo(a, reg, b, u, c);
    assert forall cmd | cmd in a :: cmd in a + b + c;
    RegisterThenUndo(a, reg, b, u, c, {}, key);
  }

  lemma FallsShort(a: seq<Command>, b: seq<Command>, c: seq<Command>, reg: Command, u: Command, key: Key)
    requires reg.Register? && u.Unregister? && u.register == reg.register
    requires DistinctIds(a + [u] + b + [reg] + c)
    ensures Total(a + [u] + b + [reg] + c, {}, key) == Total(a + b + c, {}, key) - Share(u, key)
  {
    WithoutTwo(a, u, b, reg, c);
    UndoThenRegister(a, u, b, reg, c, {}, key);
  }

  lemma ValueIsTotal(commands: seq<Command>, key: Key)
    requires DistinctIds(commands)
    ensures Value(ReplayFrom(EMPTY, commands), key) == Total(commands, {}, key)
  {
    AggregateIsTotal(EMPTY, commands, key);
    assert CompensatedIds(EMPTY) == {};
  }

  /** The saga's promise, exactly: a transaction and its compensation cancel out, whatever else is
      handled around them, if and only if the register is handled first (or its value is zero). */
  lemma CompensationUndoesIff(a: seq<Command>, b: seq<Command>, c: seq<Command>, reg: Command, u: Command,
                              registerFirst: bool, key: Key)
    requires reg.Register? && u.Unregister? && u.register == reg.register && key == KeyOf(reg.register)
    requires forall cmd | cmd in a + b + c :: cmd.Unregister? ==> cmd.register.transactionId != reg.Id()
    requires DistinctIds(a + [if registerFirst then reg else u] + b + [if registerFirst then u else reg] + c)
    ensures var commands := a + [if registerFirst then reg else u] + b + [if registerFirst then u else reg] + c;
            Value(ReplayFrom(EMPTY, commands), key) == Value(ReplayFrom(EMPTY, a + b + c), key)
            <==> registerFirst || reg.register.value == 0
  {
    var x, y := if registerFirst then reg else u, if registerFirst then u else reg;
    WithoutTwo(a, x, b, y, c);
    ValueIsTotal(a + [x] + b + [y] + c, key);
    ValueIsTotal(a + b + c, key);
    if registerFirst {
      CancelsInOrder(a, b, c, reg, u, key);
    } else {
      FallsShort(a, b, c, reg, u, key);
    }
  }
}
