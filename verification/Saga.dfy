/** saga/consumer.go and the adapters behind its ports: one command handled inside one database
    transaction, any statement of which may fail. */
module Saga {
  import opened Kafka
  import opened Codec
  import opened Tables
  import opened Batch
  import opened Transactions

  datatype Failure = StatementFailed | ConstraintViolated

  datatype SagaAction = TxSagaAction | CountSagaAction

  /** The actions the tx-consumer is wired with, in order. */
  const ACTIONS: seq<SagaAction> := [TxSagaAction, CountSagaAction]

  /** What newSagaActionConsumer returns: the closure to run on every action, or none. */
  datatype ActionConsumer = ExecuteWith(register: RegisterCommand) | CompensateWith(command: Command) | NoAction

  /** The id a command is marked under and the id it compensates. */
  function ExtractTransactionIds(cmd: Command): (string, Option<string>) {
    match cmd.ToTransaction()
    case Some(r) => (r.transactionId, None)
    case None => (cmd.Id(), Some(cmd.register.transactionId))
  }

  // ---- Specification of the actions ----

  function ActionEffect(db: Db, action: SagaAction, consumer: ActionConsumer): Db {
    match (consumer, action)
    case (ExecuteWith(r), TxSagaAction) => Logged(Shifted(db, KeyOf(r), r.value), r)
    case (ExecuteWith(r), CountSagaAction) => CountShifted(db, 1)
    case (CompensateWith(u), TxSagaAction) =>
      CompensationLogged(Shifted(db, KeyOf(u.register), -u.register.value), u.Id(), u.register.transactionId)
    case (CompensateWith(u), CountSagaAction) => CountShifted(db, -1)
    case (NoAction, _) => db
  }

  function ActionEmission(db: Db, action: SagaAction, consumer: ActionConsumer, threshold: int): seq<Emission> {
    match (consumer, action)
    case (ExecuteWith(r), TxSagaAction) =>
      EmissionOf(KeyOf(r), Value(db, KeyOf(r)), Value(db, KeyOf(r)) + r.value, threshold)
    case (CompensateWith(u), TxSagaAction) =>
      var key := KeyOf(u.register);
      EmissionOf(key, Value(db, key), Value(db, key) - u.register.value, threshold)
    case _ => []
  }

  function RunActions(db: Db, actions: seq<SagaAction>, consumer: ActionConsumer): Db {
    if actions == [] then db
    else ActionEffect(RunActions(db, actions[..|actions| - 1], consumer), actions[|actions| - 1], consumer)
  }

  function RunEmissions(db: Db, actions: seq<SagaAction>, consumer: ActionConsumer, threshold: int): seq<Emission> {
    if actions == [] then []
    else
      var n := |actions| - 1;
      RunEmissions(db, actions[..n], consumer, threshold)
      + ActionEmission(RunActions(db, actions[..n], consumer), actions[n], consumer, threshold)
  }

  function Selected(db: Db, cmd: Command): ActionConsumer {
    if cmd.Unregister? then CompensateWith(cmd)
    else if Compensated(db, cmd.Id()) then NoAction
    else ExecuteWith(cmd.register)
  }

  /** The actions together do what handling the command means, and emit its alarms. */
  lemma ActionsApply(db: Db, cmd: Command, threshold: int)
    requires !Handled(db, cmd.Id())
    ensures Marked(RunActions(db, ACTIONS, Selected(db, cmd)), cmd) == Apply(db, cmd)
    ensures RunEmissions(db, ACTIONS, Selected(db, cmd), threshold) == Emits(db, cmd, threshold)
  {
    var consumer := Selected(db, cmd);
    assert ACTIONS[..1] == [TxSagaAction] && ACTIONS[..1][..0] == [];
    assert RunActions(db, ACTIONS[..1][..0], consumer) == db;
    var first := RunActions(db, ACTIONS[..1], consumer);
    assert first == ActionEffect(db, TxSagaAction, consumer);
    assert RunActions(db, ACTIONS, consumer) == ActionEffect(first, CountSagaAction, consumer);
    assert RunEmissions(db, ACTIONS[..1], consumer, threshold) == ActionEmission(db, TxSagaAction, consumer, threshold);
  }

  // ---- What a transaction costs ----

  /** How many statements and publishes an action needs. */
  function ActionCost(db: Db, action: SagaAction, consumer: ActionConsumer, threshold: int): nat {
    match action
    case TxSagaAction => 2 + |ActionEmission(db, TxSagaAction, consumer, threshold)|
    case CountSagaAction => if db.counts == [] then 2 else 1
  }

  /** How many a whole command needs: the two checks, the actions and the mark. */
  function Cost(db: Db, cmd: Command, threshold: int): nat {
    var checks := if cmd.Register? then 2 else 1;
    if Handled(db, cmd.Id()) then 1
    else if cmd.Register? && Compensated(db, cmd.Id()) then checks + 1
    else checks + (2 + |Emits(db, cmd, threshold)|) + (if db.counts == [] then 2 else 1) + 1
  }

  /** What gets out of alarms whose publishing is preceded by this many statements. */
  function Sent(alarms: seq<Emission>, ahead: nat, budget: nat, publishAmbiguously: bool): seq<Emission> {
    if budget >= ahead + |alarms| || (budget >= ahead && publishAmbiguously) then alarms else []
  }

  /** Ahead of the alarm of a command: the checks and the shift of the aggregate. */
  function Ahead(cmd: Command): nat {
    if cmd.Register? then 3 else 2
  }

  function CostUnmarked(db: Db, cmd: Command, threshold: int): nat {
    if Handled(db, cmd.Id()) then 1 else Cost(db, cmd, threshold) - 1
  }

  // ---- One transaction ----

  /** The tables as one transaction sees them. `budget` statements or publishes succeed before one
      fails; a publish that fails may or may not have reached the topic. */
  class Session {
    var db: Db
    var emitted: seq<Emission>
    var budget: nat
    const publishAmbiguously: bool
    const threshold: int

    constructor (db: Db, budget: nat, publishAmbiguously: bool, threshold: int)
      ensures this.db == db && emitted == [] && this.budget == budget
      ensures this.publishAmbiguously == publishAmbiguously && this.threshold == threshold
    {
      this.db, this.budget, this.emitted := db, budget, [];
      this.publishAmbiguously, this.threshold := publishAmbiguously, threshold;
    }

    method Exec() returns (ok: bool)
      modifies this`budget
      ensures ok <==> old(budget) > 0
      ensures ok ==> budget == old(budget) - 1
    {
      ok := budget > 0;
      if ok {
        budget := budget - 1;
      }
    }

    // -- the processed table --

    method CommandAlreadyHandled(cmd: Command) returns (r: Result<bool, Failure>)
      modifies this`budget
      ensures r.Ok? <==> old(budget) > 0
      ensures r.Ok? ==> r.value == Handled(db, cmd.Id()) && budget == old(budget) - 1
    {
      var ok := Exec();
      r := if ok then Ok(ExtractTransactionIds(cmd).0 in db.processed) else Err(StatementFailed);
    }

    method MarkCommandAsHandled(cmd: Command) returns (err: Option<Failure>)
      modifies this`budget, this`db
      ensures err.None? <==> old(budget) > 0 && !Handled(old(db), cmd.Id())
      ensures db == if err.None? then Marked(old(db), cmd) else old(db)
    {
      var ids := ExtractTransactionIds(cmd);
      var ok := Exec();
      if !ok {
        return Some(StatementFailed);
      }
      if ids.0 in db.processed {
        return Some(ConstraintViolated);
      }
      db := db.(processed := db.processed[ids.0 := ids.1]);
      return None;
    }

    method TransactionCompensated(r: RegisterCommand) returns (compensated: Result<bool, Failure>)
      modifies this`budget
      ensures compensated.Ok? <==> old(budget) > 0
      ensures compensated.Ok? ==> compensated.value == Compensated(db, r.transactionId) && budget == old(budget) - 1
    {
      var ok := Exec();
      compensated := if ok then Ok(Compensated(db, r.transactionId)) else Err(StatementFailed);
    }

    // -- the aggregate table --

    method Shift(key: Key, delta: int) returns (updated: Result<int, Failure>)
      modifies this`budget, this`db
      ensures updated.Ok? <==> old(budget) > 0
      ensures updated.Ok? ==>
                budget == old(budget) - 1 && db == Shifted(old(db), key, delta) && updated.value == Value(db, key)
      ensures updated.Err? ==> db == old(db)
    {
      var ok := Exec();
      if !ok {
        return Err(StatementFailed);
      }
      if key in db.aggregates {
        db := db.(aggregates := db.aggregates[key := db.aggregates[key] + delta]);
      } else {
        db := db.(aggregates := db.aggregates[key := delta]);
      }
      return Ok(db.aggregates[key]);
    }

    method ProduceSync(emission: Emission) returns (err: Option<Failure>)
      modifies this`budget, this`emitted
      ensures err.None? <==> old(budget) > 0
      ensures err.None? ==> budget == old(budget) - 1 && emitted == old(emitted) + [emission]
      ensures emitted == old(emitted) + Sent([emission], 0, old(budget), publishAmbiguously)
    {
      var ok := Exec();
      if ok || publishAmbiguously {
        emitted := emitted + [emission];
      }
      err := if ok then None else Some(StatementFailed);
    }

    /** The previous value is recomputed from the updated one. */
    method UpdateAlarmState(key: Key, deltaValue: int, updatedValue: int) returns (err: Option<Failure>)
      modifies this`budget, this`emitted
      ensures var alarms := EmissionOf(key, updatedValue - deltaValue, updatedValue, threshold);
              && (err.None? <==> old(budget) >= |alarms|)
              && (err.None? ==> budget == old(budget) - |alarms|)
              && emitted == old(emitted) + Sent(alarms, 0, old(budget), publishAmbiguously)
    {
      var previousValue := updatedValue - deltaValue;
      match Crossing(previousValue, updatedValue, threshold) {
        case CrossedAbove => err := ProduceSync(Raise(key, threshold, updatedValue));
        case CrossedBelow => err := ProduceSync(Clear(key));
        case NoCrossing => err := None;
      }
    }

    // -- the log tables --

    method InsertLog(r: RegisterCommand) returns (err: Option<Failure>)
      modifies this`budget, this`db
      ensures err.None? <==> old(budget) > 0 && r.transactionId !in old(db).logs && KeyOf(r) in old(db).aggregates
      ensures db == if err.None? then Logged(old(db), r) else old(db)
      ensures err.None? ==> budget == old(budget) - 1
    {
      var ok := Exec();
      if !ok {
        return Some(StatementFailed);
      }
      if r.transactionId in db.logs || KeyOf(r) !in db.aggregates {
        return Some(ConstraintViolated);
      }
      db := db.(logs := db.logs[r.transactionId := RowOf(r)]);
      return None;
    }

    method InsertCompensatingLog(id: string, compensatedId: string) returns (err: Option<Failure>)
      modifies this`budget, this`db
      ensures err.None? <==> old(budget) > 0 && id !in old(db).compensations
      ensures db == if err.None? then CompensationLogged(old(db), id, compensatedId) else old(db)
      ensures err.None? ==> budget == old(budget) - 1
    {
      var ok := Exec();
      if !ok {
        return Some(StatementFailed);
      }
      if id in db.compensations {
        return Some(ConstraintViolated);
      }
      db := db.(compensations := db.compensations[id := compensatedId]);
      return None;
    }

    // -- the count table --

    method ShiftCount(delta: int) returns (err: Option<Failure>)
      modifies this`budget, this`db
      ensures var cost := if old(db).counts == [] then 2 else 1;
              && (err.None? <==> old(budget) >= cost)
              && (err.None? ==> db == CountShifted(old(db), delta) && budget == old(budget) - cost)
    {
      var ok := Exec();
      if !ok {
        return Some(StatementFailed);
      }
      var rows := db.counts;
      var rowsAffected := |rows|;
      db := db.(counts := seq(|rows|, i requires 0 <= i < |rows| => rows[i] + delta));
      if rowsAffected == 0 {
        ok := Exec();
        if !ok {
          return Some(StatementFailed);
        }
        db := db.(counts := db.counts + [delta]);
      }
      return None;
    }

    // -- the actions --

    /** Aggregate first, then log. */
    method TxExecute(r: RegisterCommand) returns (err: Option<Failure>)
      modifies this`budget, this`db, this`emitted
      ensures var alarms := ActionEmission(old(db), TxSagaAction, ExecuteWith(r), threshold);
              && (err.None? <==> old(budget) >= 2 + |alarms| && r.transactionId !in old(db).logs)
              && (err.None? ==>
                    && db == ActionEffect(old(db), TxSagaAction, ExecuteWith(r))
                    && budget == old(budget) - 2 - |alarms|)
              && emitted == old(emitted) + Sent(alarms, 1, old(budget), publishAmbiguously)
    {
      var updated := Shift(KeyOf(r), r.value);
      if updated.Err? {
        return Some(updated.error);
      }
      err := UpdateAlarmState(KeyOf(r), r.value, updated.value);
      if err.Some? {
        return;
      }
      err := InsertLog(r);
    }

    method TxCompensate(u: Command) returns (err: Option<Failure>)
      modifies this`budget, this`db, this`emitted
      ensures var alarms := ActionEmission(old(db), TxSagaAction, CompensateWith(u), threshold);
              && (err.None? <==> old(budget) >= 2 + |alarms| && u.Id() !in old(db).compensations)
              && (err.None? ==>
                    && db == ActionEffect(old(db), TxSagaAction, CompensateWith(u))
                    && budget == old(budget) - 2 - |alarms|)
              && emitted == old(emitted) + Sent(alarms, 1, old(budget), publishAmbiguously)
    {
      var key := KeyOf(u.register);
      var updated := Shift(key, -u.register.value);
      if updated.Err? {
        return Some(updated.error);
      }
      err := UpdateAlarmState(key, -u.register.value, updated.value);
      if err.Some? {
        return;
      }
      err := InsertCompensatingLog(u.Id(), u.register.transactionId);
    }

    method RunAction(action: SagaAction, consumer: ActionConsumer) returns (err: Option<Failure>)
      requires !consumer.NoAction?
      modifies this`budget, this`db, this`emitted
      ensures var cost := ActionCost(old(db), action, consumer, threshold);
              && (err.None? <==>
                    old(budget) >= cost && (action == TxSagaAction ==> Insertable(old(db), consumer)))
              && (err.None? ==> db == ActionEffect(old(db), action, consumer) && budget == old(budget) - cost)
      ensures emitted
           == old(emitted)
              + Sent(ActionEmission(old(db), action, consumer, threshold), 1, old(budget), publishAmbiguously)
    {
      match action {
        case CountSagaAction => err := ShiftCount(if consumer.ExecuteWith? then 1 else -1);
        case TxSagaAction =>
          if consumer.ExecuteWith? {
            err := TxExecute(consumer.register);
          } else {
            err := TxCompensate(consumer.command);
          }
      }
    }

    // -- the saga consumer --

    method NewSagaActionConsumer(cmd: Command) returns (consumer: Result<ActionConsumer, Failure>)
      modifies this`budget
      ensures var cost := if cmd.Register? then 1 else 0;
              && (consumer.Ok? <==> old(budget) >= cost)
              && (consumer.Ok? ==> consumer.value == Selected(db, cmd) && budget == old(budget) - cost)
    {
      var tx := cmd.ToTransaction();
      if tx.Some? {
        var alreadyCompensated := TransactionCompensated(tx.value);
        if alreadyCompensated.Err? {
          return Err(alreadyCompensated.error);
        }
        if alreadyCompensated.value {
          return Ok(NoAction);
        }
        return Ok(ExecuteWith(tx.value));
      }
      return Ok(CompensateWith(cmd.ToCompensatingTransaction().value));
    }

    /** The loop over the actions; the first failure ends it. */
    method RunAll(consumer: ActionConsumer) returns (err: Option<Failure>)
      requires !consumer.NoAction?
      modifies this`budget, this`db, this`emitted
      ensures var alarms := ActionEmission(old(db), TxSagaAction, consumer, threshold);
              var cost := 2 + |alarms| + if old(db).counts == [] then 2 else 1;
              && (err.None? <==> old(budget) >= cost && Insertable(old(db), consumer))
              && (err.None? ==> db == RunActions(old(db), ACTIONS, consumer) && budget == old(budget) - cost)
              && emitted == old(emitted) + Sent(alarms, 1, old(budget), publishAmbiguously)
    {
      ghost var before := db;
      ghost var alarms := ActionEmission(db, TxSagaAction, consumer, threshold);
      for i := 0 to |ACTIONS|
        invariant db == RunActions(before, ACTIONS[..i], consumer)
        invariant i == 0 ==> budget == old(budget) && emitted == old(emitted)
        invariant i > 0 ==> Insertable(before, consumer) && old(budget) >= 2 + |alarms|
        invariant i > 0 ==> emitted == old(emitted) + alarms
        invariant i == 1 ==> db.counts == before.counts && budget == old(budget) - 2 - |alarms|
        invariant i == 2 ==>
                    budget == old(budget) - 2 - |alarms| - if before.counts == [] then 2 else 1
      {
        assert ACTIONS[..i + 1][..i] == ACTIONS[..i];
        assert i == 0 ==> db == before;
        err := RunAction(ACTIONS[i], consumer);
        if err.Some? {
          return;
        }
      }
      assert ACTIONS[..|ACTIONS|] == ACTIONS;
      err := None;
    }

    /** Everything up to the deferred mark. */
    method ConsumeUnlessHandled(cmd: Command) returns (err: Option<Failure>, alreadyHandled: bool)
      modifies this`budget, this`db, this`emitted
      ensures err.None? ==> (alreadyHandled <==> Handled(old(db), cmd.Id()))
      ensures err.None? && alreadyHandled ==> db == old(db)
      ensures err.None? && !alreadyHandled ==> db == RunActions(old(db), ACTIONS, Selected(old(db), cmd))
      ensures Integrity(old(db)) ==> (err.None? <==> old(budget) >= CostUnmarked(old(db), cmd, threshold))
      ensures err.None? ==> budget == old(budget) - CostUnmarked(old(db), cmd, threshold)
      ensures emitted
           == old(emitted) + Sent(Emits(old(db), cmd, threshold), Ahead(cmd), old(budget), publishAmbiguously)
    {
      alreadyHandled := false;
      var handled := CommandAlreadyHandled(cmd);
      if handled.Err? {
        return Some(handled.error), false;
      }
      alreadyHandled := handled.value;
      if alreadyHandled {
        return None, true;
      }
      var consumer := NewSagaActionConsumer(cmd);
      if consumer.Err? {
        return Some(consumer.error), false;
      }
      if consumer.value == NoAction {
        NothingRuns(db);
        return None, false;
      }
      SelectedEmits(db, cmd, threshold);
      UnhandledIsInsertable(db, cmd);
      err := RunAll(consumer.value);
    }

    /** `Consume`: on success the command has been applied once, or had been before; any failure is
        left to the rollback. */
    method Consume(cmd: Command) returns (err: Option<Failure>)
      modifies this`budget, this`db, this`emitted
      ensures err.None? ==> db == Apply(old(db), cmd)
      ensures err.None? ==> old(budget) >= Cost(old(db), cmd, threshold)
      ensures Integrity(old(db)) && old(budget) >= Cost(old(db), cmd, threshold) ==> err.None?
      ensures emitted
           == old(emitted) + Sent(Emits(old(db), cmd, threshold), Ahead(cmd), old(budget), publishAmbiguously)
    {
      ghost var before := db;
      var alreadyHandled;
      err, alreadyHandled := ConsumeUnlessHandled(cmd);
      if !Handled(before, cmd.Id()) {
        ActionsApply(before, cmd, threshold);
        ActionsLeaveUnmarked(before, Selected(before, cmd));
      }
      if err.None? && !alreadyHandled {
        err := MarkCommandAsHandled(cmd);
      }
    }
  }

  /** The insert of the first action will not meet an existing key. */
  ghost predicate Insertable(db: Db, consumer: ActionConsumer) {
    match consumer
    case ExecuteWith(r) => r.transactionId !in db.logs
    case CompensateWith(u) => u.Id() !in db.compensations
    case NoAction => true
  }

  lemma UnhandledIsInsertable(db: Db, cmd: Command)
    requires !Handled(db, cmd.Id())
    ensures Integrity(db) ==> Insertable(db, Selected(db, cmd))
  {
  }

  lemma NothingRuns(db: Db)
    ensures RunActions(db, ACTIONS, NoAction) == db
  {
    assert ACTIONS[..1] == [TxSagaAction] && ACTIONS[..1][..0] == [];
    assert RunActions(db, ACTIONS[..1], NoAction) == db;
  }

  /** Only the first action emits, and it emits the alarms of the command. */
  lemma SelectedEmits(db: Db, cmd: Command, threshold: int)
    requires !Handled(db, cmd.Id())
    ensures ActionEmission(db, TxSagaAction, Selected(db, cmd), threshold) == Emits(db, cmd, threshold)
  {
  }

  lemma {:induction false} ActionsLeaveUnmarked(db: Db, consumer: ActionConsumer)
    ensures RunActions(db, ACTIONS, consumer).processed == db.processed
  {
    assert ACTIONS[..1] == [TxSagaAction] && ACTIONS[..1][..0] == [];
    assert RunActions(db, ACTIONS[..1], consumer).processed == db.processed;
  }

  // ---- WithTx and the record handler ----

  /** Everything the environment decides about one attempt; `transient` is how its error is
      classified. */
  datatype Attempt =
    Attempt(begins: bool, budget: nat, publishAmbiguously: bool, commit: CommitOutcome, transient: bool)

  /** What an attempt may do to the tables: nil means committed, an error may hide a commit. */
  ghost predicate HandlerStep(db: Db, cmd: Command, result: HandlerResult, after: Db) {
    if result == Succeeded then after == Apply(db, cmd) else after == db || after == Apply(db, cmd)
  }

  ghost predicate RecordStep(db: Db, message: Message, result: HandlerResult, after: Db) {
    match MapToTxCommand(message)
    case Ok(cmd) => HandlerStep(db, cmd, result, after)
    case Err(_) => result == Permanent && after == db
  }

  /** The same of one attempt: an error of a decodable record is labelled as it was classified, and what
      did not begin or failed to commit changed nothing. */
  ghost predicate AttemptStep(db: Db, message: Message, attempt: Attempt, result: HandlerResult, after: Db) {
    && RecordStep(db, message, result, after)
    && (MapToTxCommand(message).Ok? ==>
          && (result == Succeeded ==> attempt.begins && attempt.commit == Committed)
          && (result != Succeeded ==> (result == Transient <==> attempt.transient))
          && (!attempt.begins || attempt.commit == CommitFailed ==> after == db))
  }

  /** The alarms an attempt gets out, kept even when it is rolled back. */
  function SentBy(db: Db, cmd: Command, attempt: Attempt, threshold: int): seq<Emission> {
    if attempt.begins then Sent(Emits(db, cmd, threshold), Ahead(cmd), attempt.budget, attempt.publishAmbiguously)
    else []
  }

  class Database {
    var db: Db
    var published: seq<Emission>    // the alarms topic: not part of the transaction
    const threshold: int

    constructor (threshold: int)
      ensures db == EMPTY && published == [] && this.threshold == threshold
    {
      db, published := EMPTY, [];
      this.threshold := threshold;
    }

    /** `WithTx` around `Consume`: all or nothing in the tables, while alarms already published stay. */
    method WithTx(cmd: Command, attempt: Attempt) returns (result: HandlerResult)
      modifies this
      ensures HandlerStep(old(db), cmd, result, db)
      ensures old(published) <= published <= old(published) + Emits(old(db), cmd, threshold)
      ensures result == Succeeded ==> attempt.begins && attempt.commit == Committed
      ensures result != Succeeded ==> (result == Transient <==> attempt.transient)
      ensures result == Succeeded || db != old(db) ==> attempt.budget >= Cost(old(db), cmd, threshold)
      ensures !attempt.begins ==> db == old(db)
      ensures attempt.commit == CommitFailed ==> db == old(db)
      ensures Integrity(old(db)) && attempt.begins && attempt.budget >= Cost(old(db), cmd, threshold) ==>
                && (result == Succeeded <==> attempt.commit == Committed)
                && db == if attempt.commit == CommitFailed then old(db) else Apply(old(db), cmd)
      ensures published
           == old(published) + SentBy(old(db), cmd, attempt, threshold)
      ensures result == Succeeded || db != old(db) ==> published == old(published) + Emits(old(db), cmd, threshold)
    {
      var failed := if attempt.transient then Transient else Permanent;
      if !attempt.begins {
        return failed;
      }
      var session := new Session(db, attempt.budget, attempt.publishAmbiguously, threshold);
      var err := session.Consume(cmd);
      published := published + session.emitted;
      if err.Some? {
        return failed;
      }
      match attempt.commit {
        case Committed =>
          db := session.db;
          return Succeeded;
        case CommitAmbiguous =>
          db := session.db;
          return failed;
        case CommitFailed =>
          return failed;
      }
    }

    /** The record consumer the tx-consumer gives to kgoconsumer. */
    method ConsumeRecord(message: Message, attempt: Attempt) returns (result: HandlerResult)
      modifies this
      ensures AttemptStep(old(db), message, attempt, result, db)
      ensures published
           == old(published)
              + match MapToTxCommand(message)
                case Ok(cmd) => SentBy(old(db), cmd, attempt, threshold)
                case Err(_) => []
    {
      var cmd := MapToTxCommand(message);
      if cmd.Err? {
        return Permanent;
      }
      result := WithTx(cmd.value, attempt);
    }
  }
}
