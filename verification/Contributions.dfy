/** What every transaction contributes to the aggregates in any run of the choreography, also when
    commands are dead-lettered before they were handled. */
module Contributions {
  import opened Kafka
  import opened Codec
  import opened Batch
  import opened Tables
  import opened TopicLog
  import opened Choreography
  import opened Convergence
  import Conservation

  // ---- The log ----

  predicate IsUnregister(m: Message) {
    Decoded(m).Some? && Decoded(m).value.Unregister?
  }

  ghost predicate RegisterOccurs(log: seq<Message>, r: RegisterCommand) {
    exists i :: 0 <= i < |log| && Decoded(log[i]) == Some(Register(r))
  }

  /** A compensation has an id of its own and carries the payload of some register. */
  ghost predicate FairlyPlaced(log: seq<Message>, j: nat)
    requires j < |log|
  {
    IsUnregister(log[j]) ==>
      && (forall i | 0 <= i < |log| && i != j && Decoded(log[i]).Some? ::
            Decoded(log[i]).value.Id() != Decoded(log[j]).value.Id())
      && RegisterOccurs(log, Decoded(log[j]).value.register)
  }

  ghost predicate FairLog(log: seq<Message>) {
    forall j: nat | j < |log| :: FairlyPlaced(log, j)
  }

  lemma RegisterStays(log: seq<Message>, m: Message, r: RegisterCommand)
    requires RegisterOccurs(log, r)
    ensures RegisterOccurs(log + [m], r)
  {
    var i :| 0 <= i < |log| && Decoded(log[i]) == Some(Register(r));
    assert (log + [m])[i] == log[i];
  }

  lemma RegisterAt(log: seq<Message>, i: nat, r: RegisterCommand)
    requires i < |log| && Decoded(log[i]) == Some(Register(r))
    ensures RegisterOccurs(log, r)
  {
  }

  lemma AppendKeepsFair(log: seq<Message>, m: Message)
    requires FairLog(log)
    requires Decoded(m).Some? && Decoded(m).value.Register? ==> !CompensationOccurs(log, Decoded(m).value.Id())
    requires IsUnregister(m) ==> !Occurs(log, Decoded(m).value.Id()) && RegisterOccurs(log, Decoded(m).value.register)
    ensures FairLog(log + [m])
  {
    var after := log + [m];
    forall j: nat | j < |after|
      ensures FairlyPlaced(after, j)
    {
      if IsUnregister(after[j]) {
        if j < |log| {
          assert FairlyPlaced(log, j) && after[j] == log[j];
          RegisterStays(log, m, Decoded(log[j]).value.register);
        } else {
          RegisterStays(log, m, Decoded(m).value.register);
        }
      }
    }
  }

  // ---- Sums over the log ----

  function UndoneTerm(m: Message, processed: set<string>, key: Key): int {
    if IsUnregister(m) && Decoded(m).value.Id() in processed && KeyOf(Decoded(m).value.register) == key
    then Decoded(m).value.register.value
    else 0
  }

  /** The values of the processed compensations in the log. */
  function UndoneSum(log: seq<Message>, processed: set<string>, key: Key): int {
    if log == [] then 0
    else UndoneSum(log[..|log| - 1], processed, key) + UndoneTerm(log[|log| - 1], processed, key)
  }

  lemma {:induction false} UndoneAbsent(log: seq<Message>, processed: set<string>, id: string, key: Key)
    requires forall i | 0 <= i < |log| && IsUnregister(log[i]) :: Decoded(log[i]).value.Id() != id
    ensures UndoneSum(log, processed + {id}, key) == UndoneSum(log, processed, key)
  {
    if log == [] {
    } else {
      UndoneAbsent(log[..|log| - 1], processed, id, key);
    }
  }

  lemma {:induction false} UndoneAdd(log: seq<Message>, processed: set<string>, i: nat, key: Key)
    requires i < |log| && IsUnregister(log[i]) && Decoded(log[i]).value.Id() !in processed
    requires forall j | 0 <= j < |log| && j != i && IsUnregister(log[j]) ::
               Decoded(log[j]).value.Id() != Decoded(log[i]).value.Id()
    ensures var u := Decoded(log[i]).value;
            UndoneSum(log, processed + {u.Id()}, key)
            == UndoneSum(log, processed, key) + if KeyOf(u.register) == key then u.register.value else 0
  {
    var n := |log| - 1;
    if i == n {
      UndoneAbsent(log[..n], processed, Decoded(log[i]).value.Id(), key);
    } else {
      UndoneAdd(log[..n], processed, i, key);
    }
  }

  lemma UndoneAppend(log: seq<Message>, m: Message, processed: set<string>, key: Key)
    requires IsUnregister(m) ==> Decoded(m).value.Id() !in processed
    ensures UndoneSum(log + [m], processed, key) == UndoneSum(log, processed, key)
  {
    assert (log + [m])[..|log|] == log;
  }

  // ---- What every run keeps, with no hypothesis on dead letters ----

  ghost predicate BalancedAt(w: World, key: Key) {
    Value(w.db, key) == Conservation.SumRows(w.db.logs, key) - UndoneSum(w.log, w.db.processed.Keys, key)
  }

  ghost predicate RowOccurs(w: World, t: string)
    requires t in w.db.logs
  {
    exists r :: RegisterOccurs(w.log, r) && r.transactionId == t && w.db.logs[t] == RowOf(r)
  }

  ghost predicate VerdictOccurs(w: World, t: string)
    requires t in w.verdicts
  {
    w.verdicts[t].register.transactionId == t && RegisterOccurs(w.log, w.verdicts[t].register)
  }

  ghost predicate TablesFair(w: World) {
    && LogIntegrity(w.db) && ProcessedOccurs(w)
    && (forall t | t in w.db.logs :: RowOccurs(w, t))
    && (forall key :: BalancedAt(w, key))
  }

  ghost predicate FairInv(w: World) {
    FairLog(w.log) && TablesFair(w) && VerdictsFair(w)
  }

  lemma RowStays(w: World, m: Message, t: string)
    requires t in w.db.logs && RowOccurs(w, t)
    ensures RowOccurs(w.(log := w.log + [m]), t)
  {
    var r :| RegisterOccurs(w.log, r) && r.transactionId == t && w.db.logs[t] == RowOf(r);
    RegisterStays(w.log, m, r);
  }

  lemma AppendKeepsTables(w: World, m: Message)
    requires TablesFair(w)
    requires IsUnregister(m) ==> !Occurs(w.log, Decoded(m).value.Id())
    ensures TablesFair(w.(log := w.log + [m]))
  {
    var after := w.(log := w.log + [m]);
    forall id | id in w.db.processed
      ensures Occurs(after.log, id)
    {
      OccursStays(w.log, m, id);
    }
    forall t | t in w.db.logs
      ensures RowOccurs(after, t)
    {
      RowStays(w, m, t);
    }
    forall key
      ensures BalancedAt(after, key)
    {
      assert BalancedAt(w, key);
      UndoneAppend(w.log, m, w.db.processed.Keys, key);
    }
  }

  lemma AppendKeepsFairInv(w: World, m: Message)
    requires FairInv(w) && FairLog(w.log + [m])
    requires IsUnregister(m) ==> !Occurs(w.log, Decoded(m).value.Id())
    ensures FairInv(w.(log := w.log + [m]))
  {
    AppendKeepsTables(w, m);
    forall t | t in w.verdicts
      ensures VerdictOccurs(w.(log := w.log + [m]), t)
    {
      assert VerdictOccurs(w, t);
      RegisterStays(w.log, m, w.verdicts[t].register);
    }
  }

  /** Handling a register of the log keeps the balance of every aggregate. */
  lemma RegisterKeepsBalance(w: World, index: nat, key: Key)
    requires FairLog(w.log) && LogIntegrity(w.db) && BalancedAt(w, key)
    requires index < |w.log| && IsRegister(w.log[index]) && !Handled(w.db, Decoded(w.log[index]).value.Id())
    ensures BalancedAt(w.(db := Apply(w.db, Decoded(w.log[index]).value)), key)
  {
    var cmd := Decoded(w.log[index]).value;
    ApplyMarks(w.db, cmd);
    forall i | 0 <= i < |w.log| && IsUnregister(w.log[i])
      ensures Decoded(w.log[i]).value.Id() != cmd.Id()
    {
      assert FairlyPlaced(w.log, i);
    }
    UndoneAbsent(w.log, w.db.processed.Keys, cmd.Id(), key);
    if !Compensated(w.db, cmd.Id()) {
      Conservation.SumRowsInsert(w.db.logs, cmd.Id(), RowOf(cmd.register), key);
    }
  }

  lemma UnregisterKeepsBalance(w: World, index: nat, key: Key)
    requires FairLog(w.log) && BalancedAt(w, key)
    requires index < |w.log| && IsUnregister(w.log[index]) && !Handled(w.db, Decoded(w.log[index]).value.Id())
    ensures BalancedAt(w.(db := Apply(w.db, Decoded(w.log[index]).value)), key)
  {
    ApplyMarks(w.db, Decoded(w.log[index]).value);
    assert FairlyPlaced(w.log, index);
    UndoneAdd(w.log, w.db.processed.Keys, index, key);
  }

  lemma ApplyKeepsRows(w: World, index: nat, t: string)
    requires forall s | s in w.db.logs :: RowOccurs(w, s)
    requires index < |w.log| && Decoded(w.log[index]).Some?
    requires t in Apply(w.db, Decoded(w.log[index]).value).logs
    ensures RowOccurs(w.(db := Apply(w.db, Decoded(w.log[index]).value)), t)
  {
    var cmd := Decoded(w.log[index]).value;
    var after := w.(db := Apply(w.db, cmd));
    if t in w.db.logs && after.db.logs[t] == w.db.logs[t] {
      assert RowOccurs(w, t);
    } else {
      RegisterAt(w.log, index, cmd.register);
      assert after.db.logs[t] == RowOf(cmd.register) && cmd.register.transactionId == t;
    }
  }

  lemma ApplyKeepsLogIntegrity(db: Db, cmd: Command)
    requires LogIntegrity(db)
    ensures LogIntegrity(Apply(db, cmd))
  {
    var after := Apply(db, cmd);
    ApplyMarks(db, cmd);
    assert db.aggregates.Keys <= after.aggregates.Keys;
  }

  lemma ApplyKeepsOccurs(w: World, index: nat)
    requires ProcessedOccurs(w) && index < |w.log| && Decoded(w.log[index]).Some?
    ensures ProcessedOccurs(w.(db := Apply(w.db, Decoded(w.log[index]).value)))
  {
    var cmd := Decoded(w.log[index]).value;
    ApplyMarks(w.db, cmd);
    forall id | id in Apply(w.db, cmd).processed
      ensures Occurs(w.log, id)
    {
      assert id != cmd.Id() ==> id in w.db.processed;
    }
  }

  lemma ApplyKeepsTables(w: World, index: nat)
    requires FairLog(w.log) && TablesFair(w)
    requires index < |w.log| && Decoded(w.log[index]).Some? && !Handled(w.db, Decoded(w.log[index]).value.Id())
    ensures TablesFair(w.(db := Apply(w.db, Decoded(w.log[index]).value)))
  {
    var cmd := Decoded(w.log[index]).value;
    var after := w.(db := Apply(w.db, cmd));
    ApplyKeepsLogIntegrity(w.db, cmd);
    ApplyKeepsOccurs(w, index);
    forall t | t in after.db.logs
      ensures RowOccurs(after, t)
    {
      ApplyKeepsRows(w, index, t);
    }
    forall key
      ensures BalancedAt(after, key)
    {
      assert BalancedAt(w, key);
      if cmd.Register? {
        RegisterKeepsBalance(w, index, key);
      } else {
        UnregisterKeepsBalance(w, index, key);
      }
    }
  }

  ghost predicate VerdictsFair(w: World) {
    forall t | t in w.verdicts :: VerdictOccurs(w, t)
  }

  /** The tables and the log are all that TablesFair is about. */
  lemma TablesCarry(w: World, after: World)
    requires TablesFair(w) && after.log == w.log && after.db == w.db
    ensures TablesFair(after)
  {
    forall key
      ensures BalancedAt(after, key)
    {
      assert BalancedAt(w, key);
    }
    forall t | t in after.db.logs
      ensures RowOccurs(after, t)
    {
      assert RowOccurs(w, t);
    }
    forall id | id in after.db.processed
      ensures Occurs(after.log, id)
    {
    }
  }

  lemma VerdictsCarry(w: World, after: World)
    requires VerdictsFair(w) && after.log == w.log && after.verdicts == w.verdicts
    ensures VerdictsFair(after)
  {
    forall t | t in after.verdicts
      ensures VerdictOccurs(after, t)
    {
      assert VerdictOccurs(w, t);
    }
  }

  lemma ConsumeKeepsTables(w: World, index: nat, result: HandlerResult, after: Db)
    requires FairLog(w.log) && TablesFair(w) && index < |w.log|
    requires Saga.RecordStep(w.db, w.log[index], result, after)
    ensures TablesFair(w.(db := after))
  {
    if after != w.db {
      assert Decoded(w.log[index]).Some? && after == Apply(w.db, Decoded(w.log[index]).value);
      ApplyKeepsTables(w, index);
    } else {
      TablesCarry(w, w.(db := after));
    }
  }

  lemma ConsumeKeepsFair(w: World, e: Event)
    requires FairInv(w) && e.Consume? && Enabled(w, e)
    ensures FairInv(Next(w, e))
  {
    ConsumeKeepsTables(w, e.index, e.result, e.after);
    TablesCarry(w.(db := e.after), Next(w, e));
    VerdictsCarry(w, Next(w, e));
  }

  lemma PublishKeepsFair(w: World, e: Event)
    requires FairInv(w) && e.Publish? && Enabled(w, e)
    ensures FairInv(Next(w, e))
  {
    var cmd := JudgesUnjudged(w, e.index, e.attempt, Transient, w.verdicts.Keys, [e.message]);
    RegisterAt(w.log, e.index, cmd);
    AppendKeepsFair(w.log, e.message);
    AppendKeepsFairInv(w, e.message);
    var appended := w.(log := w.log + [e.message]);
    TablesCarry(appended, Next(w, e));
    VerdictsCarry(appended, Next(w, e));
  }

  lemma FinishKeepsVerdicts(w: World, e: Event)
    requires VerdictsFair(w) && e.Finish? && Enabled(w, e)
    ensures VerdictsFair(Next(w, e))
  {
    var after := Next(w, e);
    if e.judged != w.verdicts.Keys {
      var cmd := JudgesUnjudged(w, e.index, e.attempt, e.result, e.judged, PublishedFor(w, e.index));
      RegisterAt(w.log, e.index, cmd);
      assert VerdictOccurs(after, w.log[e.index].key);
    }
    forall t | t in after.verdicts
      ensures VerdictOccurs(after, t)
    {
      if t in w.verdicts && after.verdicts[t] == w.verdicts[t] {
        assert VerdictOccurs(w, t);
      }
    }
  }

  lemma FinishKeepsFair(w: World, e: Event)
    requires FairInv(w) && e.Finish? && Enabled(w, e)
    ensures FairInv(Next(w, e))
  {
    FinishKeepsVerdicts(w, e);
    TablesCarry(w, Next(w, e));
  }

  lemma StepKeepsFair(w: World, e: Event)
    requires FairInv(w) && Enabled(w, e)
    ensures FairInv(Next(w, e))
  {
    match e {
      case Produce(message) =>
        AppendKeepsFair(w.log, message);
        AppendKeepsFairInv(w, message);
      case Consume(_, _, _) => ConsumeKeepsFair(w, e);
      case Publish(_, _, _) => PublishKeepsFair(w, e);
      case Finish(_, _, _, _) => FinishKeepsFair(w, e);
    }
  }

  lemma {:induction false} RunKeepsFair(w: World, events: seq<Event>)
    requires FairInv(w) && ValidRun(w, events)
    ensures FairInv(Run(w, events))
    decreases |events|
  {
    if events == [] {
    } else {
      StepKeepsFair(w, events[0]);
      RunKeepsFair(Next(w, events[0]), events[1..]);
    }
  }

  /** In every reachable state, whatever was dead-lettered, an aggregate is the sum of its log rows less
      the values of the processed compensations in the log. */
  lemma BalanceAtAnyTime(events: seq<Event>, key: Key)
    requires ValidRun(START, events)
    ensures FairInv(Run(START, events))
    ensures var w := Run(START, events);
            Value(w.db, key) == Conservation.SumRows(w.db.logs, key) - UndoneSum(w.log, w.db.processed.Keys, key)
  {
    forall k
      ensures BalancedAt(START, k)
    {
    }
    RunKeepsFair(START, events);
    assert BalancedAt(Run(START, events), key);
  }

  // ---- Compensations against verdicts ----

  /** Every compensation in the log belongs to an attempt still running, or to a rejection. */
  ghost predicate AccountedFor(w: World, j: nat)
    requires j < |w.log|
  {
    IsUnregister(w.log[j]) ==>
      var r := Decoded(w.log[j]).value.register;
      || (r.transactionId in w.published && w.log[j] == w.published[r.transactionId])
      || (Rejected(w, r.transactionId) && w.verdicts[r.transactionId].register == r)
  }

  ghost predicate Accounted(w: World) {
    forall j: nat | j < |w.log| :: AccountedFor(w, j)
  }

  lemma PublishKeepsAccounted(w: World, e: Event)
    requires Accounted(w) && e.Publish? && Enabled(w, e)
    ensures Accounted(Next(w, e))
  {
    var after := Next(w, e);
    var cmd := JudgesUnjudged(w, e.index, e.attempt, Transient, w.verdicts.Keys, [e.message]);
    forall j: nat | j < |after.log|
      ensures AccountedFor(after, j)
    {
      if j < |w.log| {
        assert AccountedFor(w, j) && after.log[j] == w.log[j];
      }
    }
  }

  lemma FinishKeepsAccounted(w: World, e: Event)
    requires Accounted(w) && e.Finish? && Enabled(w, e) && KeepsPublished(w, e)
    ensures Accounted(Next(w, e))
  {
    var after := Next(w, e);
    if PublishedFor(w, e.index) != [] || e.judged != w.verdicts.Keys {
      var cmd := JudgesUnjudged(w, e.index, e.attempt, e.result, e.judged, PublishedFor(w, e.index));
    }
    forall j: nat | j < |after.log|
      ensures AccountedFor(after, j)
    {
      assert AccountedFor(w, j);
    }
  }

  lemma StepKeepsAccounted(w: World, e: Event)
    requires Accounted(w) && Enabled(w, e) && KeepsPublished(w, e)
    ensures Accounted(Next(w, e))
  {
    match e {
      case Publish(_, _, _) => PublishKeepsAccounted(w, e);
      case Finish(_, _, _, _) => FinishKeepsAccounted(w, e);
      case _ =>
        forall j: nat | j < |Next(w, e).log|
          ensures AccountedFor(Next(w, e), j)
        {
          if j < |w.log| {
            assert AccountedFor(w, j);
          }
        }
    }
  }

  lemma {:induction false} RunKeepsAccounted(w: World, events: seq<Event>)
    requires Accounted(w) && ValidRun(w, events) && AllKeepPublished(w, events)
    ensures Accounted(Run(w, events))
    decreases |events|
  {
    if events == [] {
    } else {
      StepKeepsAccounted(w, events[0]);
      RunKeepsAccounted(Next(w, events[0]), events[1..]);
    }
  }

  // ---- The compensations of one transaction ----

  /** The values of the processed compensations that name t. */
  function UndoneOf(log: seq<Message>, processed: set<string>, t: string, key: Key): int {
    if log == [] then 0
    else
      var last := log[|log| - 1];
      UndoneOf(log[..|log| - 1], processed, t, key) + if Names(last, t) then UndoneTerm(last, processed, key) else 0
  }

  lemma {:induction false} UndoneOfNone(log: seq<Message>, processed: set<string>, t: string, key: Key)
    requires Named(log, t) == 0
    ensures UndoneOf(log, processed, t, key) == 0
  {
    if log == [] {
    } else {
      UndoneOfNone(log[..|log| - 1], processed, t, key);
    }
  }

  lemma {:induction false} NamedSome(log: seq<Message>, t: string, j: nat)
    requires j < |log| && Names(log[j], t)
    ensures Named(log, t) > 0
  {
    if j < |log| - 1 {
      NamedSome(log[..|log| - 1], t, j);
    }
  }

  lemma {:induction false} UndoneOfOne(log: seq<Message>, processed: set<string>, t: string, key: Key, j: nat)
    requires j < |log| && Names(log[j], t) && Named(log, t) <= 1
    ensures UndoneOf(log, processed, t, key) == UndoneTerm(log[j], processed, key)
  {
    var n := |log| - 1;
    if j == n {
      UndoneOfNone(log[..n], processed, t, key);
    } else {
      NamedSome(log[..n], t, j);
      UndoneOfOne(log[..n], processed, t, key, j);
    }
  }

  lemma {:induction false} NamedOnce(log: seq<Message>, t: string, i: nat, j: nat)
    requires i < |log| && j < |log| && Names(log[i], t) && Names(log[j], t) && Named(log, t) <= 1
    ensures i == j
  {
    var n := |log| - 1;
    if i < n {
      NamedSome(log[..n], t, i);
    }
    if j < n {
      NamedSome(log[..n], t, j);
    }
    if i < n && j < n {
      NamedOnce(log[..n], t, i, j);
    }
  }

  // ---- Contributions ----

  /** What transaction t adds to an aggregate: its log row, less its processed compensations. */
  function Contribution(w: World, t: string, key: Key): int {
    (if t in w.db.logs then Conservation.RowShare(w.db.logs[t], key) else 0)
    - UndoneOf(w.log, w.db.processed.Keys, t, key)
  }

  function RegisterShare(r: RegisterCommand, key: Key): int {
    if KeyOf(r) == key then r.value else 0
  }

  /** What it should add: the value the validator accepted. */
  function Expected(w: World, t: string, key: Key): int {
    if t in w.verdicts && w.verdicts[t].accepted then RegisterShare(w.verdicts[t].register, key) else 0
  }

  ghost predicate ContributesRight(w: World, t: string) {
    forall key :: Contribution(w, t, key) == Expected(w, t, key)
  }

  /** Some compensation of t is processed. */
  predicate Undone(w: World, t: string) {
    exists j: nat :: j < |w.log| && Compensates(w.log[j], w.db.processed.Keys, t)
  }

  predicate ExecutedAs(w: World, r: RegisterCommand) {
    r.transactionId in w.db.logs
    && w.db.logs[r.transactionId].key == KeyOf(r) && w.db.logs[r.transactionId].value == r.value
  }

  /** An accepted register was executed, a rejected one was executed exactly when its compensation was
      processed, and what was never judged was not executed. */
  predicate AsJudged(w: World, t: string) {
    if t !in w.verdicts then t !in w.db.logs
    else if w.verdicts[t].accepted || Undone(w, t) then ExecutedAs(w, w.verdicts[t].register)
    else t !in w.db.logs
  }

  /** The compensations of t in the log are those of its rejection. */
  ghost predicate OnlyOfVerdict(w: World, t: string) {
    && Named(w.log, t) == (if Rejected(w, t) then 1 else 0)
    && forall j: nat | j < |w.log| && Names(w.log[j], t) ::
         Rejected(w, t) && Decoded(w.log[j]).value.register == w.verdicts[t].register
  }

  lemma OnlyOfVerdicts(events: seq<Event>, t: string)
    requires ValidRun(START, events) && AllKeepPublished(START, events) && t !in Run(START, events).published
    ensures OnlyOfVerdict(Run(START, events), t)
  {
    var w := Run(START, events);
    RunExcess(START, events, t);
    RunKeepsAccounted(START, events);
    forall j: nat | j < |w.log| && Names(w.log[j], t)
      ensures Rejected(w, t) && Decoded(w.log[j]).value.register == w.verdicts[t].register
    {
      assert AccountedFor(w, j);
    }
  }

  lemma {:induction false} NamedAt(log: seq<Message>, t: string) returns (j: nat)
    requires Named(log, t) > 0
    ensures j < |log| && Names(log[j], t)
  {
    var n := |log| - 1;
    if Names(log[n], t) {
      j := n;
    } else {
      j := NamedAt(log[..n], t);
    }
  }

  /** The compensations of t take off the rejected value, if processed. */
  lemma UndoneOfVerdict(w: World, t: string, key: Key)
    requires OnlyOfVerdict(w, t)
    ensures UndoneOf(w.log, w.db.processed.Keys, t, key)
         == if Undone(w, t) then RegisterShare(w.verdicts[t].register, key) else 0
    ensures Undone(w, t) ==> Rejected(w, t)
  {
    if Undone(w, t) {
      var j: nat :| j < |w.log| && Compensates(w.log[j], w.db.processed.Keys, t);
      assert Names(w.log[j], t);
      UndoneOfOne(w.log, w.db.processed.Keys, t, key, j);
    } else if Rejected(w, t) {
      var j := NamedAt(w.log, t);
      assert !Compensates(w.log[j], w.db.processed.Keys, t);
      UndoneOfOne(w.log, w.db.processed.Keys, t, key, j);
    } else {
      UndoneOfNone(w.log, w.db.processed.Keys, t, key);
    }
  }

  lemma RowIsPositive(w: World, t: string)
    requires FairInv(w) && PositiveValues(w.log)
    ensures t in w.db.logs ==> w.db.logs[t].value > 0
    ensures t in w.verdicts ==> w.verdicts[t].register.value > 0 && w.verdicts[t].register.transactionId == t
  {
    if t in w.db.logs {
      assert RowOccurs(w, t);
    }
    if t in w.verdicts {
      assert VerdictOccurs(w, t);
    }
  }

  /** A row and a register weigh the same in every aggregate only if they agree. */
  lemma SharesAgree(present: bool, row: LogRow, wanted: bool, r: RegisterCommand)
    requires (present ==> row.value > 0) && (wanted ==> r.value > 0)
    ensures (forall key :: (if present then Conservation.RowShare(row, key) else 0)
                           == (if wanted then RegisterShare(r, key) else 0))
            <==> present == wanted && (present ==> row.key == KeyOf(r) && row.value == r.value)
  {
    var own, other := Conservation.RowShare(row, row.key), Conservation.RowShare(row, KeyOf(r));
    if forall key :: (if present then Conservation.RowShare(row, key) else 0)
                     == (if wanted then RegisterShare(r, key) else 0) {
      assert (if present then own else 0) == if wanted then RegisterShare(r, row.key) else 0;
      assert (if present then other else 0) == if wanted then RegisterShare(r, KeyOf(r)) else 0;
    }
  }

  lemma ContributionForm(w: World, t: string, key: Key)
    requires OnlyOfVerdict(w, t)
    ensures Contribution(w, t, key) == Expected(w, t, key)
            <==> (if t in w.db.logs then Conservation.RowShare(w.db.logs[t], key) else 0)
                 == if t in w.verdicts && (w.verdicts[t].accepted || Undone(w, t))
                    then RegisterShare(w.verdicts[t].register, key) else 0
  {
    UndoneOfVerdict(w, t, key);
  }

  lemma RightIff(w: World, t: string)
    requires FairInv(w) && PositiveValues(w.log) && OnlyOfVerdict(w, t)
    ensures ContributesRight(w, t) <==> AsJudged(w, t)
  {
    RowIsPositive(w, t);
    var present, wanted := t in w.db.logs, t in w.verdicts && (w.verdicts[t].accepted || Undone(w, t));
    var row := if present then w.db.logs[t] else LogRow(Key("", "", 0), 0, 0);
    var r := if wanted then w.verdicts[t].register else RegisterCommand("", "", "", 0, 0);
    SharesAgree(present, row, wanted, r);
    forall key
      ensures Contribution(w, t, key) == Expected(w, t, key)
              <==> (if present then Conservation.RowShare(row, key) else 0)
                   == (if wanted then RegisterShare(r, key) else 0)
    {
      ContributionForm(w, t, key);
    }
  }

  /** Exactly when a transaction ends up contributing what the validator decided, whatever was
      dead-lettered on the way by either consumer. */
  lemma ContributionIsRightIff(events: seq<Event>, t: string)
    requires ValidRun(START, events) && AllKeepPublished(START, events)
    requires t !in Run(START, events).published && PositiveValues(Run(START, events).log)
    ensures ContributesRight(Run(START, events), t) <==> AsJudged(Run(START, events), t)
  {
    BalanceAtAnyTime(events, Key("", "", 0));
    OnlyOfVerdicts(events, t);
    RightIff(Run(START, events), t);
  }

  // ---- Negative contributions ----

  /** The log row outweighs the compensation. */
  predicate Covered(w: World, r: RegisterCommand) {
    r.transactionId in w.db.logs
    && w.db.logs[r.transactionId].key == KeyOf(r) && w.db.logs[r.transactionId].value >= r.value
  }

  predicate UndoneCovered(w: World, t: string) {
    forall j: nat | j < |w.log| && Compensates(w.log[j], w.db.processed.Keys, t) ::
      Covered(w, Decoded(w.log[j]).value.register)
  }

  lemma NamedAtMostOnce(events: seq<Event>, t: string)
    requires ValidRun(START, events) && AllKeepPublished(START, events)
    ensures Named(Run(START, events).log, t) <= 1
  {
    RunExcess(START, events, t);
    RunKeepsUnjudged(START, events);
  }

  lemma {:induction false} RunKeepsUnjudged(w: World, events: seq<Event>)
    requires RunningIsUnjudged(w) && ValidRun(w, events)
    ensures RunningIsUnjudged(Run(w, events))
    decreases |events|
  {
    if events == [] {
    } else {
      match events[0] {
        case Publish(index, attempt, message) =>
          var cmd := JudgesUnjudged(w, index, attempt, Transient, w.verdicts.Keys, [message]);
        case _ =>
      }
      RunKeepsUnjudged(Next(w, events[0]), events[1..]);
    }
  }

  lemma UncoveredIsNegative(w: World, t: string, j: nat)
    requires FairInv(w) && PositiveValues(w.log) && Named(w.log, t) <= 1
    requires j < |w.log| && Compensates(w.log[j], w.db.processed.Keys, t)
    ensures var r := Decoded(w.log[j]).value.register;
            !Covered(w, r) ==> Contribution(w, t, KeyOf(r)) < 0
    ensures Covered(w, Decoded(w.log[j]).value.register) ==> forall key :: Contribution(w, t, key) >= 0
  {
    var r := Decoded(w.log[j]).value.register;
    assert Names(w.log[j], t) && FairlyPlaced(w.log, j) && RegisterOccurs(w.log, r);
    RowIsPositive(w, t);
    forall key
      ensures UndoneOf(w.log, w.db.processed.Keys, t, key) == RegisterShare(r, key)
    {
      UndoneOfOne(w.log, w.db.processed.Keys, t, key, j);
    }
  }

  lemma {:induction false} NothingUndone(log: seq<Message>, processed: set<string>, t: string, key: Key)
    requires forall j: nat | j < |log| :: !Compensates(log[j], processed, t)
    ensures UndoneOf(log, processed, t, key) == 0
  {
    if log == [] {
    } else {
      assert !Compensates(log[|log| - 1], processed, t);
      NothingUndone(log[..|log| - 1], processed, t, key);
    }
  }

  lemma CoveredOnce(w: World, t: string, j: nat)
    requires Named(w.log, t) <= 1 && j < |w.log| && Compensates(w.log[j], w.db.processed.Keys, t)
    ensures UndoneCovered(w, t) <==> Covered(w, Decoded(w.log[j]).value.register)
  {
    forall i: nat | i < |w.log| && Compensates(w.log[i], w.db.processed.Keys, t)
      ensures i == j
    {
      assert Names(w.log[i], t) && Names(w.log[j], t);
      NamedOnce(w.log, t, i, j);
    }
  }

  lemma NotUndoneIsNonNegative(w: World, t: string)
    requires FairInv(w) && PositiveValues(w.log) && !Undone(w, t)
    ensures forall key :: Contribution(w, t, key) >= 0
  {
    RowIsPositive(w, t);
    forall key
      ensures Contribution(w, t, key) >= 0
    {
      NothingUndone(w.log, w.db.processed.Keys, t, key);
    }
  }

  lemma NegativeIff(w: World, t: string)
    requires FairInv(w) && PositiveValues(w.log) && Named(w.log, t) <= 1
    ensures (exists key :: Contribution(w, t, key) < 0) <==> !UndoneCovered(w, t)
  {
    if Undone(w, t) {
      var j: nat :| j < |w.log| && Compensates(w.log[j], w.db.processed.Keys, t);
      UncoveredIsNegative(w, t, j);
      CoveredOnce(w, t, j);
    } else {
      NotUndoneIsNonNegative(w, t);
    }
  }

  /** Exactly when a transaction takes more off some aggregate than it put there: its compensation is
      processed, and its register was not executed for at least that value. */
  lemma ContributionIsNegativeIff(events: seq<Event>, t: string)
    requires ValidRun(START, events) && AllKeepPublished(START, events)
    requires PositiveValues(Run(START, events).log)
    ensures var w := Run(START, events);
            (exists key :: Contribution(w, t, key) < 0) <==> !UndoneCovered(w, t)
  {
    BalanceAtAnyTime(events, Key("", "", 0));
    NamedAtMostOnce(events, t);
    NegativeIff(Run(START, events), t);
  }

  // ---- Aggregates are sums of contributions ----

  ghost function Transactions(log: seq<Message>): set<string> {
    set i | 0 <= i < |log| && IsRegister(log[i]) :: Decoded(log[i]).value.Id()
  }

  lemma HasId(ids: set<string>)
    requires |ids| != 0
    ensures exists t :: t in ids
  {
    assert (forall t :: t !in ids) ==> ids == {};
  }

  ghost function SomeId(ids: set<string>): (t: string)
    requires |ids| != 0
    ensures t in ids
  {
    HasId(ids);
    var t :| t in ids;
    t
  }

  ghost function SumContributions(w: World, ids: set<string>, key: Key): int {
    if |ids| == 0 then 0
    else var t := SomeId(ids); Contribution(w, t, key) + SumContributions(w, ids - {t}, key)
  }

  /** The sum of the values that the validator accepted. */
  ghost function SumExpected(w: World, ids: set<string>, key: Key): int {
    if |ids| == 0 then 0
    else var t := SomeId(ids); Expected(w, t, key) + SumExpected(w, ids - {t}, key)
  }

  function UndoneWithin(log: seq<Message>, processed: set<string>, ids: set<string>, key: Key): int {
    if log == [] then 0
    else
      var last := log[|log| - 1];
      UndoneWithin(log[..|log| - 1], processed, ids, key)
      + if IsUnregister(last) && Decoded(last).value.register.transactionId in ids
        then UndoneTerm(last, processed, key)
        else 0
  }

  lemma {:induction false} UndoneWithinRemove(log: seq<Message>, processed: set<string>, ids: set<string>, t: string,
                                              key: Key)
    requires t in ids
    ensures UndoneWithin(log, processed, ids, key)
         == UndoneWithin(log, processed, ids - {t}, key) + UndoneOf(log, processed, t, key)
  {
    if log == [] {
    } else {
      UndoneWithinRemove(log[..|log| - 1], processed, ids, t, key);
    }
  }

  lemma {:induction false} UndoneWithinNone(log: seq<Message>, processed: set<string>, ids: set<string>, key: Key)
    requires |ids| == 0
    ensures UndoneWithin(log, processed, ids, key) == 0
  {
    assert ids == {};
    if log == [] {
    } else {
      UndoneWithinNone(log[..|log| - 1], processed, ids, key);
    }
  }

  lemma {:induction false} UndoneWithinAll(log: seq<Message>, processed: set<string>, ids: set<string>, key: Key)
    requires forall i | 0 <= i < |log| && IsUnregister(log[i]) :: Decoded(log[i]).value.register.transactionId in ids
    ensures UndoneWithin(log, processed, ids, key) == UndoneSum(log, processed, key)
  {
    if log == [] {
    } else {
      UndoneWithinAll(log[..|log| - 1], processed, ids, key);
    }
  }

  ghost function Restricted(logs: map<string, LogRow>, ids: set<string>): map<string, LogRow> {
    map t | t in logs && t in ids :: logs[t]
  }

  lemma RestrictedRemove(logs: map<string, LogRow>, ids: set<string>, t: string, key: Key)
    requires t in ids
    ensures Conservation.SumRows(Restricted(logs, ids), key)
         == Conservation.SumRows(Restricted(logs, ids - {t}), key)
            + if t in logs then Conservation.RowShare(logs[t], key) else 0
  {
    var all := Restricted(logs, ids);
    if t in logs {
      Conservation.SumRowsRemove(all, t, key);
      assert all - {t} == Restricted(logs, ids - {t});
    } else {
      assert all == Restricted(logs, ids - {t});
    }
  }

  lemma {:induction false} ContributionsAddUp(w: World, ids: set<string>, key: Key)
    ensures SumContributions(w, ids, key)
         == Conservation.SumRows(Restricted(w.db.logs, ids), key) - UndoneWithin(w.log, w.db.processed.Keys, ids, key)
  {
    if |ids| == 0 {
      assert Restricted(w.db.logs, ids) == map[];
      UndoneWithinNone(w.log, w.db.processed.Keys, ids, key);
    } else {
      var t := SomeId(ids);
      ContributionsAddUp(w, ids - {t}, key);
      RestrictedRemove(w.db.logs, ids, t, key);
      UndoneWithinRemove(w.log, w.db.processed.Keys, ids, t, key);
    }
  }

  lemma RegisterIsTransaction(log: seq<Message>, r: RegisterCommand)
    requires RegisterOccurs(log, r)
    ensures r.transactionId in Transactions(log)
  {
    var i :| 0 <= i < |log| && Decoded(log[i]) == Some(Register(r));
    assert IsRegister(log[i]) && Decoded(log[i]).value.Id() == r.transactionId;
  }

  lemma LoggedAreTransactions(w: World)
    requires FairInv(w)
    ensures Restricted(w.db.logs, Transactions(w.log)) == w.db.logs
  {
    forall t | t in w.db.logs
      ensures t in Transactions(w.log)
    {
      assert RowOccurs(w, t);
      var r :| RegisterOccurs(w.log, r) && r.transactionId == t && w.db.logs[t] == RowOf(r);
      RegisterIsTransaction(w.log, r);
    }
  }

  lemma TargetsAreTransactions(log: seq<Message>)
    requires FairLog(log)
    ensures forall i | 0 <= i < |log| && IsUnregister(log[i]) ::
              Decoded(log[i]).value.register.transactionId in Transactions(log)
  {
    forall i: nat | i < |log| && IsUnregister(log[i])
      ensures Decoded(log[i]).value.register.transactionId in Transactions(log)
    {
      assert FairlyPlaced(log, i);
      RegisterIsTransaction(log, Decoded(log[i]).value.register);
    }
  }

  /** In every reachable state an aggregate is the sum of the contributions of the transactions in the
      log. */
  lemma AggregateIsContributions(events: seq<Event>, key: Key)
    requires ValidRun(START, events)
    ensures var w := Run(START, events);
            Value(w.db, key) == SumContributions(w, Transactions(w.log), key)
  {
    var w := Run(START, events);
    BalanceAtAnyTime(events, key);
    ContributionsAddUp(w, Transactions(w.log), key);
    LoggedAreTransactions(w);
    TargetsAreTransactions(w.log);
    UndoneWithinAll(w.log, w.db.processed.Keys, Transactions(w.log), key);
  }

  lemma {:induction false} RightAddsUp(w: World, ids: set<string>, key: Key)
    requires forall t | t in ids :: ContributesRight(w, t)
    ensures SumContributions(w, ids, key) == SumExpected(w, ids, key)
  {
    if |ids| == 0 {
    } else {
      assert ContributesRight(w, SomeId(ids));
      RightAddsUp(w, ids - {SomeId(ids)}, key);
    }
  }

  lemma {:induction false} NonNegativeAddsUp(w: World, ids: set<string>, key: Key)
    requires forall t | t in ids :: Contribution(w, t, key) >= 0
    ensures SumContributions(w, ids, key) >= 0
  {
    if |ids| == 0 {
    } else {
      NonNegativeAddsUp(w, ids - {SomeId(ids)}, key);
    }
  }

  /** Convergence with dead letters: no attempt running and every transaction handled as it was judged,
      every aggregate is the sum of the accepted values. */
  lemma ConvergesAsJudged(events: seq<Event>, key: Key)
    requires ValidRun(START, events) && AllKeepPublished(START, events)
    requires Run(START, events).published == map[] && PositiveValues(Run(START, events).log)
    requires forall t | t in Transactions(Run(START, events).log) :: AsJudged(Run(START, events), t)
    ensures var w := Run(START, events);
            Value(w.db, key) == SumExpected(w, Transactions(w.log), key)
  {
    var w := Run(START, events);
    forall t | t in Transactions(w.log)
      ensures ContributesRight(w, t)
    {
      ContributionIsRightIff(events, t);
    }
    RightAddsUp(w, Transactions(w.log), key);
    AggregateIsContributions(events, key);
  }

  /** With dead letters, no aggregate is negative while every processed compensation is covered by the
      log row of its transaction. */
  lemma NonNegativeWhileCovered(events: seq<Event>, key: Key)
    requires ValidRun(START, events) && AllKeepPublished(START, events)
    requires PositiveValues(Run(START, events).log)
    requires forall t | t in Transactions(Run(START, events).log) :: UndoneCovered(Run(START, events), t)
    ensures Value(Run(START, events).db, key) >= 0
  {
    var w := Run(START, events);
    forall t | t in Transactions(w.log)
      ensures Contribution(w, t, key) >= 0
    {
      ContributionIsNegativeIff(events, t);
    }
    NonNegativeAddsUp(w, Transactions(w.log), key);
    AggregateIsContributions(events, key);
  }
}
