/** The producer, the validator and the tx-consumer around the transactions topic, in any order of
    steps. A tx-consumer step is one attempt at one record; an attempt of the validator is a step that
    ends it and possibly, some time before that, a step that publishes. */
module Choreography {
  import opened Kafka
  import opened Codec
  import opened Batch
  import opened Tables
  import opened TopicLog
  import opened Validation
  import Saga

  /** cdone, vdone: the indexes the two consumers are through with. verdicts: the ids in the
      validator's processed table, with what was decided when they got there. published: what the
      attempts of the validator that are still running have published, by transaction. */
  datatype World = World(log: seq<Message>, db: Db, cdone: set<nat>, verdicts: map<string, Verdict>, vdone: set<nat>,
                         published: map<string, Message>)

  /** A decision on a register command. */
  datatype Verdict = Verdict(accepted: bool, register: RegisterCommand)

  datatype Event =
    | Produce(message: Message)
    | Consume(index: nat, result: HandlerResult, after: Db)
    | Publish(index: nat, attempt: Attempt, message: Message)
    | Finish(index: nat, attempt: Attempt, result: HandlerResult, judged: set<string>)

  /** The id occurs in the log. */
  predicate Occurs(log: seq<Message>, id: string) {
    exists i | 0 <= i < |log| :: Decoded(log[i]).Some? && Decoded(log[i]).value.Id() == id
  }

  predicate CompensationOccurs(log: seq<Message>, id: string) {
    exists i | 0 <= i < |log| ::
      Decoded(log[i]).Some? && Decoded(log[i]).value.Unregister? && Decoded(log[i]).value.Id() == id
  }

  /** Records with one key share a partition, so they are reached in order. */
  predicate AheadDone(log: seq<Message>, index: nat, done: set<nat>)
    requires index < |log|
  {
    forall j: nat | j < index && log[j].key == log[index].key :: j in done
  }

  /** An attempt at a record may end like this, having published these messages. */
  ghost predicate Judges(w: World, index: nat, attempt: Attempt, result: HandlerResult, judged: set<string>,
                         messages: seq<Message>)
    requires index < |w.log|
  {
    ValidatorStep(w.verdicts.Keys, [], w.log[index], attempt, result, judged, messages)
  }

  function PublishedFor(w: World, index: nat): seq<Message>
    requires index < |w.log|
  {
    if w.log[index].key in w.published then [w.published[w.log[index].key]] else []
  }

  /** The producer publishes register commands and, possibly, poison pills; ids of compensations are
      drawn fresh, and no transaction takes one of them. */
  ghost predicate Enabled(w: World, e: Event) {
    match e
    case Produce(message) =>
      Decoded(message).Some? ==>
        Decoded(message).value.Register? && !CompensationOccurs(w.log, Decoded(message).value.Id())
    case Consume(index, result, after) =>
      && index < |w.log| && AheadDone(w.log, index, w.cdone)
      && Saga.RecordStep(w.db, w.log[index], result, after)
    case Publish(index, attempt, message) =>
      && index < |w.log| && AheadDone(w.log, index, w.vdone) && w.log[index].key !in w.published
      && Judges(w, index, attempt, Transient, w.verdicts.Keys, [message])
      && (attempt.id.Some? ==> !Occurs(w.log, attempt.id.value))
    case Finish(index, attempt, result, judged) =>
      && index < |w.log| && AheadDone(w.log, index, w.vdone)
      && Judges(w, index, attempt, result, judged, PublishedFor(w, index))
  }

  function JudgedRegister(w: World, index: nat): RegisterCommand
    requires index < |w.log| && MapToRegisterCommand(w.log[index]).Ok? && MapToRegisterCommand(w.log[index]).value.Some?
  {
    MapToRegisterCommand(w.log[index]).value.value
  }

  ghost function Next(w: World, e: Event): World
    requires Enabled(w, e)
  {
    match e
    case Produce(message) => w.(log := w.log + [message])
    case Consume(index, result, after) =>
      w.(db := after, cdone := if result == Transient then w.cdone else w.cdone + {index})
    case Publish(index, attempt, message) =>
      w.(log := w.log + [message], published := w.published[w.log[index].key := message])
    case Finish(index, attempt, result, judged) =>
      var key := w.log[index].key;
      w.(vdone := if result == Transient then w.vdone else w.vdone + {index}, published := w.published - {key},
         verdicts := if judged == w.verdicts.Keys then w.verdicts
                     else w.verdicts[key := Verdict(key !in w.published, JudgedRegister(w, index))])
  }

  ghost predicate ValidRun(w: World, events: seq<Event>)
    decreases |events|
  {
    events != [] ==> Enabled(w, events[0]) && ValidRun(Next(w, events[0]), events[1..])
  }

  ghost function Run(w: World, events: seq<Event>): World
    requires ValidRun(w, events)
    decreases |events|
  {
    if events == [] then w else Run(Next(w, events[0]), events[1..])
  }

  const START := World([], EMPTY, {}, map[], {}, map[])

  /** No command is dead-lettered unhandled. */
  predicate Handles(w: World, e: Event) {
    match e
    case Produce(_) => true
    case Consume(index, result, after) =>
      index < |w.log| && Decoded(w.log[index]).Some? && result == Permanent ==>
        Handled(after, Decoded(w.log[index]).value.Id())
    case Publish(_, _, _) => true
    case Finish(index, _, result, judged) =>
      index < |w.log| && Decoded(w.log[index]).Some? && Decoded(w.log[index]).value.Register? && result == Permanent ==>
        Decoded(w.log[index]).value.Id() in judged
  }

  /** The validator does not roll back after publishing. */
  predicate KeepsPublished(w: World, e: Event) {
    e.Finish? && e.index < |w.log| && w.log[e.index].key in w.published ==> e.judged != w.verdicts.Keys
  }

  ghost predicate AllHandle(w: World, events: seq<Event>)
    requires ValidRun(w, events)
    decreases |events|
  {
    events != [] ==> Handles(w, events[0]) && AllHandle(Next(w, events[0]), events[1..])
  }

  ghost predicate AllKeepPublished(w: World, events: seq<Event>)
    requires ValidRun(w, events)
    decreases |events|
  {
    events != [] ==> KeepsPublished(w, events[0]) && AllKeepPublished(Next(w, events[0]), events[1..])
  }

  lemma {:induction false} Concat(w: World, a: seq<Event>, b: seq<Event>)
    requires ValidRun(w, a) && ValidRun(Run(w, a), b)
    ensures ValidRun(w, a + b) && Run(w, a + b) == Run(Run(w, a), b)
    ensures AllHandle(w, a + b) <==> AllHandle(w, a) && AllHandle(Run(w, a), b)
    ensures AllKeepPublished(w, a + b) <==> AllKeepPublished(w, a) && AllKeepPublished(Run(w, a), b)
    decreases |a|
  {
    if a == [] {
      assert a + b == b;
    } else {
      assert (a + b)[0] == a[0] && (a + b)[1..] == a[1..] + b;
      Concat(Next(w, a[0]), a[1..], b);
    }
  }

  // ---- The log ----

  lemma AppendKeepsLog(log: seq<Message>, m: Message)
    requires LogOk(log)
    requires Decoded(m).Some? && Decoded(m).value.Register? ==> !CompensationOccurs(log, Decoded(m).value.Id())
    requires Decoded(m).Some? && Decoded(m).value.Unregister? ==>
               !Occurs(log, Decoded(m).value.Id())
               && exists i: nat :: i < |log| && IsFirstRegister(log, i, Decoded(m).value.register)
    ensures LogOk(log + [m])
  {
    var after := log + [m];
    assert after[..|log|] == log;
    forall j: nat | j < |after|
      ensures WellPlaced(after, j)
    {
      if Decoded(after[j]).Some? && Decoded(after[j]).value.Unregister? {
        if j < |log| {
          assert WellPlaced(log, j);
          PrefixIsNew(after, |log|, j);
          FirstStays(log, m, Decoded(log[j]).value.register, j);
        } else {
          FirstStays(log, m, Decoded(m).value.register, |log|);
        }
      }
    }
  }

  lemma FirstStays(log: seq<Message>, m: Message, r: RegisterCommand, j: nat)
    requires exists i: nat :: i < |log| && i < j && IsFirstRegister(log, i, r)
    ensures exists i: nat :: i < |log| && i < j && IsFirstRegister(log + [m], i, r)
  {
    var i: nat :| i < |log| && i < j && IsFirstRegister(log, i, r);
    assert (log + [m])[..|log|] == log;
    PrefixIsNew(log + [m], |log|, i);
    assert IsFirstRegister(log + [m], i, r);
  }

  // ---- The tx-consumer ----

  ghost predicate DoneIsProcessed(w: World) {
    forall i: nat | i in w.cdone ::
      i < |w.log| && (Decoded(w.log[i]).Some? ==> Handled(w.db, Decoded(w.log[i]).value.Id()))
  }

  ghost predicate TargetsMarked(db: Db) {
    forall u | u in db.processed && db.processed[u].Some? :: db.processed[u].value in db.processed
  }

  ghost predicate ProcessedOccurs(w: World) {
    forall id | id in w.db.processed :: Occurs(w.log, id)
  }

  ghost predicate Summed(w: World) {
    forall key :: Value(w.db, key) == TermSum(w.log, w.db.processed.Keys, key)
  }

  ghost predicate ConsumerInv(w: World) {
    && LogOk(w.log) && TargetsProcessed(w.log, w.db.processed.Keys)
    && DoneIsProcessed(w) && TargetsMarked(w.db) && ProcessedOccurs(w) && Summed(w)
  }

  lemma OccursStays(log: seq<Message>, m: Message, id: string)
    requires Occurs(log, id)
    ensures Occurs(log + [m], id)
  {
    var i :| 0 <= i < |log| && Decoded(log[i]).Some? && Decoded(log[i]).value.Id() == id;
    assert (log + [m])[i] == log[i];
  }

  lemma AppendKeepsTargets(w: World, m: Message)
    requires TargetsProcessed(w.log, w.db.processed.Keys) && ProcessedOccurs(w)
    requires Decoded(m).Some? && Decoded(m).value.Unregister? ==> !Occurs(w.log, Decoded(m).value.Id())
    ensures TargetsProcessed(w.log + [m], w.db.processed.Keys)
  {
  }

  lemma AppendKeepsSums(w: World, m: Message, key: Key)
    requires ProcessedOccurs(w)
    ensures TermSum(w.log + [m], w.db.processed.Keys, key) == TermSum(w.log, w.db.processed.Keys, key)
  {
    if Decoded(m).Some? && Decoded(m).value.Id() in w.db.processed {
      assert Occurs(w.log, Decoded(m).value.Id());
    }
    TermSumAppend(w.log, m, w.db.processed.Keys, key);
  }

  lemma AppendKeepsConsumer(w: World, m: Message)
    requires ConsumerInv(w) && LogOk(w.log + [m])
    requires Decoded(m).Some? && Decoded(m).value.Unregister? ==> !Occurs(w.log, Decoded(m).value.Id())
    ensures ConsumerInv(w.(log := w.log + [m]))
  {
    var after := w.(log := w.log + [m]);
    forall id | id in w.db.processed
      ensures Occurs(after.log, id)
    {
      OccursStays(w.log, m, id);
    }
    AppendKeepsTargets(w, m);
    forall key
      ensures Value(after.db, key) == TermSum(after.log, after.db.processed.Keys, key)
    {
      AppendKeepsSums(w, m, key);
    }
  }

  /** A command that reaches the tx-consumer unprocessed is the first with its id, and its register, if
      it is a compensation, has been handled. */
  lemma ReachedIsNew(w: World, index: nat)
    requires ConsumerInv(w) && index < |w.log| && AheadDone(w.log, index, w.cdone)
    requires Decoded(w.log[index]).Some? && !Handled(w.db, Decoded(w.log[index]).value.Id())
    ensures IsNew(w.log, index)
    ensures Decoded(w.log[index]).value.Unregister? ==>
              Handled(w.db, Decoded(w.log[index]).value.register.transactionId)
  {
    var cmd := Decoded(w.log[index]).value;
    assert WellPlaced(w.log, index);
    forall j | 0 <= j < index && Decoded(w.log[j]).Some?
      ensures Decoded(w.log[j]).value.Id() != cmd.Id()
    {
      assert WellPlaced(w.log, j);
    }
    if cmd.Unregister? {
      var i: nat :| i < index && IsFirstRegister(w.log, i, cmd.register);
      assert w.log[i].key == w.log[index].key;
    }
  }

  lemma DeltaIsSigned(db: Db, cmd: Command)
    requires TargetsMarked(db) && !Handled(db, cmd.Id())
    ensures Delta(db, cmd) == Signed(cmd)
  {
  }

  lemma ApplyKeepsTargets(db: Db, cmd: Command)
    requires TargetsMarked(db) && !Handled(db, cmd.Id())
    requires cmd.Unregister? ==> Handled(db, cmd.register.transactionId)
    ensures TargetsMarked(Apply(db, cmd))
  {
    var after := Apply(db, cmd);
    assert after.processed == Marked(db, cmd).processed;
  }

  lemma ApplyKeepsSums(w: World, index: nat)
    requires ConsumerInv(w) && index < |w.log| && AheadDone(w.log, index, w.cdone)
    requires Decoded(w.log[index]).Some? && !Handled(w.db, Decoded(w.log[index]).value.Id())
    ensures Summed(w.(db := Apply(w.db, Decoded(w.log[index]).value)))
  {
    var cmd := Decoded(w.log[index]).value;
    ReachedIsNew(w, index);
    DeltaIsSigned(w.db, cmd);
    ApplyMarks(w.db, cmd);
    forall key
      ensures Value(Apply(w.db, cmd), key) == TermSum(w.log, Apply(w.db, cmd).processed.Keys, key)
    {
      TermSumAdd(w.log, w.db.processed.Keys, index, key);
    }
  }

  lemma ApplyKeepsConsumer(w: World, index: nat)
    requires ConsumerInv(w) && index < |w.log| && AheadDone(w.log, index, w.cdone)
    requires Decoded(w.log[index]).Some? && !Handled(w.db, Decoded(w.log[index]).value.Id())
    ensures ConsumerInv(w.(db := Apply(w.db, Decoded(w.log[index]).value)))
  {
    var cmd := Decoded(w.log[index]).value;
    var after := w.(db := Apply(w.db, cmd));
    ReachedIsNew(w, index);
    ApplyKeepsTargets(w.db, cmd);
    ApplyKeepsSums(w, index);
    ApplyMarks(w.db, cmd);
    assert after.db.processed.Keys == w.db.processed.Keys + {cmd.Id()};
    forall id | id in after.db.processed
      ensures Occurs(w.log, id)
    {
      assert id != cmd.Id() ==> id in w.db.processed;
    }
    forall j | 0 <= j < |w.log| && Decoded(w.log[j]).Some? && Decoded(w.log[j]).value.Unregister?
      && Decoded(w.log[j]).value.Id() in after.db.processed.Keys
      ensures Decoded(w.log[j]).value.register.transactionId in after.db.processed.Keys
    {
      assert WellPlaced(w.log, j);
    }
  }

  lemma ConsumeKeepsConsumer(w: World, e: Event)
    requires ConsumerInv(w) && e.Consume? && Enabled(w, e) && Handles(w, e)
    ensures ConsumerInv(Next(w, e))
  {
    var cmd := Decoded(w.log[e.index]);
    if cmd.Some? && e.after != w.db {
      ApplyKeepsConsumer(w, e.index);
    }
  }

  // ---- The validator ----

  /** How many compensations in the log name t. */
  function Named(log: seq<Message>, t: string): nat {
    if log == [] then 0
    else Named(log[..|log| - 1], t) + if Names(log[|log| - 1], t) then 1 else 0
  }

  predicate Names(m: Message, t: string) {
    Decoded(m).Some? && Decoded(m).value.Unregister? && Decoded(m).value.register.transactionId == t
  }

  predicate Rejected(w: World, t: string) {
    t in w.verdicts && !w.verdicts[t].accepted
  }

  /** The compensations of t beyond those that its verdict or a running attempt accounts for. */
  function Excess(w: World, t: string): int {
    Named(w.log, t) - (if Rejected(w, t) then 1 else 0) - (if t in w.published then 1 else 0)
  }

  ghost predicate DoneIsJudged(w: World) {
    forall i: nat | i in w.vdone :: i < |w.log| && (IsRegister(w.log[i]) ==> Decoded(w.log[i]).value.Id() in w.verdicts)
  }

  predicate IsRegister(m: Message) {
    Decoded(m).Some? && Decoded(m).value.Register?
  }

  /** Attempts still running have not judged their transaction. */
  ghost predicate RunningIsUnjudged(w: World) {
    forall t | t in w.published :: t !in w.verdicts
  }

  ghost predicate Inv(w: World) {
    ConsumerInv(w) && DoneIsJudged(w) && RunningIsUnjudged(w)
  }

  lemma NamedAppend(log: seq<Message>, m: Message, t: string)
    ensures Named(log + [m], t) == Named(log, t) + if Names(m, t) then 1 else 0
  {
    assert (log + [m])[..|log|] == log;
  }

  /** An attempt of the validator that publishes or marks anything is at a register of an id that is
      not judged yet, and all it publishes is one compensation of it. */
  lemma JudgesUnjudged(w: World, index: nat, attempt: Attempt, result: HandlerResult, judged: set<string>,
                       messages: seq<Message>) returns (cmd: RegisterCommand)
    requires index < |w.log| && Judges(w, index, attempt, result, judged, messages)
    requires messages != [] || judged != w.verdicts.Keys
    ensures Decoded(w.log[index]) == Some(Register(cmd)) && w.log[index].key == cmd.transactionId
    ensures MapToRegisterCommand(w.log[index]) == Ok(Some(cmd)) && cmd.transactionId !in w.verdicts
    ensures judged == w.verdicts.Keys || judged == w.verdicts.Keys + {cmd.transactionId}
    ensures messages != [] ==>
              && Rejects(attempt) && messages == [NewUnregisterMessage(attempt.id.value, attempt.now, cmd)]
              && Decoded(messages[0]) == Some(Unregister(attempt.id.value, attempt.now, cmd))
  {
    cmd := MapToRegisterCommand(w.log[index]).value.value;
    ConsumersAgree(w.log[index], cmd);
    if messages != [] {
      UnregisterRoundTrip(attempt.id.value, attempt.now, cmd);
    }
  }

  /** What was decided is what the validator answered in the attempt that marks the id. */
  lemma VerdictIsTheAnswer(w: World, index: nat, attempt: Attempt, result: HandlerResult, judged: set<string>)
    requires Enabled(w, Finish(index, attempt, result, judged)) && judged != w.verdicts.Keys
    ensures var after, id := Next(w, Finish(index, attempt, result, judged)), w.log[index].key;
            && id !in w.verdicts && id in after.verdicts
            && attempt.verdict == Some(after.verdicts[id].accepted)
            && Decoded(w.log[index]) == Some(Register(after.verdicts[id].register))
            && after.verdicts[id].register.transactionId == id
  {
    var cmd := JudgesUnjudged(w, index, attempt, result, judged, PublishedFor(w, index));
  }

  /** When no register was dead-lettered by the validator, it is the first register of its id. */
  lemma JudgesFirstRegister(w: World, index: nat, attempt: Attempt, result: HandlerResult, judged: set<string>,
                            messages: seq<Message>) returns (cmd: RegisterCommand)
    requires LogOk(w.log) && DoneIsJudged(w) && index < |w.log| && AheadDone(w.log, index, w.vdone)
    requires Judges(w, index, attempt, result, judged, messages)
    requires messages != [] || judged != w.verdicts.Keys
    ensures IsFirstRegister(w.log, index, cmd) && w.log[index].key == cmd.transactionId
    ensures cmd.transactionId !in w.verdicts
    ensures judged == w.verdicts.Keys || judged == w.verdicts.Keys + {cmd.transactionId}
    ensures messages != [] ==>
              && Rejects(attempt) && messages == [NewUnregisterMessage(attempt.id.value, attempt.now, cmd)]
              && Decoded(messages[0]) == Some(Unregister(attempt.id.value, attempt.now, cmd))
  {
    cmd := JudgesUnjudged(w, index, attempt, result, judged, messages);
    forall j | 0 <= j < index && Decoded(w.log[j]).Some?
      ensures Decoded(w.log[j]).value.Id() != cmd.transactionId
    {
      assert WellPlaced(w.log, j);
    }
  }

  lemma PublishKeepsInv(w: World, e: Event)
    requires Inv(w) && e.Publish? && Enabled(w, e)
    ensures Inv(Next(w, e))
  {
    var cmd := JudgesFirstRegister(w, e.index, e.attempt, Transient, w.verdicts.Keys, [e.message]);
    AppendKeepsLog(w.log, e.message);
    AppendKeepsConsumer(w, e.message);
  }

  lemma FinishKeepsInv(w: World, e: Event)
    requires Inv(w) && e.Finish? && Enabled(w, e) && Handles(w, e)
    ensures Inv(Next(w, e))
  {
    var after := Next(w, e);
    if e.judged != w.verdicts.Keys {
      var cmd := JudgesFirstRegister(w, e.index, e.attempt, e.result, e.judged, PublishedFor(w, e.index));
    }
    assert after.verdicts.Keys == e.judged;
    if IsRegister(w.log[e.index]) {
      ConsumersAgree(w.log[e.index], Decoded(w.log[e.index]).value.register);
    }
  }

  lemma StepKeepsInv(w: World, e: Event)
    requires Inv(w) && Enabled(w, e) && Handles(w, e)
    ensures Inv(Next(w, e))
  {
    match e {
      case Produce(message) =>
        AppendKeepsLog(w.log, message);
        AppendKeepsConsumer(w, message);
      case Consume(_, _, _) => ConsumeKeepsConsumer(w, e);
      case Publish(_, _, _) => PublishKeepsInv(w, e);
      case Finish(_, _, _, _) => FinishKeepsInv(w, e);
    }
  }

  lemma {:induction false} RunKeepsInv(w: World, events: seq<Event>)
    requires Inv(w) && ValidRun(w, events) && AllHandle(w, events)
    ensures Inv(Run(w, events))
    decreases |events|
  {
    if events == [] {
    } else {
      StepKeepsInv(w, events[0]);
      RunKeepsInv(Next(w, events[0]), events[1..]);
    }
  }
}
