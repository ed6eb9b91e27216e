/** Both poll loops in the choreography: the tx-consumer and the validator poll the topic with a consumer
    group each, and every interleaving of their calls, polls, crashes, rebalances and restarts with the
    producer is a run of the choreography. Nothing is assumed about dead letters. */
module Pipeline {
  import opened Kafka
  import opened Codec
  import opened Batch
  import opened Group
  import opened GroupSafety
  import opened GroupDecisions
  import opened Reading
  import opened Validation
  import Contributions
  import Convergence
  import Tables
  import Saga

  type World = Choreography.World

  /** The two consumer groups, the world of the choreography, and where in the partitions the messages
      of its log are. */
  datatype Pipe = Pipe(consumer: Reader, validator: Reader, world: World, place: seq<Place>)

  datatype Event =
    | Produces(record: Record)                            // the producer appends
    | Consumer(reading: Reading.Event)                    // the tx-consumer's group, between its calls
    | Validator(reading: Reading.Event)                   // the validator's group, between its calls
    | Consumes(after: Tables.Db)                          // a call of the tx-consumer, one transaction
    | Publishes(attempt: Attempt, record: Record)         // a call of the validator publishes
    | Judges(attempt: Attempt, judged: set<string>)       // a call of the validator ends

  // ---- Steps ----

  ghost predicate Fits(p: Pipe, record: Record) {
    && Appendable(p.world.log, p.place, p.consumer.group, record)
    && Appendable(p.world.log, p.place, p.validator.group, record)
  }

  function Key(reader: Reader): string
    requires Calling(reader)
  {
    CallOf(reader).message.key
  }

  /** What the validator's running call has published. */
  function PublishedBy(p: Pipe): seq<Message>
    requires Calling(p.validator)
  {
    if Key(p.validator) in p.world.published then [p.world.published[Key(p.validator)]] else []
  }

  /** Only what the code and the broker do: nothing about the order in which records are reached. A
      process that dies inside a call is one whose call failed transiently just before, committed or
      not, so it has no publish of an unfinished attempt to leave behind. */
  ghost predicate Enabled(p: Pipe, e: Event) {
    match e
    case Produces(record) =>
      Choreography.Enabled(p.world, Choreography.Produce(record.message)) && Fits(p, record)
    case Consumer(reading) => Reading.Enabled(p.consumer, reading)
    case Validator(reading) =>
      Reading.Enabled(p.validator, reading) && (reading.Crashes? ==> p.world.published == map[])
    case Consumes(after) =>
      && Calling(p.consumer)
      && Saga.RecordStep(p.world.db, CallOf(p.consumer).message, AnswerOf(p.consumer), after)
    case Publishes(attempt, record) =>
      && Calling(p.validator) && Key(p.validator) !in p.world.published && Fits(p, record)
      && ValidatorStep(p.world.verdicts.Keys, [], CallOf(p.validator).message, attempt, Transient,
                       p.world.verdicts.Keys, [record.message])
      && (attempt.id.Some? ==> !Choreography.Occurs(p.world.log, attempt.id.value))
    case Judges(attempt, judged) =>
      && Calling(p.validator)
      && ValidatorStep(p.world.verdicts.Keys, [], CallOf(p.validator).message, attempt, AnswerOf(p.validator),
                       judged, PublishedBy(p))
  }

  ghost function Append(p: Pipe, record: Record): Pipe
    requires Fits(p, record)
  {
    Pipe(Appended(p.consumer, record), Appended(p.validator, record),
         p.world.(log := p.world.log + [record.message]), p.place + [PlaceOf(record)])
  }

  ghost function Next(p: Pipe, e: Event): Pipe
    requires Enabled(p, e)
  {
    var w := p.world;
    match e
    case Produces(record) => Append(p, record)
    case Consumer(reading) => p.(consumer := Reading.Next(p.consumer, reading))
    case Validator(reading) => p.(validator := Reading.Next(p.validator, reading))
    case Consumes(after) =>
      p.(consumer := Called(p.consumer),
         world := w.(db := after, cdone := DoneAfter(p.place, p.consumer, w.cdone)))
    case Publishes(_, record) =>
      var appended := Append(p, record);
      appended.(world := appended.world.(published := w.published[Key(p.validator) := record.message]))
    case Judges(_, judged) =>
      var key := Key(p.validator);
      p.(validator := Called(p.validator),
         world := w.(vdone := DoneAfter(p.place, p.validator, w.vdone), published := w.published - {key},
                     verdicts := if judged == w.verdicts.Keys then w.verdicts
                                 else w.verdicts[key := Verdict(p, key !in w.published)]))
  }

  ghost function Verdict(p: Pipe, accepted: bool): Choreography.Verdict
    requires Calling(p.validator)
    requires var cmd := MapToRegisterCommand(CallOf(p.validator).message); cmd.Ok? && cmd.value.Some?
  {
    Choreography.Verdict(accepted, MapToRegisterCommand(CallOf(p.validator).message).value.value)
  }

  // ---- Every step is one the choreography allows ----

  ghost predicate Inv(p: Pipe) {
    && Reading.Inv(p.world.log, p.place, p.consumer, p.world.cdone)
    && Reading.Inv(p.world.log, p.place, p.validator, p.world.vdone)
  }

  /** The event of the choreography that a call or an append is. */
  ghost function EventOf(p: Pipe, e: Event): Choreography.Event
    requires Enabled(p, e) && !e.Consumer? && !e.Validator?
  {
    match e
    case Produces(record) => Choreography.Produce(record.message)
    case Consumes(after) =>
      Choreography.Consume(IndexOf(p.place, CallOf(p.consumer)), AnswerOf(p.consumer), after)
    case Publishes(attempt, record) =>
      Choreography.Publish(IndexOf(p.place, CallOf(p.validator)), attempt, record.message)
    case Judges(attempt, judged) =>
      Choreography.Finish(IndexOf(p.place, CallOf(p.validator)), attempt, AnswerOf(p.validator), judged)
  }

  /** Every call of the tx-consumer is a consume step at the turn of its record. */
  lemma CallIsConsume(p: Pipe, e: Event)
    requires Inv(p) && e.Consumes? && Enabled(p, e)
    ensures Choreography.Enabled(p.world, EventOf(p, e))
    ensures Choreography.Next(p.world, EventOf(p, e)) == Next(p, e).world
  {
    CallIsAtItsTurn(p.world.log, p.place, p.consumer, p.world.cdone);
  }

  /** Every call of the validator publishes and ends at the turn of its record. */
  lemma CallIsPublish(p: Pipe, e: Event)
    requires Inv(p) && e.Publishes? && Enabled(p, e)
    ensures Choreography.Enabled(p.world, EventOf(p, e))
    ensures Choreography.Next(p.world, EventOf(p, e)) == Next(p, e).world
  {
    CallIsAtItsTurn(p.world.log, p.place, p.validator, p.world.vdone);
  }

  lemma CallIsFinish(p: Pipe, e: Event)
    requires Inv(p) && e.Judges? && Enabled(p, e)
    ensures Choreography.Enabled(p.world, EventOf(p, e))
    ensures Choreography.Next(p.world, EventOf(p, e)) == Next(p, e).world
  {
    CallIsAtItsTurn(p.world.log, p.place, p.validator, p.world.vdone);
  }

  lemma StepIsAllowed(p: Pipe, e: Event)
    requires Inv(p) && Enabled(p, e) && !e.Consumer? && !e.Validator?
    ensures Choreography.Enabled(p.world, EventOf(p, e))
    ensures Choreography.Next(p.world, EventOf(p, e)) == Next(p, e).world
  {
    match e {
      case Produces(_) =>
      case Consumes(_) => CallIsConsume(p, e);
      case Publishes(_, _) => CallIsPublish(p, e);
      case Judges(_, _) => CallIsFinish(p, e);
    }
  }

  // ---- What every step keeps ----

  lemma AppendKeeps(p: Pipe, record: Record)
    requires Inv(p) && Fits(p, record)
    ensures Inv(Append(p, record))
  {
    AppendKeepsInv(p.world.log, p.place, p.consumer, p.world.cdone, record);
    AppendKeepsInv(p.world.log, p.place, p.validator, p.world.vdone, record);
  }

  lemma StepKeepsInv(p: Pipe, e: Event)
    requires Inv(p) && Enabled(p, e)
    ensures Inv(Next(p, e))
  {
    match e {
      case Produces(record) => AppendKeeps(p, record);
      case Consumer(reading) => ReaderKeepsInv(p.world.log, p.place, p.consumer, p.world.cdone, reading);
      case Validator(reading) => ReaderKeepsInv(p.world.log, p.place, p.validator, p.world.vdone, reading);
      case Consumes(_) => CallKeepsInv(p.world.log, p.place, p.consumer, p.world.cdone);
      case Publishes(_, record) => AppendKeeps(p, record);
      case Judges(_, _) => CallKeepsInv(p.world.log, p.place, p.validator, p.world.vdone);
    }
  }

  // ---- Whole runs ----

  ghost predicate ValidRun(p: Pipe, events: seq<Event>)
    decreases |events|
  {
    events != [] ==> Enabled(p, events[0]) && ValidRun(Next(p, events[0]), events[1..])
  }

  ghost function Run(p: Pipe, events: seq<Event>): Pipe
    requires ValidRun(p, events)
    decreases |events|
  {
    if events == [] then p else Run(Next(p, events[0]), events[1..])
  }

  /** The validator does not roll back after publishing. */
  ghost predicate KeepsPublished(p: Pipe, events: seq<Event>)
    requires ValidRun(p, events)
    decreases |events|
  {
    events != [] ==>
      && (events[0].Judges? && PublishedBy(p) != [] ==> events[0].judged != p.world.verdicts.Keys)
      && KeepsPublished(Next(p, events[0]), events[1..])
  }

  /** No call that fails permanently leaves its command unhandled, or its register unjudged. */
  ghost predicate CallHandles(p: Pipe, e: Event)
    requires Enabled(p, e)
  {
    match e
    case Consumes(after) =>
      var cmd := MapToTxCommand(CallOf(p.consumer).message);
      cmd.Ok? && AnswerOf(p.consumer) == Permanent ==> Tables.Handled(after, cmd.value.Id())
    case Judges(_, judged) =>
      var cmd := MapToTxCommand(CallOf(p.validator).message);
      cmd.Ok? && cmd.value.Register? && AnswerOf(p.validator) == Permanent ==> cmd.value.Id() in judged
    case _ => true
  }

  ghost predicate AllHandle(p: Pipe, events: seq<Event>)
    requires ValidRun(p, events)
    decreases |events|
  {
    events != [] ==> CallHandles(p, events[0]) && AllHandle(Next(p, events[0]), events[1..])
  }

  lemma StepAgrees(p: Pipe, e: Event)
    requires Inv(p) && Enabled(p, e) && !e.Consumer? && !e.Validator?
    ensures Choreography.KeepsPublished(p.world, EventOf(p, e))
            <==> (e.Judges? && PublishedBy(p) != [] ==> e.judged != p.world.verdicts.Keys)
    ensures Choreography.Handles(p.world, EventOf(p, e)) <==> CallHandles(p, e)
  {
    match e {
      case Consumes(_) => CallIsAtItsTurn(p.world.log, p.place, p.consumer, p.world.cdone);
      case Judges(_, _) => CallIsAtItsTurn(p.world.log, p.place, p.validator, p.world.vdone);
      case _ =>
    }
  }

  lemma StepIsChoreography(p: Pipe, e: Event) returns (steps: seq<Choreography.Event>)
    requires Inv(p) && Enabled(p, e)
    ensures Choreography.ValidRun(p.world, steps) && Choreography.Run(p.world, steps) == Next(p, e).world
    ensures Choreography.AllKeepPublished(p.world, steps)
            <==> (e.Judges? && PublishedBy(p) != [] ==> e.judged != p.world.verdicts.Keys)
    ensures Choreography.AllHandle(p.world, steps) <==> CallHandles(p, e)
  {
    if e.Consumer? || e.Validator? {
      steps := [];
    } else {
      StepIsAllowed(p, e);
      StepAgrees(p, e);
      steps := [EventOf(p, e)];
      assert steps[1..] == [];
    }
  }

  /** Runs of the two poll loops and the producer are runs of the choreography. */
  lemma {:induction false} RunIsChoreography(p: Pipe, events: seq<Event>) returns (steps: seq<Choreography.Event>)
    requires Inv(p) && ValidRun(p, events)
    ensures Inv(Run(p, events))
    ensures Choreography.ValidRun(p.world, steps) && Choreography.Run(p.world, steps) == Run(p, events).world
    ensures Choreography.AllKeepPublished(p.world, steps) <==> KeepsPublished(p, events)
    ensures Choreography.AllHandle(p.world, steps) <==> AllHandle(p, events)
    decreases |events|
  {
    if events == [] {
      steps := [];
    } else {
      var first := StepIsChoreography(p, events[0]);
      StepKeepsInv(p, events[0]);
      var rest := RunIsChoreography(Next(p, events[0]), events[1..]);
      Choreography.Concat(p.world, first, rest);
      steps := first + rest;
    }
  }

  // ---- Convergence of the poll loops ----

  ghost predicate Untouched(g: Group) {
    g.logs == map[] && g.committed == map[] && g.position == map[] && g.settled == []
  }

  /** Nothing produced, nothing consumed. */
  ghost predicate Initial(p: Pipe) {
    && Untouched(p.consumer.group) && Untouched(p.validator.group)
    && p.consumer.polling.None? && p.validator.polling.None?
    && p.place == [] && p.world == Choreography.START
  }

  lemma UntouchedInv(g: Group)
    requires Untouched(g)
    ensures GroupInv([], [], g, {})
  {
    assert forall tp :: LogOf(g, tp) == map[];
    forall tp
      ensures OrderedAt(g, tp) && DecidedAt(g, tp)
    {
    }
  }

  lemma InitialInv(p: Pipe)
    requires Initial(p)
    ensures Inv(p)
  {
    UntouchedInv(p.consumer.group);
    UntouchedInv(p.validator.group);
  }

  /** Over any run of the poll loops every aggregate is the sum of the contributions of the transactions,
      and, the validator never rolling back after a publish, a transaction contributes what was decided
      exactly when it was handled as it was judged. */
  lemma PollLoopsContribute(p: Pipe, events: seq<Event>, t: string, key: Tables.Key)
    requires Initial(p) && ValidRun(p, events)
    ensures var w := Run(p, events).world;
            && Tables.Value(w.db, key) == Contributions.SumContributions(w, Contributions.Transactions(w.log), key)
            && (KeepsPublished(p, events) && t !in w.published && Convergence.PositiveValues(w.log) ==>
                  (Contributions.ContributesRight(w, t) <==> Contributions.AsJudged(w, t)))
  {
    InitialInv(p);
    var steps := RunIsChoreography(p, events);
    var w := Run(p, events).world;
    Contributions.AggregateIsContributions(steps, key);
    if KeepsPublished(p, events) && t !in w.published && Convergence.PositiveValues(w.log) {
      Contributions.ContributionIsRightIff(steps, t);
    }
  }

  /** Handled as judged, the poll loops bring every aggregate to the sum of the accepted values. */
  lemma PollLoopsConvergeAsJudged(p: Pipe, events: seq<Event>, key: Tables.Key)
    requires Initial(p) && ValidRun(p, events) && KeepsPublished(p, events)
    requires Run(p, events).world.published == map[] && Convergence.PositiveValues(Run(p, events).world.log)
    requires forall t | t in Contributions.Transactions(Run(p, events).world.log) ::
               Contributions.AsJudged(Run(p, events).world, t)
    ensures var w := Run(p, events).world;
            Tables.Value(w.db, key) == Contributions.SumExpected(w, Contributions.Transactions(w.log), key)
  {
    InitialInv(p);
    var steps := RunIsChoreography(p, events);
    Contributions.ConvergesAsJudged(steps, key);
  }

  /** The group has committed past the record at every index. */
  ghost predicate CommittedAll(place: seq<Place>, g: Group) {
    forall i: nat | i < |place| :: place[i].offset < At(g.committed, place[i].tp)
  }

  ghost predicate CaughtUp(p: Pipe) {
    CommittedAll(p.place, p.consumer.group) && CommittedAll(p.place, p.validator.group) && p.world.published == map[]
  }

  /** Committed offsets past every record mean that both consumers are through with the whole log. */
  lemma CaughtUpIsSettled(p: Pipe)
    requires Inv(p) && CaughtUp(p)
    ensures Convergence.Settled(p.world)
  {
    forall i: nat | i < |p.world.log|
      ensures i in p.world.cdone && i in p.world.vdone
    {
      CommittedIsDone(p.world.log, p.place, p.consumer, p.world.cdone, i);
      CommittedIsDone(p.world.log, p.place, p.validator, p.world.vdone, i);
    }
  }

  /** Once both groups have committed past every record, and no command was dead-lettered unhandled,
      every aggregate is the sum of the accepted values exactly when the validator never rolled back
      after publishing. */
  lemma PollLoopsConvergeIff(p: Pipe, events: seq<Event>)
    requires Initial(p) && ValidRun(p, events) && AllHandle(p, events)
    requires CaughtUp(Run(p, events)) && Convergence.PositiveValues(Run(p, events).world.log)
    ensures var w := Run(p, events).world;
            (forall key :: Tables.Value(w.db, key) == Convergence.AcceptedSum(w.log, w.verdicts, key))
            <==> KeepsPublished(p, events)
  {
    InitialInv(p);
    var steps := RunIsChoreography(p, events);
    CaughtUpIsSettled(Run(p, events));
    Convergence.ConvergesIff(steps);
  }
}
