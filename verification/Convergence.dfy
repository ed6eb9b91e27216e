/** Where the choreography ends up: the aggregates against the validator's verdicts. */
module Convergence {
  import opened Kafka
  import opened Codec
  import opened Batch
  import opened Tables
  import opened TopicLog
  import opened Choreography

  // ---- Compensations against verdicts ----

  lemma StepExcess(w: World, e: Event, t: string)
    requires Enabled(w, e)
    ensures Excess(Next(w, e), t) >= Excess(w, t)
    ensures KeepsPublished(w, e) ==> Excess(Next(w, e), t) == Excess(w, t)
    ensures !KeepsPublished(w, e) && t == w.log[e.index].key ==> Excess(Next(w, e), t) > Excess(w, t)
  {
    match e {
      case Produce(message) => NamedAppend(w.log, message, t);
      case Consume(_, _, _) =>
      case Publish(index, attempt, message) =>
        var cmd := JudgesUnjudged(w, index, attempt, Transient, w.verdicts.Keys, [message]);
        NamedAppend(w.log, message, t);
      case Finish(index, attempt, result, judged) =>
        if PublishedFor(w, index) != [] || judged != w.verdicts.Keys {
          var cmd := JudgesUnjudged(w, index, attempt, result, judged, PublishedFor(w, index));
        }
    }
  }

  /** Excess compensations are never taken back, and arise exactly where the validator rolls back
      after publishing. */
  lemma {:induction false} RunExcess(w: World, events: seq<Event>, t: string)
    requires ValidRun(w, events)
    ensures Excess(Run(w, events), t) >= Excess(w, t)
    ensures AllKeepPublished(w, events) ==> Excess(Run(w, events), t) == Excess(w, t)
    decreases |events|
  {
    if events == [] {
    } else {
      StepExcess(w, events[0], t);
      RunExcess(Next(w, events[0]), events[1..], t);
    }
  }

  lemma {:induction false} RollbackExceeds(w: World, events: seq<Event>) returns (t: string)
    requires ValidRun(w, events) && !AllKeepPublished(w, events)
    ensures Excess(Run(w, events), t) > Excess(w, t)
    decreases |events|
  {
    var after := Next(w, events[0]);
    if KeepsPublished(w, events[0]) {
      t := RollbackExceeds(after, events[1..]);
    } else {
      t := w.log[events[0].index].key;
      RunExcess(after, events[1..], t);
    }
    StepExcess(w, events[0], t);
  }

  // ---- Sums ----

  /** The register at i, if it is the first with its id and the validator accepted it. */
  ghost function AcceptedTerm(log: seq<Message>, i: nat, verdicts: map<string, Verdict>, key: Key): int
    requires i < |log|
  {
    if IsNew(log, i) && Decoded(log[i]).value.Register?
       && Decoded(log[i]).value.Id() in verdicts && verdicts[Decoded(log[i]).value.Id()].accepted
    then SignedShare(Decoded(log[i]).value, key)
    else 0
  }

  /** The sum of the values of the first-occurrence registers that the validator accepted. */
  ghost function AcceptedSum(log: seq<Message>, verdicts: map<string, Verdict>, key: Key): int {
    if log == [] then 0
    else AcceptedSum(log[..|log| - 1], verdicts, key) + AcceptedTerm(log, |log| - 1, verdicts, key)
  }

  ghost predicate PositiveValues(log: seq<Message>) {
    forall i | 0 <= i < |log| && IsRegister(log[i]) :: Decoded(log[i]).value.register.value > 0
  }

  /** Both consumers are through with the whole log, and no attempt is running. */
  ghost predicate Settled(w: World) {
    w.published == map[] && forall i: nat | i < |w.log| :: i in w.cdone && i in w.vdone
  }

  /** How many compensations of t go beyond its verdict, were all of them processed. */
  function Surplus(full: seq<Message>, processed: set<string>, verdicts: map<string, Verdict>, t: string): int {
    Compensations(full, processed, t) - if t in verdicts && !verdicts[t].accepted then 1 else 0
  }

  ghost predicate RegistersSettled(log: seq<Message>, processed: set<string>, verdicts: map<string, Verdict>) {
    forall i | 0 <= i < |log| && IsRegister(log[i]) ::
      Decoded(log[i]).value.Id() in processed && Decoded(log[i]).value.Id() in verdicts
  }

  /** No compensation is missing, and one in excess weighs something. */
  predicate NoneMissing(m: Message, full: seq<Message>, processed: set<string>, verdicts: map<string, Verdict>) {
    IsRegister(m) ==>
      var surplus := Surplus(full, processed, verdicts, Decoded(m).value.Id());
      surplus >= 0 && (surplus > 0 ==> Decoded(m).value.register.value > 0)
  }

  predicate Exceeds(m: Message, full: seq<Message>, processed: set<string>, verdicts: map<string, Verdict>) {
    IsRegister(m) && Surplus(full, processed, verdicts, Decoded(m).value.Id()) > 0
  }

  lemma TermAgainstAccepted(log: seq<Message>, n: nat, full: seq<Message>, processed: set<string>,
                            verdicts: map<string, Verdict>, key: Key)
    requires RegistersSettled(log, processed, verdicts)
    requires n < |log| && NoneMissing(log[n], full, processed, verdicts)
    ensures NetTerm(log, n, full, processed, key) <= AcceptedTerm(log, n, verdicts, key)
    ensures !Exceeds(log[n], full, processed, verdicts) ==>
              NetTerm(log, n, full, processed, key) == AcceptedTerm(log, n, verdicts, key)
    ensures Exceeds(log[n], full, processed, verdicts) && IsNew(log, n)
            && KeyOf(Decoded(log[n]).value.register) == key ==>
              NetTerm(log, n, full, processed, key) < AcceptedTerm(log, n, verdicts, key)
  {
    if IsRegister(log[n]) {
      var cmd := Decoded(log[n]).value;
      Term(SignedShare(cmd, key), Compensations(full, processed, cmd.Id()), verdicts[cmd.Id()].accepted);
    }
  }

  /** The net sum is the accepted sum where no compensation is in excess, and falls short of it in the
      aggregate of a register whose compensations are. */
  lemma {:induction false} NetAgainstAccepted(log: seq<Message>, full: seq<Message>, processed: set<string>,
                                              verdicts: map<string, Verdict>, key: Key, short: nat)
    requires RegistersSettled(log, processed, verdicts)
    requires forall i | 0 <= i < |log| :: NoneMissing(log[i], full, processed, verdicts)
    requires short < |log| ==>
               Exceeds(log[short], full, processed, verdicts)
               && IsNew(log, short) && KeyOf(Decoded(log[short]).value.register) == key
    ensures NetSum(log, full, processed, key) <= AcceptedSum(log, verdicts, key)
    ensures short < |log| ==> NetSum(log, full, processed, key) < AcceptedSum(log, verdicts, key)
    ensures (forall i | 0 <= i < |log| :: !Exceeds(log[i], full, processed, verdicts)) ==>
              NetSum(log, full, processed, key) == AcceptedSum(log, verdicts, key)
  {
    if log == [] {
    } else {
      var n := |log| - 1;
      if short < n {
        PrefixIsNew(log, n, short);
      }
      NetAgainstAccepted(log[..n], full, processed, verdicts, key, short);
      TermAgainstAccepted(log, n, full, processed, verdicts, key);
    }
  }

  lemma Term(share: int, count: int, accepted: bool)
    ensures var surplus := count - if accepted then 0 else 1;
            share * (1 - count) == (if accepted then share else 0) - share * surplus
            && (surplus == 0 ==> share * surplus == 0)
            && (share >= 0 && surplus > 0 ==> share * surplus >= share)
  {
  }

  lemma {:induction false} AllCompensationsProcessed(log: seq<Message>, processed: set<string>, t: string)
    requires forall i | 0 <= i < |log| && Decoded(log[i]).Some? :: Decoded(log[i]).value.Id() in processed
    ensures Compensations(log, processed, t) == Named(log, t)
  {
    if log == [] {
    } else {
      AllCompensationsProcessed(log[..|log| - 1], processed, t);
    }
  }

  // ---- Main results ----

  lemma StartInv()
    ensures Inv(START)
  {
  }

  /** In every reachable state, settled or not, an aggregate is the sum of the processed registers, each
      counted once and taken off once for every processed compensation of it. */
  lemma NetAtAnyTime(events: seq<Event>, key: Key)
    requires ValidRun(START, events) && AllHandle(START, events)
    ensures var w := Run(START, events);
            Value(w.db, key) == NetSum(w.log, w.log, w.db.processed.Keys, key)
  {
    StartInv();
    RunKeepsInv(START, events);
    var w := Run(START, events);
    assert Value(w.db, key) == TermSum(w.log, w.db.processed.Keys, key);
    TermsAreNet(w.log, w.db.processed.Keys, key);
  }

  lemma SettledFacts(w: World)
    requires Inv(w) && Settled(w)
    ensures RegistersSettled(w.log, w.db.processed.Keys, w.verdicts)
    ensures forall t :: Surplus(w.log, w.db.processed.Keys, w.verdicts, t) == Excess(w, t)
  {
    forall i: nat | i < |w.log|
      ensures Decoded(w.log[i]).Some? ==> Decoded(w.log[i]).value.Id() in w.db.processed.Keys
      ensures IsRegister(w.log[i]) ==> Decoded(w.log[i]).value.Id() in w.verdicts
    {
      assert i in w.cdone && i in w.vdone;
    }
    forall t
      ensures Surplus(w.log, w.db.processed.Keys, w.verdicts, t) == Excess(w, t)
    {
      AllCompensationsProcessed(w.log, w.db.processed.Keys, t);
    }
  }

  /** Choreography convergence: once both consumers have reached the end of the log, every aggregate is
      the sum of the values of the accepted transactions, provided the validator never rolled back
      after publishing. */
  lemma Converges(events: seq<Event>, key: Key)
    requires ValidRun(START, events) && AllHandle(START, events) && AllKeepPublished(START, events)
    requires Settled(Run(START, events))
    ensures var w := Run(START, events);
            Value(w.db, key) == AcceptedSum(w.log, w.verdicts, key)
  {
    StartInv();
    RunKeepsInv(START, events);
    NetAtAnyTime(events, key);
    var w := Run(START, events);
    SettledFacts(w);
    forall t
      ensures Excess(w, t) == 0
    {
      RunExcess(START, events, t);
    }
    NetAgainstAccepted(w.log, w.log, w.db.processed.Keys, w.verdicts, key, |w.log|);
  }

  lemma {:induction false} NamedHasRegister(log: seq<Message>, t: string) returns (i: nat, r: RegisterCommand)
    requires LogOk(log) && Named(log, t) > 0
    ensures i < |log| && IsFirstRegister(log, i, r) && r.transactionId == t
  {
    var n := |log| - 1;
    if Names(log[n], t) {
      assert WellPlaced(log, n);
      r := Decoded(log[n]).value.register;
      i :| i < n && IsFirstRegister(log, i, r);
    } else {
      PrefixIsOk(log, n);
      i, r := NamedHasRegister(log[..n], t);
      PrefixIsNew(log, n, i);
    }
  }

  /** A rollback after a publish is never made good: some aggregate stays short. */
  lemma RollbackShows(events: seq<Event>) returns (key: Key)
    requires ValidRun(START, events) && AllHandle(START, events) && !AllKeepPublished(START, events)
    requires Settled(Run(START, events)) && PositiveValues(Run(START, events).log)
    ensures var w := Run(START, events);
            Value(w.db, key) < AcceptedSum(w.log, w.verdicts, key)
  {
    StartInv();
    RunKeepsInv(START, events);
    var w := Run(START, events);
    var t := RollbackExceeds(START, events);
    var i, r := NamedHasRegister(w.log, t);
    key := KeyOf(r);
    NetAtAnyTime(events, key);
    SettledFacts(w);
    forall u
      ensures Excess(w, u) >= 0
    {
      RunExcess(START, events, u);
    }
    NetAgainstAccepted(w.log, w.log, w.db.processed.Keys, w.verdicts, key, i);
  }

  /** Exactly when the choreography converges, among the runs in which no command is dead-lettered
      unhandled; Contributions says what each transaction does in all the others. */
  lemma ConvergesIff(events: seq<Event>)
    requires ValidRun(START, events) && AllHandle(START, events)
    requires Settled(Run(START, events)) && PositiveValues(Run(START, events).log)
    ensures var w := Run(START, events);
            (forall key :: Value(w.db, key) == AcceptedSum(w.log, w.verdicts, key)) <==> AllKeepPublished(START, events)
  {
    if AllKeepPublished(START, events) {
      forall key
        ensures var w := Run(START, events);
                Value(w.db, key) == AcceptedSum(w.log, w.verdicts, key)
      {
        Converges(events, key);
      }
    } else {
      var key := RollbackShows(events);
    }
  }

  // ---- Aggregates are never negative ----

  lemma {:induction false} ProcessedAtMostNamed(log: seq<Message>, processed: set<string>, t: string)
    ensures Compensations(log, processed, t) <= Named(log, t)
  {
    if log == [] {
    } else {
      ProcessedAtMostNamed(log[..|log| - 1], processed, t);
    }
  }

  lemma {:induction false} NetIsNonNegative(log: seq<Message>, full: seq<Message>, processed: set<string>, key: Key)
    requires PositiveValues(log) && forall t :: Compensations(full, processed, t) <= 1
    ensures NetSum(log, full, processed, key) >= 0
  {
    if log == [] {
    } else {
      NetIsNonNegative(log[..|log| - 1], full, processed, key);
    }
  }

  /** In every reachable state, with positive values and no rollback after a publish, no aggregate is
      negative. */
  lemma NeverNegative(events: seq<Event>, key: Key)
    requires ValidRun(START, events) && AllHandle(START, events) && AllKeepPublished(START, events)
    requires PositiveValues(Run(START, events).log)
    ensures Value(Run(START, events).db, key) >= 0
  {
    StartInv();
    RunKeepsInv(START, events);
    NetAtAnyTime(events, key);
    var w := Run(START, events);
    forall t
      ensures Compensations(w.log, w.db.processed.Keys, t) <= 1
    {
      RunExcess(START, events, t);
      ProcessedAtMostNamed(w.log, w.db.processed.Keys, t);
    }
    NetIsNonNegative(w.log, w.log, w.db.processed.Keys, key);
  }
}
