/** The transactions topic as both consumers read it, and sums over it. */
module TopicLog {
  import opened Kafka
  import opened Codec
  import opened Tables

  function Decoded(m: Message): Option<Command> {
    match MapToTxCommand(m)
    case Ok(cmd) => Some(cmd)
    case Err(_) => None
  }

  /** The first message of the log with its id. */
  ghost predicate IsNew(log: seq<Message>, i: nat)
    requires i < |log|
  {
    && Decoded(log[i]).Some?
    && forall j | 0 <= j < i && Decoded(log[j]).Some? :: Decoded(log[j]).value.Id() != Decoded(log[i]).value.Id()
  }

  ghost predicate IsFirstRegister(log: seq<Message>, i: nat, r: RegisterCommand)
    requires i < |log|
  {
    Decoded(log[i]) == Some(Register(r)) && IsNew(log, i)
  }

  /** A compensation names a register ahead of it, carries its payload, and has an id of its own. */
  ghost predicate WellPlaced(log: seq<Message>, j: nat)
    requires j < |log|
  {
    Decoded(log[j]).Some? && Decoded(log[j]).value.Unregister? ==>
      var u := Decoded(log[j]).value;
      && IsNew(log, j)
      && (forall i | 0 <= i < |log| && i != j && Decoded(log[i]).Some? :: Decoded(log[i]).value.Id() != u.Id())
      && exists i: nat :: i < j && IsFirstRegister(log, i, u.register)
  }

  ghost predicate LogOk(log: seq<Message>) {
    forall j: nat | j < |log| :: WellPlaced(log, j)
  }

  lemma PrefixIsNew(log: seq<Message>, n: nat, i: nat)
    requires i < n <= |log|
    ensures IsNew(log[..n], i) == IsNew(log, i)
  {
  }

  lemma PrefixIsOk(log: seq<Message>, n: nat)
    requires LogOk(log) && n <= |log|
    ensures LogOk(log[..n])
  {
    var before := log[..n];
    forall j: nat | j < n
      ensures WellPlaced(before, j)
    {
      assert WellPlaced(log, j);
      PrefixIsNew(log, n, j);
      if Decoded(log[j]).Some? && Decoded(log[j]).value.Unregister? {
        var i: nat :| i < j && IsFirstRegister(log, i, Decoded(log[j]).value.register);
        PrefixIsNew(log, n, i);
        assert IsFirstRegister(before, i, Decoded(log[j]).value.register);
      }
    }
  }

  // ---- Sums ----

  function Signed(cmd: Command): int {
    if cmd.Unregister? then -cmd.register.value else cmd.register.value
  }

  function SignedShare(cmd: Command, key: Key): int {
    if KeyOf(cmd.register) == key then Signed(cmd) else 0
  }

  /** What the first occurrences of the processed ids do to one aggregate. */
  ghost function TermSum(log: seq<Message>, processed: set<string>, key: Key): int {
    if log == [] then 0
    else
      var n := |log| - 1;
      TermSum(log[..n], processed, key)
      + if IsNew(log, n) && Decoded(log[n]).value.Id() in processed then SignedShare(Decoded(log[n]).value, key) else 0
  }

  /** How many processed compensations name t. */
  function Compensations(log: seq<Message>, processed: set<string>, t: string): nat {
    if log == [] then 0
    else
      var n := |log| - 1;
      Compensations(log[..n], processed, t) + if Compensates(log[n], processed, t) then 1 else 0
  }

  predicate Compensates(m: Message, processed: set<string>, t: string) {
    && Decoded(m).Some? && Decoded(m).value.Unregister?
    && Decoded(m).value.register.transactionId == t && Decoded(m).value.Id() in processed
  }

  /** The registers of `log`, each counted once and less its compensations in `full`. */
  ghost function NetSum(log: seq<Message>, full: seq<Message>, processed: set<string>, key: Key): int {
    if log == [] then 0
    else NetSum(log[..|log| - 1], full, processed, key) + NetTerm(log, |log| - 1, full, processed, key)
  }

  ghost function NetTerm(log: seq<Message>, i: nat, full: seq<Message>, processed: set<string>, key: Key): int
    requires i < |log|
  {
    if IsNew(log, i) && Decoded(log[i]).value.Register? && Decoded(log[i]).value.Id() in processed
    then SignedShare(Decoded(log[i]).value, key) * (1 - Compensations(full, processed, Decoded(log[i]).value.Id()))
    else 0
  }

  lemma {:induction false} TermSumAbsent(log: seq<Message>, processed: set<string>, id: string, key: Key)
    requires forall i | 0 <= i < |log| && Decoded(log[i]).Some? :: Decoded(log[i]).value.Id() != id
    ensures TermSum(log, processed + {id}, key) == TermSum(log, processed, key)
  {
    if log == [] {
    } else {
      TermSumAbsent(log[..|log| - 1], processed, id, key);
    }
  }

  /** Processing one more id adds exactly its first occurrence. */
  lemma {:induction false} TermSumAdd(log: seq<Message>, processed: set<string>, i: nat, key: Key)
    requires i < |log| && IsNew(log, i) && Decoded(log[i]).value.Id() !in processed
    ensures TermSum(log, processed + {Decoded(log[i]).value.Id()}, key)
         == TermSum(log, processed, key) + SignedShare(Decoded(log[i]).value, key)
  {
    var n := |log| - 1;
    if i == n {
      TermSumAbsent(log[..n], processed, Decoded(log[i]).value.Id(), key);
    } else {
      PrefixIsNew(log, n, i);
      TermSumAdd(log[..n], processed, i, key);
    }
  }

  /** A message whose id is not processed changes nothing. */
  lemma TermSumAppend(log: seq<Message>, m: Message, processed: set<string>, key: Key)
    requires Decoded(m).Some? ==>
               Decoded(m).value.Id() !in processed
               || exists i :: 0 <= i < |log| && Decoded(log[i]).Some?
                              && Decoded(log[i]).value.Id() == Decoded(m).value.Id()
    ensures TermSum(log + [m], processed, key) == TermSum(log, processed, key)
  {
    assert (log + [m])[..|log|] == log;
    if IsNew(log + [m], |log|) {
      forall i | 0 <= i < |log| && Decoded(log[i]).Some?
        ensures Decoded(log[i]).value.Id() != Decoded(m).value.Id()
      {
        assert (log + [m])[i] == log[i];
      }
    }
  }

  // ---- Terms against net contributions ----

  /** A processed compensation has a processed target. */
  ghost predicate TargetsProcessed(log: seq<Message>, processed: set<string>) {
    forall j | 0 <= j < |log| && Decoded(log[j]).Some? && Decoded(log[j]).value.Unregister? ::
      Decoded(log[j]).value.Id() in processed ==> Decoded(log[j]).value.register.transactionId in processed
  }

  lemma {:induction false} SameCounts(log: seq<Message>, a: seq<Message>, b: seq<Message>, processed: set<string>,
                                      key: Key)
    requires forall t :: Compensations(a, processed, t) == Compensations(b, processed, t)
    ensures NetSum(log, a, processed, key) == NetSum(log, b, processed, key)
  {
    if log == [] {
    } else {
      SameCounts(log[..|log| - 1], a, b, processed, key);
    }
  }

  /** One more compensation of the register at `first` takes its share off once. */
  lemma {:induction false} OneMoreCompensation(log: seq<Message>, a: seq<Message>, b: seq<Message>,
                                               processed: set<string>, key: Key, first: nat, r: RegisterCommand)
    requires forall t :: Compensations(b, processed, t)
                         == Compensations(a, processed, t) + if t == r.transactionId then 1 else 0
    requires r.transactionId in processed
    requires first < |log| ==> IsFirstRegister(log, first, r)
    requires |log| <= first ==>
               forall i | 0 <= i < |log| && Decoded(log[i]).Some? :: Decoded(log[i]).value.Id() != r.transactionId
    ensures NetSum(log, b, processed, key)
         == NetSum(log, a, processed, key) - if first < |log| then SignedShare(Register(r), key) else 0
  {
    if log == [] {
    } else {
      var n := |log| - 1;
      if first < n {
        PrefixIsNew(log, n, first);
      }
      OneMoreCompensation(log[..n], a, b, processed, key, first, r);
      if n == first {
        TakeOff(SignedShare(Register(r), key), Compensations(a, processed, r.transactionId));
      } else if IsNew(log, n) {
        assert Decoded(log[n]).value.Id() != r.transactionId;
      }
    }
  }

  lemma TakeOff(share: int, count: nat)
    ensures share * (1 - (count + 1)) == share * (1 - count) - share
  {
  }

  lemma {:induction false} NotYetCompensated(log: seq<Message>, processed: set<string>, t: string)
    requires LogOk(log) && forall i | 0 <= i < |log| && Decoded(log[i]).Some? :: Decoded(log[i]).value.Id() != t
    ensures Compensations(log, processed, t) == 0
  {
    if log == [] {
    } else {
      var n := |log| - 1;
      PrefixIsOk(log, n);
      NotYetCompensated(log[..n], processed, t);
      assert WellPlaced(log, n);
    }
  }

  /** The swap of sums: adding up messages is adding up registers, each less its compensations. */
  lemma {:induction false} TermsAreNet(log: seq<Message>, processed: set<string>, key: Key)
    requires LogOk(log) && TargetsProcessed(log, processed)
    ensures TermSum(log, processed, key) == NetSum(log, log, processed, key)
  {
    if log == [] {
    } else {
      var n := |log| - 1;
      PrefixIsOk(log, n);
      TermsAreNet(log[..n], processed, key);
      if Decoded(log[n]).Some? && Decoded(log[n]).value.Unregister? {
        UnregisterIsNet(log, processed, key);
      } else {
        SameCounts(log[..n], log, log[..n], processed, key);
        if IsNew(log, n) {
          NotYetCompensated(log[..n], processed, Decoded(log[n]).value.Id());
        }
      }
    }
  }

  lemma UnregisterIsNet(log: seq<Message>, processed: set<string>, key: Key)
    requires LogOk(log) && TargetsProcessed(log, processed) && log != []
    requires Decoded(log[|log| - 1]).Some? && Decoded(log[|log| - 1]).value.Unregister?
    ensures var n := |log| - 1;
            && IsNew(log, n)
            && NetSum(log, log, processed, key)
               == NetSum(log[..n], log[..n], processed, key)
                  + if Decoded(log[n]).value.Id() in processed then SignedShare(Decoded(log[n]).value, key) else 0
  {
    var n := |log| - 1;
    var u := Decoded(log[n]).value;
    assert WellPlaced(log, n);
    var i: nat :| i < n && IsFirstRegister(log, i, u.register);
    PrefixIsNew(log, n, i);
    if u.Id() in processed {
      OneMoreCompensation(log[..n], log[..n], log, processed, key, i, u.register);
    } else {
      SameCounts(log[..n], log, log[..n], processed, key);
    }
  }
}
