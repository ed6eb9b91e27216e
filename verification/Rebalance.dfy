/** kgoconsumer/rebalance.go: a rebalance cancels the batch in flight, or the next one. */
module Rebalance {
  import opened Kafka

  // A batch context is identified by a number; calling its cancel function puts it in `cancelled`.
  datatype State = State(cancelFunc: Option<nat>, shouldCancel: bool, cancelled: set<nat>)

  datatype Event = Store(context: nat) | Cancel | Release

  const INITIAL := State(None, false, {})

  function Step(s: State, e: Event): State {
    match e
    case Store(context) =>
      s.(cancelFunc := Some(context), cancelled := if s.shouldCancel then s.cancelled + {context} else s.cancelled)
    case Cancel =>
      if s.cancelFunc.Some? then s.(cancelled := s.cancelled + {s.cancelFunc.value}) else s.(shouldCancel := true)
    case Release =>
      // releasing without a stored function is a nil call in the source; BatchCancelledIff rules it out
      State(None, false, if s.cancelFunc.Some? then s.cancelled + {s.cancelFunc.value} else s.cancelled)
  }

  class CancelProcessingStore {
    var cancelFunc: Option<nat>
    var shouldCancel: bool
    var cancelled: set<nat>

    ghost function View(): State
      reads this
    {
      State(cancelFunc, shouldCancel, cancelled)
    }

    constructor ()
      ensures View() == INITIAL
    {
      cancelFunc, shouldCancel, cancelled := None, false, {};
    }

    method Store(cancel: nat)
      modifies this
      ensures View() == Step(old(View()), Event.Store(cancel))
    {
      cancelFunc := Some(cancel);
      if shouldCancel {
        cancelled := cancelled + {cancel};
      }
    }

    method Cancel()
      modifies this
      ensures View() == Step(old(View()), Event.Cancel)
    {
      if cancelFunc.Some? {
        cancelled := cancelled + {cancelFunc.value};
      } else {
        shouldCancel := true;
      }
    }

    method Release()
      requires cancelFunc.Some?
      modifies this
      ensures View() == Step(old(View()), Event.Release)
    {
      cancelled := cancelled + {cancelFunc.value};
      cancelFunc := None;
      shouldCancel := false;
    }
  }

  // ---- Traces ----

  function Run(trace: seq<Event>): State {
    if trace == [] then INITIAL else Step(Run(trace[..|trace| - 1]), trace[|trace| - 1])
  }

  /** A batch is in flight after the trace. */
  predicate Active(trace: seq<Event>) {
    trace != [] && match trace[|trace| - 1] {
      case Store(_) => true
      case Release => false
      case Cancel => Active(trace[..|trace| - 1])
    }
  }

  /** Stores and releases alternate, starting with a store, and every batch has its own context;
      cancels may come at any time. */
  predicate WellBracketed(trace: seq<Event>) {
    trace != [] ==>
      var before, last := trace[..|trace| - 1], trace[|trace| - 1];
      && WellBracketed(before)
      && (last.Store? ==> !Active(before) && last !in before)
      && (last.Release? ==> Active(before))
  }

  predicate CancelledSinceRelease(trace: seq<Event>) {
    exists i | 0 <= i < |trace| :: trace[i] == Cancel && Release !in trace[i..]
  }

  lemma CancelledSinceReleaseStep(trace: seq<Event>)
    requires trace != []
    ensures CancelledSinceRelease(trace) <==>
            match trace[|trace| - 1]
            case Store(_) => CancelledSinceRelease(trace[..|trace| - 1])
            case Cancel => true
            case Release => false
  {
    var n := |trace| - 1;
    var before := trace[..n];
    assert trace[n..] == [trace[n]];
    forall i | 0 <= i < n
      ensures trace[i..] == before[i..] + [trace[n]]
    {
    }
    if trace[n].Store? && CancelledSinceRelease(before) {
      var i :| 0 <= i < n && before[i] == Cancel && Release !in before[i..];
      assert trace[i] == Cancel && Release !in trace[i..];
    }
    if trace[n].Store? && CancelledSinceRelease(trace) {
      var i :| 0 <= i < n && trace[i] == Cancel && Release !in trace[i..];
      assert before[i] == Cancel && Release !in before[i..];
    }
    if trace[n] == Cancel {
      assert Release !in trace[n..];
    }
    if trace[n] == Release {
      forall i | 0 <= i <= n
        ensures Release in trace[i..]
      {
        assert trace[i..][n - i] == Release;
      }
    }
  }

  /** The store's two fields are exactly "which batch is in flight" and "was anything cancelled
      since the last release". */
  lemma {:induction false} StoreTracksCancels(trace: seq<Event>)
    requires WellBracketed(trace)
    ensures Run(trace).cancelFunc.Some? <==> Active(trace)
    ensures Active(trace) ==> Store(Run(trace).cancelFunc.value) in trace
    ensures Active(trace) ==> (Run(trace).cancelFunc.value in Run(trace).cancelled <==> CancelledSinceRelease(trace))
    ensures !Active(trace) ==> (Run(trace).shouldCancel <==> CancelledSinceRelease(trace))
    ensures forall context | context in Run(trace).cancelled :: Store(context) in trace
    ensures forall context | Store(context) in trace ::
              context in Run(trace).cancelled || Run(trace).cancelFunc == Some(context)
  {
    if trace == [] {
    } else {
      var before := trace[..|trace| - 1];
      StoreTracksCancels(before);
      CancelledSinceReleaseStep(trace);
      assert forall e :: e in trace <==> e in before || e == trace[|trace| - 1];
    }
  }

  lemma {:induction false} ActiveBetween(trace: seq<Event>, s: nat, r: nat)
    requires WellBracketed(trace) && s < r <= |trace| && trace[s].Store?
    requires forall i | s < i < r :: trace[i] != Release
    ensures WellBracketed(trace[..r]) && Active(trace[..r])
    ensures Run(trace[..r]).cancelFunc == Some(trace[s].context)
    decreases |trace|
  {
    if r < |trace| {
      ActiveBetween(trace[..|trace| - 1], s, r);
      assert trace[..|trace| - 1][..r] == trace[..r];
    } else {
      assert trace[..r] == trace;
      var before := trace[..r - 1];
      if s < r - 1 {
        ActiveBetween(before, s, r - 1);
        assert before[..r - 1] == before;
      }
    }
  }

  lemma RunStep(trace: seq<Event>, r: nat)
    requires r < |trace|
    ensures Run(trace[..r + 1]) == Step(Run(trace[..r]), trace[r])
  {
    assert trace[..r + 1][..r] == trace[..r];
  }

  lemma CancelledBefore(trace: seq<Event>, r: nat)
    requires r <= |trace|
    ensures CancelledSinceRelease(trace[..r])
            <==> exists i | 0 <= i < r :: trace[i] == Cancel && Release !in trace[i..r]
  {
    assert forall i | 0 <= i < r :: trace[..r][i..] == trace[i..r];
  }

  /** A batch stored at s and released at r has been cancelled by then exactly when a cancel came
      after the previous release and before r; its release finds its function and calls it. */
  lemma BatchCancelledIff(trace: seq<Event>, s: nat, r: nat)
    requires WellBracketed(trace) && s < r < |trace|
    requires trace[s].Store? && trace[r] == Release
    requires forall i | s < i < r :: trace[i] != Release
    ensures Run(trace[..r]).cancelFunc == Some(trace[s].context)
    ensures trace[s].context in Run(trace[..r]).cancelled
            <==> exists i | 0 <= i < r :: trace[i] == Cancel && Release !in trace[i..r]
    ensures trace[s].context in Run(trace[..r + 1]).cancelled
    ensures Run(trace[..r + 1]).cancelFunc == None && !Run(trace[..r + 1]).shouldCancel
  {
    ActiveBetween(trace, s, r);
    StoreTracksCancels(trace[..r]);
    CancelledBefore(trace, r);
    RunStep(trace, r);
  }

  /** Once no batch is in flight, every batch context ever stored has been cancelled. */
  lemma EveryStoredContextIsCancelled(trace: seq<Event>, context: nat)
    requires WellBracketed(trace) && !Active(trace) && Store(context) in trace
    ensures context in Run(trace).cancelled
  {
    StoreTracksCancels(trace);
  }
}
