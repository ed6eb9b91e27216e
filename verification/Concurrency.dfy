/** Handlers running at the same time, at the default isolation of the database: every statement sees
    what is committed when it starts, a row an open transaction has written or inserted is locked until
    that transaction ends, and effects appear at commit. */
module Concurrency {
  import opened Kafka
  import opened Codec
  import opened Tables

  /** What a handler decides to do. */
  datatype Plan = NoOp | OnlyMark | Act

  /** What the actions of a handler have written: the new aggregate, the count rows its UPDATE found
      and the values it gave them, or the row it inserted. */
  datatype Work = Work(value: int, seen: set<nat>, counts: map<nat, int>)

  const NO_WORK := Work(0, {}, map[])

  datatype Phase =
    | Idle
    | NotHandled                          // "already handled" was answered no
    | Planned(plan: Plan)
    | Upserted(work: Work)                // the aggregate row is written
    | Inserted(work: Work)                // so is the log row, or the compensating one
    | Snapshotted(work: Work)             // the UPDATE of the counts has started
    | Counted(work: Work)                 // the counts are written
    | HoldsMark(plan: Plan, work: Work)   // the id is inserted but not committed
    | Committed(plan: Plan, work: Work)
    | Aborted

  /** The committed tables (count rows are named after the handler that inserted them) and every
      handler with its command. */
  datatype World = World(
    processed: map<string, Option<string>>,
    aggregates: map<Key, int>,
    logs: map<string, LogRow>,
    compensations: map<string, string>,
    rows: map<nat, int>,
    commands: seq<Command>,
    phases: seq<Phase>)

  datatype Step =
    CheckHandled | CheckCompensated | Upsert | InsertRow | StartCount | FinishCount | Mark | Commit | Abort

  ghost predicate WellFormed(w: World) {
    |w.commands| == |w.phases|
  }

  ghost function Initial(commands: seq<Command>): World {
    World(map[], map[], map[], map[], map[], commands, seq(|commands|, i => Idle))
  }

  // ---- Locks ----

  function WorkOf(phase: Phase): Work {
    match phase
    case Upserted(work) => work
    case Inserted(work) => work
    case Snapshotted(work) => work
    case Counted(work) => work
    case HoldsMark(_, work) => work
    case Committed(_, work) => work
    case _ => NO_WORK
  }

  predicate HoldsRows(phase: Phase) {
    phase.Counted? || (phase.HoldsMark? && phase.plan == Act)
  }

  predicate HoldsLog(phase: Phase) {
    phase.Inserted? || phase.Snapshotted? || HoldsRows(phase)
  }

  predicate HoldsKey(phase: Phase) {
    phase.Upserted? || HoldsLog(phase)
  }

  /** Both commands insert a row of one table under one key. */
  predicate SameRow(a: Command, b: Command) {
    a.Unregister? == b.Unregister? && a.Id() == b.Id()
  }

  predicate RowExists(w: World, cmd: Command) {
    if cmd.Unregister? then cmd.Id() in w.compensations else cmd.Id() in w.logs
  }

  /** A statement that would write what another open transaction has written waits for its end. */
  ghost predicate Enabled(w: World, i: nat, step: Step) {
    && WellFormed(w) && i < |w.phases|
    && match step {
         case CheckHandled => w.phases[i] == Idle
         case CheckCompensated => w.phases[i] == NotHandled
         case Upsert => w.phases[i] == Planned(Act) && KeyIsFree(w, i)
         case InsertRow => w.phases[i].Upserted? && LogIsFree(w, i)
         case StartCount => w.phases[i].Inserted?
         case FinishCount => w.phases[i].Snapshotted? && RowsAreFree(w, i, w.phases[i].work.seen)
         case Mark => (w.phases[i].Counted? || w.phases[i] == Planned(OnlyMark)) && MarkIsFree(w, i)
         case Commit => w.phases[i].HoldsMark? || w.phases[i] == Planned(NoOp)
         case Abort => !w.phases[i].Committed? && !w.phases[i].Aborted?
       }
  }

  ghost predicate KeyIsFree(w: World, i: nat)
    requires WellFormed(w) && i < |w.phases|
  {
    forall j | 0 <= j < |w.phases| && j != i && HoldsKey(w.phases[j]) ::
      KeyOf(w.commands[j].register) != KeyOf(w.commands[i].register)
  }

  ghost predicate LogIsFree(w: World, i: nat)
    requires WellFormed(w) && i < |w.phases|
  {
    forall j | 0 <= j < |w.phases| && j != i && HoldsLog(w.phases[j]) :: !SameRow(w.commands[j], w.commands[i])
  }

  ghost predicate RowsAreFree(w: World, i: nat, seen: set<nat>)
    requires WellFormed(w)
  {
    forall j | 0 <= j < |w.phases| && j != i && HoldsRows(w.phases[j]) :: WorkOf(w.phases[j]).seen !! seen
  }

  ghost predicate MarkIsFree(w: World, i: nat)
    requires WellFormed(w) && i < |w.phases|
  {
    forall j | 0 <= j < |w.phases| && j != i && w.phases[j].HoldsMark? :: w.commands[j].Id() != w.commands[i].Id()
  }

  // ---- Steps ----

  function Sign(cmd: Command): int {
    if cmd.Unregister? then -1 else 1
  }

  function Change(cmd: Command): int {
    Sign(cmd) * cmd.register.value
  }

  /** UPDATE of the rows it found, or INSERT of a row of its own. */
  function CountChanges(rows: map<nat, int>, i: nat, seen: set<nat>, delta: int): map<nat, int> {
    if seen == {} then map[i := delta]
    else map r | r in seen && r in rows :: rows[r] + delta
  }

  function Target(cmd: Command): Option<string> {
    if cmd.Unregister? then Some(cmd.register.transactionId) else None
  }

  /** The tables with everything a handler has written. */
  function Install(w: World, cmd: Command, work: Work): World {
    w.(aggregates := w.aggregates[KeyOf(cmd.register) := work.value],
       logs := if cmd.Unregister? then w.logs else w.logs[cmd.Id() := RowOf(cmd.register)],
       compensations := if cmd.Unregister? then w.compensations[cmd.Id() := cmd.register.transactionId]
                        else w.compensations,
       rows := w.rows + work.counts)
  }

  /** The phase a handler reaches by committing. */
  function CommittedPhase(phase: Phase): Phase {
    if phase.HoldsMark? then Phase.Committed(phase.plan, phase.work) else Phase.Committed(NoOp, NO_WORK)
  }

  ghost function CommitOf(w: World, i: nat): World
    requires Enabled(w, i, Commit)
  {
    var cmd, phase := w.commands[i], w.phases[i];
    var ended := w.(phases := w.phases[i := CommittedPhase(phase)]);
    if !phase.HoldsMark? then ended
    else
      var marked := ended.(processed := w.processed[cmd.Id() := Target(cmd)]);
      if phase.plan == Act then Install(marked, cmd, phase.work) else marked
  }

  ghost function NextPhase(w: World, i: nat, step: Step): Phase
    requires Enabled(w, i, step) && step != Commit
  {
    var cmd, phase := w.commands[i], w.phases[i];
    match step
    case CheckHandled => if cmd.Id() in w.processed then Planned(NoOp) else NotHandled
    case CheckCompensated => Planned(if cmd.Register? && CompensatedIn(w.processed, cmd.Id()) then OnlyMark else Act)
    case Upsert => Upserted(Work(ValueIn(w.aggregates, KeyOf(cmd.register)) + Change(cmd), {}, map[]))
    case InsertRow => if RowExists(w, cmd) then Aborted else Inserted(phase.work)
    case StartCount => Snapshotted(phase.work.(seen := w.rows.Keys))
    case FinishCount =>
      Counted(phase.work.(counts := CountChanges(w.rows, i, phase.work.seen, Sign(cmd))))
    case Mark =>
      if cmd.Id() in w.processed then Aborted
      else if phase.Counted? then HoldsMark(Act, phase.work)
      else HoldsMark(OnlyMark, NO_WORK)
    case Abort => Aborted
  }

  ghost function Next(w: World, i: nat, step: Step): World
    requires Enabled(w, i, step)
  {
    if step == Commit then CommitOf(w, i) else w.(phases := w.phases[i := NextPhase(w, i, step)])
  }

  // ---- Closed forms over the handlers ----

  /** Handler i committed more than a no-op. */
  predicate Effective(w: World, i: nat)
    requires i < |w.phases|
  {
    w.phases[i].Committed? && w.phases[i].plan != NoOp
  }

  predicate Acting(phase: Phase) {
    phase.Committed? && phase.plan == Act
  }

  function SumChanges(commands: seq<Command>, phases: seq<Phase>, key: Key): int
    requires |commands| == |phases|
  {
    if commands == [] then 0
    else
      var n := |commands| - 1;
      SumChanges(commands[..n], phases[..n], key)
      + if Acting(phases[n]) && KeyOf(commands[n].register) == key then Change(commands[n]) else 0
  }

  /** Handler i has added its sign to row r. */
  predicate Touched(phase: Phase, i: nat, r: nat) {
    Acting(phase) && (if phase.work.seen == {} then i == r else r in phase.work.seen)
  }

  function SumSigns(commands: seq<Command>, phases: seq<Phase>, r: nat): int
    requires |commands| == |phases|
  {
    if commands == [] then 0
    else
      var n := |commands| - 1;
      SumSigns(commands[..n], phases[..n], r) + if Touched(phases[n], n, r) then Sign(commands[n]) else 0
  }

  function Total(commands: seq<Command>, phases: seq<Phase>): int
    requires |commands| == |phases|
  {
    if commands == [] then 0
    else
      var n := |commands| - 1;
      Total(commands[..n], phases[..n]) + if Acting(phases[n]) then Sign(commands[n]) else 0
  }

  /** Handler i found the count table empty and committed. */
  predicate Inserter(w: World, i: nat) {
    i < |w.phases| && Acting(w.phases[i]) && w.phases[i].work.seen == {}
  }

  lemma {:induction false} SumChangesUpdate(commands: seq<Command>, phases: seq<Phase>, i: nat, phase: Phase, key: Key)
    requires |commands| == |phases| && i < |phases|
    ensures SumChanges(commands, phases[i := phase], key)
         == SumChanges(commands, phases, key)
            + (if Acting(phase) && KeyOf(commands[i].register) == key then Change(commands[i]) else 0)
            - (if Acting(phases[i]) && KeyOf(commands[i].register) == key then Change(commands[i]) else 0)
  {
    var n := |commands| - 1;
    if i == n {
      assert phases[i := phase][..n] == phases[..n];
    } else {
      assert phases[i := phase][..n] == phases[..n][i := phase];
      SumChangesUpdate(commands[..n], phases[..n], i, phase, key);
    }
  }

  lemma {:induction false} SumSignsUpdate(commands: seq<Command>, phases: seq<Phase>, i: nat, phase: Phase, r: nat)
    requires |commands| == |phases| && i < |phases|
    ensures SumSigns(commands, phases[i := phase], r)
         == SumSigns(commands, phases, r)
            + (if Touched(phase, i, r) then Sign(commands[i]) else 0)
            - (if Touched(phases[i], i, r) then Sign(commands[i]) else 0)
  {
    var n := |commands| - 1;
    if i == n {
      assert phases[i := phase][..n] == phases[..n];
    } else {
      assert phases[i := phase][..n] == phases[..n][i := phase];
      SumSignsUpdate(commands[..n], phases[..n], i, phase, r);
    }
  }

  // ---- The invariant: handlers against the tables and against each other ----

  /** What handler i has computed for its aggregate is still right, and nobody else holds the row. */
  ghost predicate KeyOk(w: World, i: nat, phase: Phase)
    requires WellFormed(w) && i < |w.phases|
  {
    HoldsKey(phase) ==>
      && WorkOf(phase).value == ValueIn(w.aggregates, KeyOf(w.commands[i].register)) + Change(w.commands[i])
      && KeyIsFree(w, i)
  }

  ghost predicate LogOk(w: World, i: nat, phase: Phase)
    requires WellFormed(w) && i < |w.phases|
  {
    HoldsLog(phase) ==> !RowExists(w, w.commands[i]) && LogIsFree(w, i)
  }

  ghost predicate RowsOk(w: World, i: nat, phase: Phase)
    requires WellFormed(w) && i < |w.phases|
  {
    && WorkOf(phase).seen <= w.rows.Keys
    && (HoldsRows(phase) ==>
          && WorkOf(phase).counts == CountChanges(w.rows, i, WorkOf(phase).seen, Sign(w.commands[i]))
          && RowsAreFree(w, i, WorkOf(phase).seen))
  }

  ghost predicate MarkOk(w: World, i: nat, phase: Phase)
    requires WellFormed(w) && i < |w.phases|
  {
    phase.HoldsMark? ==> phase.plan != NoOp && w.commands[i].Id() !in w.processed && MarkIsFree(w, i)
  }

  ghost predicate PhaseOk(w: World, i: nat, phase: Phase)
    requires WellFormed(w) && i < |w.phases|
  {
    KeyOk(w, i, phase) && LogOk(w, i, phase) && RowsOk(w, i, phase) && MarkOk(w, i, phase)
  }

  ghost predicate PhasesOk(w: World)
    requires WellFormed(w)
  {
    forall i: nat | i < |w.phases| :: PhaseOk(w, i, w.phases[i])
  }

  // ---- The invariant: the tables against the committed handlers ----

  ghost predicate MarksAreCommitted(w: World)
    requires WellFormed(w)
  {
    && (forall i | 0 <= i < |w.phases| && Effective(w, i) :: w.commands[i].Id() in w.processed)
    && (forall i, j | 0 <= i < j < |w.phases| && Effective(w, i) && Effective(w, j) ::
          w.commands[i].Id() != w.commands[j].Id())
    && (forall id | id in w.processed :: exists i :: 0 <= i < |w.phases| && Effective(w, i) && w.commands[i].Id() == id)
  }

  ghost predicate AggregatesAreSums(w: World)
    requires WellFormed(w)
  {
    forall key :: ValueIn(w.aggregates, key) == SumChanges(w.commands, w.phases, key)
  }

  /** Handler i committed its actions for a command with this id. */
  predicate ActedFor(w: World, i: nat, id: string)
    requires WellFormed(w)
  {
    i < |w.phases| && Acting(w.phases[i]) && w.commands[i].Id() == id
  }

  ghost predicate LogsAreCommitted(w: World)
    requires WellFormed(w)
  {
    && (forall t | t in w.logs ::
          exists i: nat :: ActedFor(w, i, t) && w.commands[i].Register? && w.logs[t] == RowOf(w.commands[i].register))
    && (forall u | u in w.compensations ::
          exists i: nat :: ActedFor(w, i, u) && Target(w.commands[i]) == Some(w.compensations[u]))
    && (forall i: nat | i < |w.phases| && Acting(w.phases[i]) :: RowExists(w, w.commands[i]))
  }

  ghost predicate RowsAreSums(w: World)
    requires WellFormed(w)
  {
    && (forall r :: r in w.rows <==> Inserter(w, r))
    && (forall r | r in w.rows :: w.rows[r] == SumSigns(w.commands, w.phases, r))
  }

  ghost predicate TablesOk(w: World)
    requires WellFormed(w)
  {
    MarksAreCommitted(w) && AggregatesAreSums(w) && LogsAreCommitted(w) && RowsAreSums(w)
  }

  ghost predicate Inv(w: World) {
    WellFormed(w) && PhasesOk(w) && TablesOk(w)
  }

  lemma {:induction false} InitialSums(commands: seq<Command>, phases: seq<Phase>)
    requires |commands| == |phases| && forall i | 0 <= i < |phases| :: phases[i] == Idle
    ensures forall key :: SumChanges(commands, phases, key) == 0
  {
    if commands == [] {
    } else {
      InitialSums(commands[..|commands| - 1], phases[..|commands| - 1]);
    }
  }

  lemma InitialInv(commands: seq<Command>)
    ensures Inv(Initial(commands))
  {
    InitialSums(commands, Initial(commands).phases);
  }

  // ---- Steps that commit nothing ----

  lemma WriteIsOk(w: World, i: nat, step: Step)
    requires WellFormed(w) && i < |w.phases| && PhaseOk(w, i, w.phases[i])
    requires Enabled(w, i, step) && (step == Upsert || step == InsertRow)
    ensures PhaseOk(w, i, NextPhase(w, i, step)) && !NextPhase(w, i, step).Committed?
  {
  }

  lemma CountIsOk(w: World, i: nat, step: Step)
    requires WellFormed(w) && i < |w.phases| && PhaseOk(w, i, w.phases[i])
    requires Enabled(w, i, step) && (step == StartCount || step == FinishCount)
    ensures PhaseOk(w, i, NextPhase(w, i, step)) && !NextPhase(w, i, step).Committed?
  {
  }

  lemma CheckIsOk(w: World, i: nat, step: Step)
    requires WellFormed(w) && i < |w.phases| && PhaseOk(w, i, w.phases[i])
    requires Enabled(w, i, step) && (step == CheckHandled || step == CheckCompensated || step == Mark || step == Abort)
    ensures PhaseOk(w, i, NextPhase(w, i, step)) && !NextPhase(w, i, step).Committed?
  {
  }

  lemma StepIsOk(w: World, i: nat, step: Step)
    requires WellFormed(w) && i < |w.phases| && PhaseOk(w, i, w.phases[i]) && Enabled(w, i, step) && step != Commit
    ensures PhaseOk(w, i, NextPhase(w, i, step)) && !NextPhase(w, i, step).Committed?
  {
    match step {
      case Upsert => WriteIsOk(w, i, step);
      case InsertRow => WriteIsOk(w, i, step);
      case StartCount => CountIsOk(w, i, step);
      case FinishCount => CountIsOk(w, i, step);
      case _ => CheckIsOk(w, i, step);
    }
  }

  lemma UpdateKeepsPhase(w: World, i: nat, phase: Phase, j: nat)
    requires WellFormed(w) && PhasesOk(w) && i < |w.phases| && j < |w.phases| && PhaseOk(w, i, phase)
    ensures PhaseOk(w.(phases := w.phases[i := phase]), j, w.phases[i := phase][j])
  {
    assert PhaseOk(w, j, w.phases[j]);
  }

  lemma UpdateKeepsAggregates(w: World, i: nat, phase: Phase)
    requires WellFormed(w) && AggregatesAreSums(w)
    requires i < |w.phases| && !w.phases[i].Committed? && !phase.Committed?
    ensures AggregatesAreSums(w.(phases := w.phases[i := phase]))
  {
    forall key
      ensures ValueIn(w.aggregates, key) == SumChanges(w.commands, w.phases[i := phase], key)
    {
      SumChangesUpdate(w.commands, w.phases, i, phase, key);
    }
  }

  lemma UpdateKeepsRows(w: World, i: nat, phase: Phase)
    requires WellFormed(w) && RowsAreSums(w)
    requires i < |w.phases| && !w.phases[i].Committed? && !phase.Committed?
    ensures RowsAreSums(w.(phases := w.phases[i := phase]))
  {
    var after := w.(phases := w.phases[i := phase]);
    assert forall r :: Inserter(after, r) <==> Inserter(w, r);
    forall r | r in w.rows
      ensures w.rows[r] == SumSigns(w.commands, after.phases, r)
    {
      SumSignsUpdate(w.commands, w.phases, i, phase, r);
    }
  }

  lemma UpdateKeepsMarks(w: World, i: nat, phase: Phase)
    requires WellFormed(w) && MarksAreCommitted(w) && i < |w.phases| && !w.phases[i].Committed? && !phase.Committed?
    ensures MarksAreCommitted(w.(phases := w.phases[i := phase]))
  {
    var after := w.(phases := w.phases[i := phase]);
    forall id | id in after.processed
      ensures exists j :: 0 <= j < |after.phases| && Effective(after, j) && after.commands[j].Id() == id
    {
      var j :| 0 <= j < |w.phases| && Effective(w, j) && w.commands[j].Id() == id;
      assert Effective(after, j);
    }
  }

  lemma UpdateKeepsLogs(w: World, i: nat, phase: Phase)
    requires WellFormed(w) && LogsAreCommitted(w) && i < |w.phases| && !w.phases[i].Committed? && !phase.Committed?
    ensures LogsAreCommitted(w.(phases := w.phases[i := phase]))
  {
    var after := w.(phases := w.phases[i := phase]);
    assert forall j: nat, id :: ActedFor(w, j, id) ==> ActedFor(after, j, id);
  }

  // ---- Commits ----

  /** The handlers after a commit of handler i. */
  ghost predicate Ends(w: World, i: nat, after: World) {
    && WellFormed(w) && i < |w.phases| && (w.phases[i].HoldsMark? || w.phases[i] == Planned(NoOp))
    && after.commands == w.commands && after.phases == w.phases[i := CommittedPhase(w.phases[i])]
  }

  ghost predicate EndsMarked(w: World, i: nat, after: World) {
    && Ends(w, i, after)
    && after.processed.Keys == w.processed.Keys + (if w.phases[i].HoldsMark? then {w.commands[i].Id()} else {})
  }

  /** The tables after a commit of a handler whose actions ran. */
  ghost predicate Installs(w: World, i: nat, after: World) {
    && Ends(w, i, after) && HoldsRows(w.phases[i])
    && var installed := Install(w, w.commands[i], WorkOf(w.phases[i]));
       && after.aggregates == installed.aggregates && after.logs == installed.logs
       && after.compensations == installed.compensations && after.rows == installed.rows
  }

  /** The tables after a commit of any other handler. */
  ghost predicate LeavesTables(w: World, i: nat, after: World) {
    && Ends(w, i, after) && !HoldsRows(w.phases[i])
    && after.aggregates == w.aggregates && after.logs == w.logs
    && after.compensations == w.compensations && after.rows == w.rows
  }

  lemma ActShape(w: World, i: nat)
    requires Enabled(w, i, Commit) && HoldsRows(w.phases[i])
    ensures EndsMarked(w, i, CommitOf(w, i)) && Installs(w, i, CommitOf(w, i))
  {
  }

  lemma MarkOnlyShape(w: World, i: nat)
    requires Enabled(w, i, Commit) && !HoldsRows(w.phases[i])
    ensures EndsMarked(w, i, CommitOf(w, i)) && LeavesTables(w, i, CommitOf(w, i))
  {
  }

  lemma CommitShape(w: World, i: nat)
    requires Enabled(w, i, Commit)
    ensures EndsMarked(w, i, CommitOf(w, i))
    ensures if HoldsRows(w.phases[i]) then Installs(w, i, CommitOf(w, i)) else LeavesTables(w, i, CommitOf(w, i))
  {
    if HoldsRows(w.phases[i]) {
      ActShape(w, i);
    } else {
      MarkOnlyShape(w, i);
    }
  }

  lemma EffectiveAfter(w: World, i: nat, after: World)
    requires Ends(w, i, after) && MarkOk(w, i, w.phases[i])
    ensures forall j | 0 <= j < |w.phases| && j != i :: Effective(after, j) <==> Effective(w, j)
    ensures Effective(after, i) <==> w.phases[i].HoldsMark?
  {
  }

  lemma CommitKeepsMarks(w: World, i: nat, after: World)
    requires EndsMarked(w, i, after) && MarksAreCommitted(w) && MarkOk(w, i, w.phases[i])
    ensures MarksAreCommitted(after)
  {
    EffectiveAfter(w, i, after);
    forall id | id in after.processed
      ensures exists j :: 0 <= j < |after.phases| && Effective(after, j) && after.commands[j].Id() == id
    {
      if id in w.processed {
        var j :| 0 <= j < |w.phases| && Effective(w, j) && w.commands[j].Id() == id;
        assert Effective(after, j);
      } else {
        assert Effective(after, i);
      }
    }
  }

  /** No update is lost: what is installed is the old aggregate with the change on top. */
  lemma CommitKeepsAggregates(w: World, i: nat, after: World)
    requires Installs(w, i, after) || LeavesTables(w, i, after)
    requires AggregatesAreSums(w) && KeyOk(w, i, w.phases[i])
    ensures AggregatesAreSums(after)
  {
    forall key
      ensures ValueIn(after.aggregates, key) == SumChanges(after.commands, after.phases, key)
    {
      SumChangesUpdate(w.commands, w.phases, i, CommittedPhase(w.phases[i]), key);
    }
  }

  lemma ActedForAfter(w: World, i: nat, after: World)
    requires Ends(w, i, after)
    ensures forall j: nat, id :: ActedFor(w, j, id) ==> ActedFor(after, j, id)
    ensures HoldsRows(w.phases[i]) ==> ActedFor(after, i, w.commands[i].Id())
    ensures forall j: nat | j < |w.phases| && j != i :: Acting(after.phases[j]) <==> Acting(w.phases[j])
    ensures Acting(after.phases[i]) <==> HoldsRows(w.phases[i])
  {
  }

  lemma InstallKeepsLogRow(w: World, i: nat, after: World, t: string)
    requires Installs(w, i, after) && LogsAreCommitted(w) && t in after.logs
    ensures exists j: nat ::
              ActedFor(after, j, t) && w.commands[j].Register? && after.logs[t] == RowOf(w.commands[j].register)
  {
    ActedForAfter(w, i, after);
    var cmd := w.commands[i];
    if cmd.Unregister? || t != cmd.Id() {
      var j: nat :| ActedFor(w, j, t) && w.commands[j].Register? && w.logs[t] == RowOf(w.commands[j].register);
      assert ActedFor(after, j, t);
    } else {
      assert ActedFor(after, i, t);
    }
  }

  lemma InstallKeepsCompensation(w: World, i: nat, after: World, u: string)
    requires Installs(w, i, after) && LogsAreCommitted(w) && u in after.compensations
    ensures exists j: nat :: ActedFor(after, j, u) && Target(w.commands[j]) == Some(after.compensations[u])
  {
    ActedForAfter(w, i, after);
    var cmd := w.commands[i];
    if cmd.Register? || u != cmd.Id() {
      var j: nat :| ActedFor(w, j, u) && Target(w.commands[j]) == Some(w.compensations[u]);
      assert ActedFor(after, j, u);
    } else {
      assert ActedFor(after, i, u);
    }
  }

  lemma InstallKeepsExistence(w: World, i: nat, after: World, j: nat)
    requires Installs(w, i, after) && LogsAreCommitted(w) && j < |w.phases| && Acting(after.phases[j])
    ensures RowExists(after, w.commands[j])
  {
    ActedForAfter(w, i, after);
    if j != i {
      assert RowExists(w, w.commands[j]);
    }
  }

  lemma InstallKeepsLogs(w: World, i: nat, after: World)
    requires Installs(w, i, after) && LogsAreCommitted(w)
    ensures LogsAreCommitted(after)
  {
    forall t | t in after.logs
      ensures exists j: nat ::
                ActedFor(after, j, t) && w.commands[j].Register? && after.logs[t] == RowOf(w.commands[j].register)
    {
      InstallKeepsLogRow(w, i, after, t);
    }
    forall u | u in after.compensations
      ensures exists j: nat :: ActedFor(after, j, u) && Target(w.commands[j]) == Some(after.compensations[u])
    {
      InstallKeepsCompensation(w, i, after, u);
    }
    forall j: nat | j < |after.phases| && Acting(after.phases[j])
      ensures RowExists(after, w.commands[j])
    {
      InstallKeepsExistence(w, i, after, j);
    }
  }

  lemma MarkOnlyKeepsLogs(w: World, i: nat, after: World)
    requires LeavesTables(w, i, after) && LogsAreCommitted(w)
    ensures LogsAreCommitted(after)
  {
    ActedForAfter(w, i, after);
  }

  lemma {:induction false} UntouchedRow(commands: seq<Command>, phases: seq<Phase>, rows: set<nat>, r: nat)
    requires |commands| == |phases| && r !in rows
    requires forall i | 0 <= i < |phases| :: WorkOf(phases[i]).seen <= rows
    requires r < |phases| ==> !Acting(phases[r])
    ensures SumSigns(commands, phases, r) == 0
  {
    if commands == [] {
    } else {
      var n := |commands| - 1;
      UntouchedRow(commands[..n], phases[..n], rows, r);
      assert WorkOf(phases[n]).seen <= rows;
    }
  }

  ghost predicate AllSeen(w: World) {
    forall j | 0 <= j < |w.phases| :: WorkOf(w.phases[j]).seen <= w.rows.Keys
  }

  lemma PhasesSee(w: World)
    requires WellFormed(w) && PhasesOk(w)
    ensures AllSeen(w)
  {
    forall j | 0 <= j < |w.phases|
      ensures WorkOf(w.phases[j]).seen <= w.rows.Keys
    {
      assert PhaseOk(w, j, w.phases[j]);
    }
  }

  lemma NewRowIsUntouched(w: World, i: nat)
    requires WellFormed(w) && RowsAreSums(w) && AllSeen(w) && i < |w.phases| && !Acting(w.phases[i])
    ensures i !in w.rows && SumSigns(w.commands, w.phases, i) == 0
  {
    assert !Inserter(w, i);
    UntouchedRow(w.commands, w.phases, w.rows.Keys, i);
  }

  lemma InstalledRow(w: World, i: nat, after: World, r: nat)
    requires Installs(w, i, after) && RowsAreSums(w) && AllSeen(w) && RowsOk(w, i, w.phases[i])
    requires r in after.rows
    ensures after.rows[r] == SumSigns(w.commands, after.phases, r)
  {
    NewRowIsUntouched(w, i);
    SumSignsUpdate(w.commands, w.phases, i, CommittedPhase(w.phases[i]), r);
    assert after.rows == w.rows + WorkOf(w.phases[i]).counts;
  }

  lemma InserterAfter(w: World, i: nat, after: World, r: nat)
    requires Ends(w, i, after)
    ensures Inserter(after, r)
            <==> if r == i then HoldsRows(w.phases[i]) && WorkOf(w.phases[i]).seen == {} else Inserter(w, r)
  {
  }

  lemma InstalledKeys(w: World, i: nat, after: World)
    requires Installs(w, i, after) && RowsOk(w, i, w.phases[i])
    ensures after.rows.Keys == w.rows.Keys + if WorkOf(w.phases[i]).seen == {} then {i} else {}
  {
    var seen := WorkOf(w.phases[i]).seen;
    assert after.rows == w.rows + CountChanges(w.rows, i, seen, Sign(w.commands[i]));
  }

  lemma InstallKeepsRows(w: World, i: nat, after: World)
    requires Installs(w, i, after) && RowsAreSums(w) && AllSeen(w) && RowsOk(w, i, w.phases[i])
    ensures RowsAreSums(after)
  {
    InstalledKeys(w, i, after);
    NewRowIsUntouched(w, i);
    forall r
      ensures r in after.rows <==> Inserter(after, r)
    {
      if r >= 0 {
        InserterAfter(w, i, after, r);
      }
    }
    forall r | r in after.rows
      ensures after.rows[r] == SumSigns(after.commands, after.phases, r)
    {
      InstalledRow(w, i, after, r);
    }
  }

  lemma MarkOnlyKeepsRows(w: World, i: nat, after: World)
    requires LeavesTables(w, i, after) && RowsAreSums(w) && AllSeen(w)
    ensures RowsAreSums(after)
  {
    NewRowIsUntouched(w, i);
    forall r: nat
      ensures r in after.rows <==> Inserter(after, r)
      ensures SumSigns(after.commands, after.phases, r) == SumSigns(w.commands, w.phases, r)
    {
      InserterAfter(w, i, after, r);
      SumSignsUpdate(w.commands, w.phases, i, CommittedPhase(w.phases[i]), r);
    }
  }

  // ---- The other handlers' work is not disturbed by a commit: what they have written is locked ----

  lemma CommitKeepsKey(w: World, i: nat, after: World, j: nat)
    requires Installs(w, i, after) || LeavesTables(w, i, after)
    requires j < |w.phases| && j != i && KeyOk(w, j, w.phases[j])
    ensures KeyOk(after, j, w.phases[j])
  {
  }

  lemma CommitKeepsLog(w: World, i: nat, after: World, j: nat)
    requires Installs(w, i, after) || LeavesTables(w, i, after)
    requires j < |w.phases| && j != i && LogOk(w, j, w.phases[j])
    ensures LogOk(after, j, w.phases[j])
  {
  }

  lemma CommitKeepsMark(w: World, i: nat, after: World, j: nat)
    requires EndsMarked(w, i, after)
    requires j < |w.phases| && j != i && MarkOk(w, j, w.phases[j])
    ensures MarkOk(after, j, w.phases[j])
  {
  }

  lemma SameChanges(a: map<nat, int>, b: map<nat, int>, i: nat, seen: set<nat>, delta: int)
    requires forall r | r in seen :: (r in a <==> r in b) && (r in a && r in b ==> a[r] == b[r])
    ensures CountChanges(a, i, seen, delta) == CountChanges(b, i, seen, delta)
  {
  }

  lemma InstallKeepsCounts(w: World, i: nat, after: World, j: nat)
    requires Installs(w, i, after) && RowsOk(w, i, w.phases[i]) && i !in w.rows
    requires j < |w.phases| && j != i && RowsOk(w, j, w.phases[j])
    ensures RowsOk(after, j, w.phases[j])
  {
    var seen := WorkOf(w.phases[j]).seen;
    InstalledKeys(w, i, after);
    if HoldsRows(w.phases[j]) {
      assert WorkOf(w.phases[i]).seen !! seen;
      SameChanges(w.rows, after.rows, j, seen, Sign(w.commands[j]));
    }
  }

  lemma CommitKeepsPhase(w: World, i: nat, after: World, j: nat)
    requires EndsMarked(w, i, after) && (Installs(w, i, after) || LeavesTables(w, i, after))
    requires j < |w.phases| && j != i && PhaseOk(w, j, w.phases[j]) && RowsOk(w, i, w.phases[i])
    requires i !in w.rows
    ensures PhaseOk(after, j, w.phases[j])
  {
    CommitKeepsKey(w, i, after, j);
    CommitKeepsLog(w, i, after, j);
    CommitKeepsMark(w, i, after, j);
    if Installs(w, i, after) {
      InstallKeepsCounts(w, i, after, j);
    }
  }

  lemma CommitKeepsOwnPhase(w: World, i: nat, after: World)
    requires Installs(w, i, after) || LeavesTables(w, i, after)
    requires RowsOk(w, i, w.phases[i])
    ensures PhaseOk(after, i, after.phases[i])
  {
    if Installs(w, i, after) {
      InstalledKeys(w, i, after);
    }
  }

  lemma CommitKeepsTables(w: World, i: nat, after: World)
    requires EndsMarked(w, i, after) && (Installs(w, i, after) || LeavesTables(w, i, after))
    requires TablesOk(w) && AllSeen(w) && PhaseOk(w, i, w.phases[i])
    ensures TablesOk(after)
  {
    CommitKeepsMarks(w, i, after);
    CommitKeepsAggregates(w, i, after);
    if Installs(w, i, after) {
      InstallKeepsLogs(w, i, after);
      InstallKeepsRows(w, i, after);
    } else {
      MarkOnlyKeepsLogs(w, i, after);
      MarkOnlyKeepsRows(w, i, after);
    }
  }

  lemma CommitKeepsInv(w: World, i: nat)
    requires Inv(w) && Enabled(w, i, Commit)
    ensures Inv(CommitOf(w, i)) && CommitOf(w, i).commands == w.commands
  {
    var after := CommitOf(w, i);
    CommitShape(w, i);
    PhasesSee(w);
    NewRowIsUntouched(w, i);
    assert PhaseOk(w, i, w.phases[i]);
    CommitKeepsTables(w, i, after);
    forall j: nat | j < |after.phases|
      ensures PhaseOk(after, j, after.phases[j])
    {
      if j == i {
        CommitKeepsOwnPhase(w, i, after);
      } else {
        assert PhaseOk(w, j, w.phases[j]);
        CommitKeepsPhase(w, i, after, j);
      }
    }
  }

  /** Every step of every handler keeps the invariant. */
  lemma StepKeepsInv(w: World, i: nat, step: Step)
    requires Inv(w) && Enabled(w, i, step)
    ensures Inv(Next(w, i, step)) && Next(w, i, step).commands == w.commands
  {
    if step == Commit {
      CommitKeepsInv(w, i);
    } else {
      var phase := NextPhase(w, i, step);
      assert PhaseOk(w, i, w.phases[i]);
      StepIsOk(w, i, step);
      UpdateKeepsAggregates(w, i, phase);
      UpdateKeepsRows(w, i, phase);
      UpdateKeepsMarks(w, i, phase);
      UpdateKeepsLogs(w, i, phase);
      forall j: nat | j < |w.phases|
        ensures PhaseOk(Next(w, i, step), j, Next(w, i, step).phases[j])
      {
        UpdateKeepsPhase(w, i, phase, j);
      }
    }
  }

  // ---- Every interleaving ----

  datatype Move = Move(handler: nat, step: Step)

  ghost predicate ValidRun(w: World, moves: seq<Move>)
    decreases |moves|
  {
    moves != [] ==>
      && Enabled(w, moves[0].handler, moves[0].step)
      && ValidRun(Next(w, moves[0].handler, moves[0].step), moves[1..])
  }

  ghost function Run(w: World, moves: seq<Move>): World
    requires ValidRun(w, moves)
    decreases |moves|
  {
    if moves == [] then w else Run(Next(w, moves[0].handler, moves[0].step), moves[1..])
  }

  lemma {:induction false} RunKeepsInv(w: World, moves: seq<Move>)
    requires Inv(w) && ValidRun(w, moves)
    ensures Inv(Run(w, moves)) && Run(w, moves).commands == w.commands
    decreases |moves|
  {
    if moves == [] {
    } else {
      StepKeepsInv(w, moves[0].handler, moves[0].step);
      RunKeepsInv(Next(w, moves[0].handler, moves[0].step), moves[1..]);
    }
  }

  /** Concurrent duplicates: over every interleaving of any number of handlers, of all those with the
      same id at most one commits any effect, a processed id was committed by exactly one, every
      aggregate is the sum of what the committed ones changed (no update is lost), and every log row
      is that of a committed one, so the others left nothing behind. */
  lemma DuplicatesTakeEffectOnce(commands: seq<Command>, moves: seq<Move>)
    requires ValidRun(Initial(commands), moves)
    ensures var w := Run(Initial(commands), moves);
            && |w.phases| == |commands| && w.commands == commands
            && (forall i, j | 0 <= i < |commands| && 0 <= j < |commands| && Effective(w, i) && Effective(w, j)
                              && commands[i].Id() == commands[j].Id() :: i == j)
            && (forall id :: id in w.processed
                             <==> exists i :: 0 <= i < |commands| && Effective(w, i) && commands[i].Id() == id)
            && (forall key :: ValueIn(w.aggregates, key) == SumChanges(commands, w.phases, key))
            && LogsAreCommitted(w)
  {
    InitialInv(commands);
    RunKeepsInv(Initial(commands), moves);
  }

  /** What a handler has written of its aggregate is, until it ends, one change away from what is
      committed, and no other open handler has written that row. */
  lemma NoUpdateIsLost(commands: seq<Command>, moves: seq<Move>, i: nat)
    requires ValidRun(Initial(commands), moves) && i < |commands|
    ensures var w := Run(Initial(commands), moves);
            && |w.phases| == |commands| && w.commands == commands
            && (HoldsKey(w.phases[i]) ==>
                  && WorkOf(w.phases[i]).value
                     == ValueIn(w.aggregates, KeyOf(commands[i].register)) + Change(commands[i])
                  && KeyIsFree(w, i))
  {
    InitialInv(commands);
    RunKeepsInv(Initial(commands), moves);
    assert PhaseOk(Run(Initial(commands), moves), i, Run(Initial(commands), moves).phases[i]);
  }

  // ---- The count table ----

  ghost predicate CountIsRight(w: World)
    requires WellFormed(w)
  {
    if exists i :: 0 <= i < |w.phases| && Acting(w.phases[i]) then
      exists r :: w.rows == map[r := Total(w.commands, w.phases)]
    else w.rows == map[]
  }

  lemma {:induction false} OneRowCountsAll(commands: seq<Command>, phases: seq<Phase>, r: nat)
    requires |commands| == |phases|
    requires forall i | 0 <= i < |phases| && Acting(phases[i]) :: Touched(phases[i], i, r)
    ensures SumSigns(commands, phases, r) == Total(commands, phases)
  {
    if commands == [] {
    } else {
      var n := |commands| - 1;
      OneRowCountsAll(commands[..n], phases[..n], r);
      assert Acting(phases[n]) ==> Touched(phases[n], n, r);
    }
  }

  lemma SingleInserterCounts(w: World, r: nat)
    requires Inv(w) && Inserter(w, r) && forall i | Inserter(w, i) :: i == r
    ensures w.rows == map[r := Total(w.commands, w.phases)]
  {
    assert w.rows.Keys == {r};
    forall i | 0 <= i < |w.phases| && Acting(w.phases[i])
      ensures Touched(w.phases[i], i, r)
    {
      assert PhaseOk(w, i, w.phases[i]);
      if w.phases[i].work.seen == {} {
        assert Inserter(w, i);
      } else {
        assert w.phases[i].work.seen == {r};
      }
    }
    OneRowCountsAll(w.commands, w.phases, r);
  }

  lemma NoInserterNoRows(w: World)
    requires Inv(w) && forall i :: !Inserter(w, i)
    ensures CountIsRight(w)
  {
    assert w.rows.Keys == {};
    forall i | 0 <= i < |w.phases|
      ensures !Acting(w.phases[i])
    {
      assert PhaseOk(w, i, w.phases[i]);
      assert Acting(w.phases[i]) ==> Inserter(w, i);
    }
  }

  lemma SplitCount(w: World, i: nat, j: nat)
    requires WellFormed(w) && RowsAreSums(w) && CountIsRight(w) && Inserter(w, i) && Inserter(w, j)
    ensures i == j
  {
    assert i in w.rows && j in w.rows && Acting(w.phases[i]);
  }

  lemma CountOf(w: World)
    requires Inv(w)
    ensures CountIsRight(w) <==> forall i, j | Inserter(w, i) && Inserter(w, j) :: i == j
  {
    if forall i, j | Inserter(w, i) && Inserter(w, j) :: i == j {
      if r :| Inserter(w, r) {
        SingleInserterCounts(w, r);
      } else {
        NoInserterNoRows(w);
      }
    }
    if CountIsRight(w) {
      forall i: nat, j: nat | Inserter(w, i) && Inserter(w, j)
        ensures i == j
      {
        SplitCount(w, i, j);
      }
    }
  }

  /** Update-or-insert is not atomic. Over every interleaving the count table holds one row with the
      total (or nothing when nothing was committed) exactly when no two committed handlers both found
      it empty. */
  lemma CountIsRightIff(commands: seq<Command>, moves: seq<Move>)
    requires ValidRun(Initial(commands), moves)
    ensures var w := Run(Initial(commands), moves);
            WellFormed(w) && (CountIsRight(w) <==> forall i, j | Inserter(w, i) && Inserter(w, j) :: i == j)
  {
    InitialInv(commands);
    RunKeepsInv(Initial(commands), moves);
    CountOf(Run(Initial(commands), moves));
  }

  // ---- A handler on its own ----

  ghost function With(w: World, i: nat, phase: Phase): World
    requires i < |w.phases|
  {
    w.(phases := w.phases[i := phase])
  }

  /** No other handler is in the middle of writing. */
  ghost predicate Alone(w: World, i: nat) {
    && WellFormed(w) && i < |w.phases|
    && forall j | 0 <= j < |w.phases| && j != i :: !HoldsKey(w.phases[j]) && !w.phases[j].HoldsMark?
  }

  lemma NothingIsHeld(w: World, i: nat, phase: Phase)
    requires Alone(w, i)
    ensures KeyIsFree(With(w, i, phase), i) && LogIsFree(With(w, i, phase), i) && MarkIsFree(With(w, i, phase), i)
    ensures forall seen :: RowsAreFree(With(w, i, phase), i, seen)
  {
  }

  lemma StepTo(w: World, i: nat, phase: Phase, step: Step, phase': Phase, rest: seq<Move>) returns (moves: seq<Move>)
    requires i < |w.phases| && step != Commit && Enabled(With(w, i, phase), i, step)
    requires NextPhase(With(w, i, phase), i, step) == phase'
    requires ValidRun(With(w, i, phase'), rest)
    ensures ValidRun(With(w, i, phase), moves) && Run(With(w, i, phase), moves) == Run(With(w, i, phase'), rest)
  {
    assert w.phases[i := phase][i := phase'] == w.phases[i := phase'];
    assert Next(With(w, i, phase), i, step) == With(w, i, phase');
    moves := Prepend(With(w, i, phase), i, step, rest);
  }

  lemma CommitTo(w: World, i: nat, phase: Phase) returns (moves: seq<Move>)
    requires i < |w.phases| && Enabled(With(w, i, phase), i, Commit)
    ensures ValidRun(With(w, i, phase), moves)
    ensures Run(With(w, i, phase), moves) == CommitOf(With(w, i, phase), i)
  {
    moves := [];
    assert ValidRun(CommitOf(With(w, i, phase), i), moves);
    moves := Prepend(With(w, i, phase), i, Commit, moves);
  }

  /** The tables of a world, with these counts. */
  ghost function TablesOf(w: World, counts: seq<int>): Db {
    Db(w.processed, w.aggregates, w.logs, w.compensations, counts)
  }

  predicate OneRow(rows: map<nat, int>, r: nat, count: int) {
    rows == map[r := count]
  }

  /** The count table holds at most one row. */
  ghost predicate CountsAre(rows: map<nat, int>, counts: seq<int>) {
    if |counts| == 1 then exists r :: OneRow(rows, r, counts[0]) else rows == map[] && counts == []
  }

  ghost predicate Reaches(w: World, after: Db) {
    && w.processed == after.processed && w.aggregates == after.aggregates
    && w.logs == after.logs && w.compensations == after.compensations && CountsAre(w.rows, after.counts)
  }

  lemma RowsAreMarked(w: World)
    requires Inv(w)
    ensures w.logs.Keys <= w.processed.Keys && w.compensations.Keys <= w.processed.Keys
  {
    forall t | t in w.logs
      ensures t in w.processed
    {
      var j: nat :| ActedFor(w, j, t) && w.commands[j].Register? && w.logs[t] == RowOf(w.commands[j].register);
      assert Effective(w, j);
    }
    forall u | u in w.compensations
      ensures u in w.processed
    {
      var j: nat :| ActedFor(w, j, u) && Target(w.commands[j]) == Some(w.compensations[u]);
      assert Effective(w, j);
    }
  }

  /** What the actions of handler i write when nobody else writes. */
  ghost function WorkAlone(w: World, i: nat): Work
    requires WellFormed(w) && i < |w.phases|
  {
    var cmd := w.commands[i];
    Work(ValueIn(w.aggregates, KeyOf(cmd.register)) + Change(cmd), w.rows.Keys,
         CountChanges(w.rows, i, w.rows.Keys, Sign(cmd)))
  }

  lemma CountAlone(w: World, i: nat, counts: seq<int>)
    requires CountsAre(w.rows, counts) && i < |w.commands|
    ensures CountsAre(w.rows + CountChanges(w.rows, i, w.rows.Keys, Sign(w.commands[i])),
                      Tables.Counted(counts, Sign(w.commands[i])))
  {
    var delta := Sign(w.commands[i]);
    var after, counts' := w.rows + CountChanges(w.rows, i, w.rows.Keys, delta), Tables.Counted(counts, delta);
    if |counts| == 1 {
      var r :| OneRow(w.rows, r, counts[0]);
      assert r in w.rows;
      assert OneRow(after, r, counts'[0]);
    } else {
      assert OneRow(after, i, counts'[0]);
    }
  }

  lemma ActingAloneApplies(w: World, i: nat, counts: seq<int>)
    requires Alone(w, i) && CountsAre(w.rows, counts) && w.commands[i].Id() !in w.processed
    requires w.commands[i].Register? ==> !CompensatedIn(w.processed, w.commands[i].Id())
    ensures Enabled(With(w, i, HoldsMark(Act, WorkAlone(w, i))), i, Commit)
    ensures Reaches(CommitOf(With(w, i, HoldsMark(Act, WorkAlone(w, i))), i), Apply(TablesOf(w, counts), w.commands[i]))
  {
    CountAlone(w, i, counts);
  }

  lemma CountsAlone(w: World, i: nat) returns (moves: seq<Move>)
    requires Alone(w, i) && w.commands[i].Id() !in w.processed
    ensures var started := Work(WorkAlone(w, i).value, {}, map[]);
            && ValidRun(With(w, i, Inserted(started)), moves)
            && Run(With(w, i, Inserted(started)), moves) == CommitOf(With(w, i, HoldsMark(Act, WorkAlone(w, i))), i)
  {
    var work := WorkAlone(w, i);
    var started := Work(work.value, {}, map[]);
    var seeing := started.(seen := w.rows.Keys);
    NothingIsHeld(w, i, Snapshotted(seeing));
    NothingIsHeld(w, i, Counted(work));
    moves := CommitTo(w, i, HoldsMark(Act, work));
    moves := StepTo(w, i, Counted(work), Mark, HoldsMark(Act, work), moves);
    moves := StepTo(w, i, Snapshotted(seeing), FinishCount, Counted(work), moves);
    moves := StepTo(w, i, Inserted(started), StartCount, Snapshotted(seeing), moves);
  }

  lemma WritesAlone(w: World, i: nat) returns (moves: seq<Move>)
    requires Inv(w) && Alone(w, i) && w.commands[i].Id() !in w.processed
    ensures ValidRun(With(w, i, Planned(Act)), moves)
    ensures Run(With(w, i, Planned(Act)), moves) == CommitOf(With(w, i, HoldsMark(Act, WorkAlone(w, i))), i)
  {
    var started := Work(WorkAlone(w, i).value, {}, map[]);
    NothingIsHeld(w, i, Planned(Act));
    NothingIsHeld(w, i, Upserted(started));
    RowsAreMarked(w);
    moves := CountsAlone(w, i);
    moves := StepTo(w, i, Upserted(started), InsertRow, Inserted(started), moves);
    moves := StepTo(w, i, Planned(Act), Upsert, Upserted(started), moves);
  }

  lemma SkipsAlone(w: World, i: nat, counts: seq<int>) returns (moves: seq<Move>)
    requires Inv(w) && Alone(w, i) && CountsAre(w.rows, counts) && w.commands[i].Id() in w.processed
    ensures ValidRun(With(w, i, Idle), moves)
    ensures Reaches(Run(With(w, i, Idle), moves), Apply(TablesOf(w, counts), w.commands[i]))
  {
    moves := CommitTo(w, i, Planned(NoOp));
    moves := StepTo(w, i, Idle, CheckHandled, Planned(NoOp), moves);
  }

  lemma MarksAlone(w: World, i: nat, counts: seq<int>) returns (moves: seq<Move>)
    requires Inv(w) && Alone(w, i) && CountsAre(w.rows, counts) && w.commands[i].Id() !in w.processed
    requires w.commands[i].Register? && CompensatedIn(w.processed, w.commands[i].Id())
    ensures ValidRun(With(w, i, NotHandled), moves)
    ensures Reaches(Run(With(w, i, NotHandled), moves), Apply(TablesOf(w, counts), w.commands[i]))
  {
    NothingIsHeld(w, i, Planned(OnlyMark));
    moves := CommitTo(w, i, HoldsMark(OnlyMark, NO_WORK));
    moves := StepTo(w, i, Planned(OnlyMark), Mark, HoldsMark(OnlyMark, NO_WORK), moves);
    moves := StepTo(w, i, NotHandled, CheckCompensated, Planned(OnlyMark), moves);
  }

  lemma ActsAlone(w: World, i: nat, counts: seq<int>) returns (moves: seq<Move>)
    requires Inv(w) && Alone(w, i) && CountsAre(w.rows, counts) && w.commands[i].Id() !in w.processed
    requires w.commands[i].Register? ==> !CompensatedIn(w.processed, w.commands[i].Id())
    ensures ValidRun(With(w, i, NotHandled), moves)
    ensures Reaches(Run(With(w, i, NotHandled), moves), Apply(TablesOf(w, counts), w.commands[i]))
  {
    moves := WritesAlone(w, i);
    ActingAloneApplies(w, i, counts);
    moves := StepTo(w, i, NotHandled, CheckCompensated, Planned(Act), moves);
  }

  /** A handler that runs while no other is writing can run to its end, and does to the tables exactly
      what handling its command means: nothing but commit if the id was processed, only its mark if it
      is a register that was compensated, and all of it otherwise. */
  lemma AloneApplies(w: World, i: nat, counts: seq<int>) returns (moves: seq<Move>)
    requires Inv(w) && Alone(w, i) && w.phases[i] == Idle && CountsAre(w.rows, counts)
    ensures ValidRun(w, moves)
    ensures Reaches(Run(w, moves), Apply(TablesOf(w, counts), w.commands[i]))
  {
    var cmd := w.commands[i];
    assert With(w, i, Idle) == w by {
      assert w.phases[i := Idle] == w.phases;
    }
    if cmd.Id() in w.processed {
      moves := SkipsAlone(w, i, counts);
    } else {
      if cmd.Register? && CompensatedIn(w.processed, cmd.Id()) {
        moves := MarksAlone(w, i, counts);
      } else {
        moves := ActsAlone(w, i, counts);
      }
      moves := StepTo(w, i, Idle, CheckHandled, NotHandled, moves);
    }
  }

  // ---- Two rows ----

  function SampleCommand(id: string, player: string): Command {
    Register(RegisterCommand(id, player, "EUR", 0, 1))
  }

  const FIRST := SampleCommand("a", "p")
  const SECOND := SampleCommand("b", "q")

  lemma SamplesDiffer()
    ensures FIRST.Id() != SECOND.Id() && KeyOf(FIRST.register) != KeyOf(SECOND.register)
  {
    assert "a"[0] != "b"[0] && "p"[0] != "q"[0];
  }

  ghost function SampleWorld(first: Phase, second: Phase): World {
    World(map[], map[], map[], map[], map[], [FIRST, SECOND], [first, second])
  }

  /** Both handlers take the same step, the first one first. */
  lemma Both(step: Step, a: Phase, b: Phase, a': Phase, b': Phase, rest: seq<Move>) returns (moves: seq<Move>)
    requires step != Commit
    requires Enabled(SampleWorld(a, b), 0, step) && NextPhase(SampleWorld(a, b), 0, step) == a'
    requires Enabled(SampleWorld(a', b), 1, step) && NextPhase(SampleWorld(a', b), 1, step) == b'
    requires ValidRun(SampleWorld(a', b'), rest)
    ensures ValidRun(SampleWorld(a, b), moves) && Run(SampleWorld(a, b), moves) == Run(SampleWorld(a', b'), rest)
  {
    assert [a, b][0 := a'] == [a', b] && [a', b][1 := b'] == [a', b'];
    assert Next(SampleWorld(a, b), 0, step) == SampleWorld(a', b);
    assert Next(SampleWorld(a', b), 1, step) == SampleWorld(a', b');
    moves := Prepend(SampleWorld(a', b), 1, step, rest);
    moves := Prepend(SampleWorld(a, b), 0, step, moves);
  }

  lemma Prepend(w: World, i: nat, step: Step, moves: seq<Move>) returns (longer: seq<Move>)
    requires Enabled(w, i, step) && ValidRun(Next(w, i, step), moves)
    ensures ValidRun(w, longer) && Run(w, longer) == Run(Next(w, i, step), moves)
  {
    longer := [Move(i, step)] + moves;
    assert longer[1..] == moves;
  }

  const STARTED := Work(1, {}, map[])
  const FIRST_WORK := Work(1, {}, map[0 := 1])
  const SECOND_WORK := Work(1, {}, map[1 := 1])

  lemma SampleCommits() returns (moves: seq<Move>)
    ensures var w := SampleWorld(HoldsMark(Act, FIRST_WORK), HoldsMark(Act, SECOND_WORK));
            ValidRun(w, moves) && Run(w, moves).rows == map[0 := 1, 1 := 1]
  {
    var w := SampleWorld(HoldsMark(Act, FIRST_WORK), HoldsMark(Act, SECOND_WORK));
    var one := Next(w, 0, Commit);
    assert one.rows == map[0 := 1] && one.phases[1] == HoldsMark(Act, SECOND_WORK);
    var two := Next(one, 1, Commit);
    assert two.rows == map[0 := 1, 1 := 1];
    moves := [];
    assert ValidRun(two, moves) && Run(two, moves) == two;
    moves := Prepend(one, 1, Commit, moves);
    moves := Prepend(w, 0, Commit, moves);
  }

  lemma SampleMarks() returns (moves: seq<Move>)
    ensures var w := SampleWorld(Snapshotted(STARTED), Snapshotted(STARTED));
            ValidRun(w, moves) && Run(w, moves).rows == map[0 := 1, 1 := 1]
  {
    SamplesDiffer();
    moves := SampleCommits();
    moves := Both(Mark, Counted(FIRST_WORK), Counted(SECOND_WORK),
                  HoldsMark(Act, FIRST_WORK), HoldsMark(Act, SECOND_WORK), moves);
    moves := Both(FinishCount, Snapshotted(STARTED), Snapshotted(STARTED),
                  Counted(FIRST_WORK), Counted(SECOND_WORK), moves);
  }

  lemma SampleInserts() returns (moves: seq<Move>)
    ensures var w := SampleWorld(Upserted(STARTED), Upserted(STARTED));
            ValidRun(w, moves) && Run(w, moves).rows == map[0 := 1, 1 := 1]
  {
    SamplesDiffer();
    moves := SampleMarks();
    moves := Both(StartCount, Inserted(STARTED), Inserted(STARTED), Snapshotted(STARTED), Snapshotted(STARTED), moves);
    moves := Both(InsertRow, Upserted(STARTED), Upserted(STARTED), Inserted(STARTED), Inserted(STARTED), moves);
  }

  lemma SampleActs() returns (moves: seq<Move>)
    ensures var w := SampleWorld(Planned(Act), Planned(Act));
            ValidRun(w, moves) && Run(w, moves).rows == map[0 := 1, 1 := 1]
  {
    SamplesDiffer();
    moves := SampleInserts();
    moves := Both(Upsert, Planned(Act), Planned(Act), Upserted(STARTED), Upserted(STARTED), moves);
  }

  /** Two handlers of transactions of different players that start on the empty table leave two rows. */
  lemma TwoHandlersCanSplitTheCount() returns (moves: seq<Move>)
    ensures ValidRun(Initial([FIRST, SECOND]), moves)
    ensures Run(Initial([FIRST, SECOND]), moves).rows == map[0 := 1, 1 := 1]
  {
    SamplesDiffer();
    assert Initial([FIRST, SECOND]) == SampleWorld(Idle, Idle);
    moves := SampleActs();
    moves := Both(CheckCompensated, NotHandled, NotHandled, Planned(Act), Planned(Act), moves);
    moves := Both(CheckHandled, Idle, Idle, NotHandled, NotHandled, moves);
  }
}
