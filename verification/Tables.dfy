/** The tables of the tx-consumer's database and what handling a command does to them. */
module Tables {
  import opened Kafka
  import opened Codec

  const SECONDS_PER_DAY := 86400

  /** A row of the aggregate table is found by player, currency and UTC day. */
  datatype Key = Key(playerId: string, currency: string, day: int)

  datatype LogRow = LogRow(key: Key, value: int, createdAt: int)

  /** processed: id to the id it compensates; counts: the rows of a table meant to have one. */
  datatype Db = Db(
    processed: map<string, Option<string>>,
    aggregates: map<Key, int>,
    logs: map<string, LogRow>,
    compensations: map<string, string>,
    counts: seq<int>)

  const EMPTY := Db(map[], map[], map[], map[], [])

  datatype AlarmCrossing = NoCrossing | CrossedAbove | CrossedBelow

  /** An alarm command on its way to the alarms topic, with the aggregate it is about. */
  datatype Emission = Raise(key: Key, alarmValue: int, value: int) | Clear(key: Key)

  function KeyOf(r: RegisterCommand): Key {
    Key(r.playerId, r.currency, r.time / SECONDS_PER_DAY)
  }

  function RowOf(r: RegisterCommand): LogRow {
    LogRow(KeyOf(r), r.value, r.time)
  }

  function ValueIn(aggregates: map<Key, int>, key: Key): int {
    if key in aggregates then aggregates[key] else 0
  }

  function Value(db: Db, key: Key): int {
    ValueIn(db.aggregates, key)
  }

  predicate Handled(db: Db, id: string) {
    id in db.processed
  }

  predicate CompensatedIn(processed: map<string, Option<string>>, id: string) {
    exists u | u in processed :: processed[u] == Some(id)
  }

  predicate Compensated(db: Db, id: string) {
    CompensatedIn(db.processed, id)
  }

  function Crossing(previousValue: int, updatedValue: int, threshold: int): AlarmCrossing {
    var wasAbove, isAbove := previousValue >= threshold, updatedValue >= threshold;
    if !wasAbove && isAbove then CrossedAbove
    else if wasAbove && !isAbove then CrossedBelow
    else NoCrossing
  }

  // ---- Effects ----

  function Shifted(db: Db, key: Key, delta: int): Db {
    db.(aggregates := db.aggregates[key := Value(db, key) + delta])
  }

  /** UPDATE touches every row; a row is inserted only when there was none. */
  function Counted(counts: seq<int>, delta: int): seq<int> {
    if counts == [] then [delta] else seq(|counts|, i requires 0 <= i < |counts| => counts[i] + delta)
  }

  function Logged(db: Db, r: RegisterCommand): Db {
    db.(logs := db.logs[r.transactionId := RowOf(r)])
  }

  function CompensationLogged(db: Db, id: string, compensatedId: string): Db {
    db.(compensations := db.compensations[id := compensatedId])
  }

  function CountShifted(db: Db, delta: int): Db {
    db.(counts := Counted(db.counts, delta))
  }

  function Executed(db: Db, r: RegisterCommand): Db {
    CountShifted(Logged(Shifted(db, KeyOf(r), r.value), r), 1)
  }

  function Undone(db: Db, id: string, r: RegisterCommand): Db {
    CountShifted(CompensationLogged(Shifted(db, KeyOf(r), -r.value), id, r.transactionId), -1)
  }

  function Marked(db: Db, cmd: Command): Db {
    db.(processed := db.processed[cmd.Id() := if cmd.Unregister? then Some(cmd.register.transactionId) else None])
  }

  /** One successful run of the saga handler. */
  function Apply(db: Db, cmd: Command): Db {
    if Handled(db, cmd.Id()) then db
    else if cmd.Unregister? then Marked(Undone(db, cmd.id, cmd.register), cmd)
    else if Compensated(db, cmd.Id()) then Marked(db, cmd)
    else Marked(Executed(db, cmd.register), cmd)
  }

  /** The change a successful run makes to the aggregate of the command. */
  function Delta(db: Db, cmd: Command): int {
    if Handled(db, cmd.Id()) then 0
    else if cmd.Unregister? then -cmd.register.value
    else if Compensated(db, cmd.Id()) then 0
    else cmd.register.value
  }

  function EmissionOf(key: Key, previousValue: int, updatedValue: int, threshold: int): seq<Emission> {
    match Crossing(previousValue, updatedValue, threshold)
    case CrossedAbove => [Raise(key, threshold, updatedValue)]
    case CrossedBelow => [Clear(key)]
    case NoCrossing => []
  }

  /** The alarm commands of one successful run. */
  function Emits(db: Db, cmd: Command, threshold: int): seq<Emission> {
    var key := KeyOf(cmd.register);
    if Delta(db, cmd) == 0 then [] else EmissionOf(key, Value(db, key), Value(db, key) + Delta(db, cmd), threshold)
  }

  // ---- Keys, spelled out ----

  /** The d-th UTC day. */
  predicate OnDay(time: int, d: int) {
    86400 * d <= time < 86400 * (d + 1)
  }

  /** Two registers share an aggregate exactly when player, currency and UTC day agree. */
  lemma KeysAgreeIff(a: RegisterCommand, b: RegisterCommand)
    ensures KeyOf(a) == KeyOf(b)
            <==> a.playerId == b.playerId && a.currency == b.currency
                 && exists d :: OnDay(a.time, d) && OnDay(b.time, d)
  {
    assert OnDay(a.time, a.time / 86400) && OnDay(b.time, b.time / 86400);
  }

  /** An executed register changes the aggregate that another one reads exactly then, unless it is zero. */
  lemma ExecuteMovesIff(db: Db, a: RegisterCommand, b: RegisterCommand)
    requires !Handled(db, a.transactionId) && !Compensated(db, a.transactionId)
    ensures Value(Apply(db, Register(a)), KeyOf(b)) != Value(db, KeyOf(b))
            <==> a.value != 0 && a.playerId == b.playerId && a.currency == b.currency
                 && exists d :: OnDay(a.time, d) && OnDay(b.time, d)
  {
    KeysAgreeIff(a, b);
  }

  /** A compensation changes the aggregate of the register it names, not of its own time. */
  lemma UndoMovesIff(db: Db, id: string, time: int, a: RegisterCommand, b: RegisterCommand)
    requires !Handled(db, id)
    ensures Value(Apply(db, Unregister(id, time, a)), KeyOf(b)) != Value(db, KeyOf(b))
            <==> a.value != 0 && a.playerId == b.playerId && a.currency == b.currency
                 && exists d :: OnDay(a.time, d) && OnDay(b.time, d)
  {
    KeysAgreeIff(a, b);
  }

  /** The log row of an executed register, field by field. */
  lemma ExecutedRow(db: Db, r: RegisterCommand)
    requires !Handled(db, r.transactionId) && !Compensated(db, r.transactionId)
    ensures var after := Apply(db, Register(r));
            && r.transactionId in after.logs
            && var row := after.logs[r.transactionId];
               && row.key.playerId == r.playerId && row.key.currency == r.currency && OnDay(r.time, row.key.day)
               && row.value == r.value && row.createdAt == r.time
  {
    assert OnDay(r.time, r.time / 86400);
  }

  /** The compensating row, which names the register it undoes. */
  lemma UndoneRow(db: Db, id: string, time: int, r: RegisterCommand)
    requires !Handled(db, id)
    ensures var after := Apply(db, Unregister(id, time, r));
            && id in after.compensations && after.compensations[id] == r.transactionId
            && id in after.processed && after.processed[id] == Some(r.transactionId)
            && after.logs == db.logs
  {
  }

  // ---- Integrity ----

  ghost predicate LogIntegrity(db: Db) {
    && (forall t | t in db.logs :: t in db.processed && db.processed[t] == None)
    && (forall t | t in db.logs :: db.logs[t].key in db.aggregates)
  }

  ghost predicate CompensationIntegrity(db: Db) {
    && (forall u | u in db.compensations :: u in db.processed && db.processed[u] == Some(db.compensations[u]))
    && (forall u | u in db.processed && db.processed[u].Some? :: u in db.compensations)
  }

  ghost predicate CountIntegrity(db: Db) {
    if db.counts == [] then |db.logs| == 0 && |db.compensations| == 0
    else db.counts == [|db.logs| - |db.compensations|]
  }

  /** Keys and counts of the schema that every reachable database meets. */
  ghost predicate Integrity(db: Db) {
    LogIntegrity(db) && CompensationIntegrity(db) && CountIntegrity(db)
  }

  lemma ExecuteKeepsLogs(db: Db, r: RegisterCommand)
    requires LogIntegrity(db) && !Handled(db, r.transactionId)
    ensures LogIntegrity(Marked(Executed(db, r), Register(r)))
  {
    var after := Marked(Executed(db, r), Register(r));
    assert after.logs == db.logs[r.transactionId := RowOf(r)];
    assert KeyOf(r) in after.aggregates;
  }

  lemma ExecuteKeepsCompensations(db: Db, r: RegisterCommand)
    requires CompensationIntegrity(db) && !Handled(db, r.transactionId)
    ensures CompensationIntegrity(Marked(Executed(db, r), Register(r)))
  {
    var after := Marked(Executed(db, r), Register(r));
    assert after.compensations == db.compensations && after.processed == db.processed[r.transactionId := None];
  }

  lemma ExecuteKeepsCount(db: Db, r: RegisterCommand)
    requires CountIntegrity(db) && r.transactionId !in db.logs
    ensures CountIntegrity(Marked(Executed(db, r), Register(r)))
  {
    var after := Marked(Executed(db, r), Register(r));
    assert |after.logs| == |db.logs| + 1;
  }

  lemma ExecuteKeepsIntegrity(db: Db, r: RegisterCommand)
    requires Integrity(db) && !Handled(db, r.transactionId)
    ensures Integrity(Marked(Executed(db, r), Register(r)))
  {
    assert r.transactionId !in db.logs;
    ExecuteKeepsLogs(db, r);
    ExecuteKeepsCompensations(db, r);
    ExecuteKeepsCount(db, r);
  }

  lemma UndoKeepsLogs(db: Db, id: string, time: int, r: RegisterCommand)
    requires LogIntegrity(db) && !Handled(db, id)
    ensures LogIntegrity(Marked(Undone(db, id, r), Unregister(id, time, r)))
  {
    var after := Marked(Undone(db, id, r), Unregister(id, time, r));
    assert after.logs == db.logs && db.aggregates.Keys <= after.aggregates.Keys;
  }

  lemma UndoKeepsCompensations(db: Db, id: string, time: int, r: RegisterCommand)
    requires CompensationIntegrity(db) && !Handled(db, id)
    ensures CompensationIntegrity(Marked(Undone(db, id, r), Unregister(id, time, r)))
  {
    var after := Marked(Undone(db, id, r), Unregister(id, time, r));
    assert after.compensations == db.compensations[id := r.transactionId];
    assert after.processed == db.processed[id := Some(r.transactionId)];
  }

  lemma UndoKeepsCount(db: Db, id: string, time: int, r: RegisterCommand)
    requires CountIntegrity(db) && id !in db.compensations
    ensures CountIntegrity(Marked(Undone(db, id, r), Unregister(id, time, r)))
  {
    var after := Marked(Undone(db, id, r), Unregister(id, time, r));
    assert |after.compensations| == |db.compensations| + 1;
  }

  lemma UndoKeepsIntegrity(db: Db, id: string, time: int, r: RegisterCommand)
    requires Integrity(db) && !Handled(db, id)
    ensures Integrity(Marked(Undone(db, id, r), Unregister(id, time, r)))
  {
    assert id !in db.compensations;
    UndoKeepsLogs(db, id, time, r);
    UndoKeepsCompensations(db, id, time, r);
    UndoKeepsCount(db, id, time, r);
  }

  lemma MarkKeepsIntegrity(db: Db, r: RegisterCommand)
    requires Integrity(db) && !Handled(db, r.transactionId)
    ensures Integrity(Marked(db, Register(r)))
  {
  }

  /** Every successful run keeps the schema's keys, the foreign key of the log rows, and a single
      count row that equals log rows minus compensating rows. */
  lemma ApplyKeepsIntegrity(db: Db, cmd: Command)
    requires Integrity(db)
    ensures Integrity(Apply(db, cmd))
  {
    if !Handled(db, cmd.Id()) {
      match cmd {
        case Register(r) =>
          if Compensated(db, cmd.Id()) {
            MarkKeepsIntegrity(db, r);
          } else {
            ExecuteKeepsIntegrity(db, r);
          }
        case Unregister(id, time, r) => UndoKeepsIntegrity(db, id, time, r);
      }
    }
  }

  /** Handling the same id again changes nothing, whatever the payload. */
  lemma ApplyIsIdempotent(db: Db, cmd: Command, again: Command)
    requires again.Id() == cmd.Id()
    ensures Apply(Apply(db, cmd), again) == Apply(db, cmd)
    ensures Handled(Apply(db, cmd), cmd.Id())
  {
  }

  lemma ApplyMovesOneAggregate(db: Db, cmd: Command, key: Key)
    ensures Value(Apply(db, cmd), key) == Value(db, key) + if key == KeyOf(cmd.register) then Delta(db, cmd) else 0
  {
  }

  lemma ApplyMarks(db: Db, cmd: Command)
    ensures Apply(db, cmd).processed.Keys == db.processed.Keys + {cmd.Id()}
    ensures forall id | id in db.processed :: Apply(db, cmd).processed[id] == db.processed[id]
    ensures forall t :: Compensated(db, t) ==> Compensated(Apply(db, cmd), t)
    ensures forall key :: Value(Apply(db, cmd), key)
                          == Value(db, key) + if key == KeyOf(cmd.register) then Delta(db, cmd) else 0
  {
    var after := Apply(db, cmd);
    assert after.processed == db.processed || after.processed == Marked(db, cmd).processed;
    forall t | Compensated(db, t)
      ensures Compensated(after, t)
    {
      var u :| u in db.processed && db.processed[u] == Some(t);
      assert after.processed[u] == Some(t);
    }
    forall key
      ensures Value(after, key) == Value(db, key) + if key == KeyOf(cmd.register) then Delta(db, cmd) else 0
    {
      ApplyMovesOneAggregate(db, cmd, key);
    }
  }
}
