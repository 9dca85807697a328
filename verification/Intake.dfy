/** Statement intake over all partitions: the per-statement journal, the one
    intake operation that holds the intake lock, and the partitions it writes
    to. The operation may fail at any point, and a crash loses it and every
    promotion handler; both keep the journal and the partitions. */
module Intake {
  import opened LtHash
  import opened Ledger
  import opened Options
  import opened PartSums
  import opened Partition

  datatype PartAt = PartAt(at: PartitionKey, name: string)

  datatype Lifecycle = Preparing | UnsafeWritten | RCBound | AbortPending | Cleaned

  datatype IntakeRecord = IntakeRecord(
    lifecycle: Lifecycle,
    table: string,
    touched: set<string>,            // partitions the rows fall into
    preWrite: set<PartAt>,           // parts of those partitions before the write
    expectedRows: nat,
    result: Option<set<PartAt>>,     // the candidate parts of the result claim
    abort: Option<set<string>>,      // the part names an abort drops
    convergeFailed: bool)

  /** The operation that holds the intake lock between durable writes. */
  datatype IntakePc =
    | Free
    | Writing(statement: string, before: set<PartAt>)
    | Assembling(statement: string, parts: set<PartAt>)

  datatype World = World(
    cells: map<PartitionKey, Cell>,
    journal: map<string, IntakeRecord>,
    pc: IntakePc,
    rows: map<PartAt, multiset<Row>>,    // history: every part ever inserted
    owner: map<PartAt, string>)          // history: the statement it was inserted for

  function At(w: World, k: PartitionKey): Cell {
    if k in w.cells then w.cells[k] else Fresh
  }

  predicate ValidTransition(from: Lifecycle, to: Lifecycle) {
    || from == to
    || (from == Preparing && to in {UnsafeWritten, AbortPending})
    || (from == UnsafeWritten && to in {RCBound, AbortPending})
    || (from == AbortPending && to == Cleaned)
    || (from == Cleaned && to == Preparing)
  }

  predicate ValidRecord(rec: IntakeRecord) {
    match rec.lifecycle
    case Preparing => true
    case UnsafeWritten | RCBound => rec.result.Some?
    case AbortPending | Cleaned => rec.abort.Some?
  }

  /** intakeJournal.save accepts `rec` as the next record of `statement`. */
  predicate Saves(journal: map<string, IntakeRecord>, statement: string, rec: IntakeRecord) {
    && statement != "" && ValidRecord(rec)
    && if statement in journal then ValidTransition(journal[statement].lifecycle, rec.lifecycle)
       else rec.lifecycle == Preparing
  }

  /** The derived row ids of a statement. */
  function Derived(table: string, statement: string, count: nat): set<Row> {
    set i | 0 <= i < count :: Row(table, statement, i)
  }

  ghost predicate Within(rows: multiset<Row>, ids: set<Row>) {
    forall r :: r in rows ==> r in ids
  }

  /** Parts of a table that are in hg_unsafe now. */
  ghost function Active(w: World, table: string): set<PartAt> {
    set p | p in w.rows && p.at.table == table && p.name in At(w, p.at).unsafe
  }

  /** The parts convergence attributes to a Preparing record. */
  ghost function Attributed(w: World, rec: IntakeRecord): set<PartAt> {
    set p | p in Active(w, rec.table) && p.at.partition in rec.touched && p !in rec.preWrite
  }

  ghost function IdsOf(w: World, statement: string): set<Row> {
    if statement in w.journal then Derived(w.journal[statement].table, statement, w.journal[statement].expectedRows) else {}
  }

  // ---- steps ------------------------------------------------------------

  datatype IntakeStep =
    | AtPartition(at: PartitionKey, step: Step)
    | Crash
    | Fail
    | Prepare(statement: string, table: string, touched: set<string>, count: nat)
    | Insert(p: PartAt, inserted: multiset<Row>)
    | InsertReturned
    | Account(p: PartAt)
    | SaveWritten
    | ConvergeFails(statement: string)
    | ConvergeComplete(statement: string)
    | ConvergePartial(statement: string)
    | Bind(statement: string)
    | Abort(statement: string, names: set<string>)
    | AbortDrop(statement: string, p: PartAt)
    | AbortExclude(statement: string, p: PartAt)
    | SaveCleaned(statement: string)

  ghost function Move(w: World, k: PartitionKey, c: Cell): World {
    w.(cells := w.cells[k := c])
  }

  /** The statements of other actors on one partition. */
  predicate ByOthers(s: Step) {
    !s.Write? && !s.Record? && !s.Exclude?
  }

  ghost predicate CanConverge(w: World, statement: string) {
    w.pc.Free? && statement in w.journal && w.journal[statement].lifecycle.Preparing? && !w.journal[statement].convergeFailed
  }

  ghost predicate NoForeignRows(w: World, statement: string)
    requires statement in w.journal
  {
    forall p :: p in Attributed(w, w.journal[statement]) ==> Within(w.rows[p], IdsOf(w, statement))
  }

  /** Exactly once: the parts hold each derived row id, and nothing else, once. */
  ghost predicate ExactlyOnce(w: World, parts: set<PartAt>, statement: string) {
    RowsOf(parts, w.rows) == multiset(IdsOf(w, statement))
  }

  /** A prepare, from its record to the saved claim. */
  ghost predicate PrepareNext(w: World, s: IntakeStep, w': World) {
    match s
    case Prepare(st, table, touched, count) =>
      && w.pc.Free? && (st in w.journal ==> w.journal[st].lifecycle.Cleaned?)
      && var pre := set p | p in Active(w, table) && p.at.partition in touched;
      && var rec := IntakeRecord(Preparing, table, touched, pre, count, None, None, false);
      && Saves(w.journal, st, rec)
      && w' == w.(journal := w.journal[st := rec], pc := Writing(st, Active(w, table)))
    case Insert(p, inserted) =>
      && w.pc.Writing? && w.pc.statement in w.journal
      && var rec := w.journal[w.pc.statement];
      && p.at.table == rec.table && p.at.partition in rec.touched
      && Within(inserted, IdsOf(w, w.pc.statement))
      && (forall q :: q in w.rows && q.at.table == rec.table ==> q.name != p.name)
      && (exists c :: Next(p.at, At(w, p.at), Write(p.name, inserted), c)
                      && w' == Move(w, p.at, c).(rows := w.rows[p := inserted], owner := w.owner[p := w.pc.statement]))
    case InsertReturned =>
      && w.pc.Writing? && w.pc.statement in w.journal
      && var added := Active(w, w.journal[w.pc.statement].table) - w.pc.before;
      && (w.journal[w.pc.statement].expectedRows > 0 ==> added != {})
      && w' == w.(pc := Assembling(w.pc.statement, added))
    case Account(p) =>
      && w.pc.Assembling? && p in w.pc.parts
      && exists c :: Next(p.at, At(w, p.at), Record(p.name), c) && w' == Move(w, p.at, c)
    case SaveWritten =>
      && w.pc.Assembling? && w.pc.statement in w.journal
      && (forall p :: p in w.pc.parts ==> p.name in At(w, p.at).led.intakeParts)
      && var rec := w.journal[w.pc.statement].(lifecycle := UnsafeWritten, result := Some(w.pc.parts));
      && Saves(w.journal, w.pc.statement, rec)
      && w' == w.(journal := w.journal[w.pc.statement := rec], pc := Free)
    case _ => false
  }

  /** Convergence of a record left in Preparing. */
  ghost predicate ConvergeNext(w: World, s: IntakeStep, w': World) {
    match s
    case ConvergeFails(st) =>
      && CanConverge(w, st)
      && var found := RowsOf(Attributed(w, w.journal[st]), w.rows);
      && (|| !NoForeignRows(w, st)
          || |found| > w.journal[st].expectedRows
          || (|found| == w.journal[st].expectedRows > 0 && !ExactlyOnce(w, Attributed(w, w.journal[st]), st)))
      && w' == w.(journal := w.journal[st := w.journal[st].(convergeFailed := true)])
    case ConvergeComplete(st) =>
      && CanConverge(w, st) && NoForeignRows(w, st)
      && var parts := Attributed(w, w.journal[st]);
      && |RowsOf(parts, w.rows)| == w.journal[st].expectedRows > 0 && ExactlyOnce(w, parts, st)
      && w' == w.(pc := Assembling(st, parts))
    case ConvergePartial(st) =>
      && CanConverge(w, st) && NoForeignRows(w, st)
      && var parts := Attributed(w, w.journal[st]);
      && (|RowsOf(parts, w.rows)| < w.journal[st].expectedRows || |RowsOf(parts, w.rows)| == w.journal[st].expectedRows == 0)
      && var rec := w.journal[st].(lifecycle := AbortPending, abort := Some(set p | p in parts :: p.name));
      && Saves(w.journal, st, rec)
      && w' == w.(journal := w.journal[st := rec])
    case _ => false
  }

  /** A claim accepted, or a statement aborted. */
  ghost predicate ResolveNext(w: World, s: IntakeStep, w': World) {
    match s
    case Bind(st) =>
      && w.pc.Free? && st in w.journal && w.journal[st].lifecycle in {UnsafeWritten, RCBound}
      && w' == w.(journal := w.journal[st := w.journal[st].(lifecycle := RCBound)])
    case Abort(st, names) =>
      && w.pc.Free? && st in w.journal && w.journal[st].lifecycle in {UnsafeWritten, RCBound} && w.journal[st].result.Some?
      && names == (set p | p in w.journal[st].result.value :: p.name)
      && var rec := w.journal[st].(lifecycle := AbortPending, abort := Some(names));
      && Saves(w.journal, st, rec)
      && w' == w.(journal := w.journal[st := rec])
    case AbortDrop(st, p) =>
      && Aborting(w, st, p)
      && exists c :: Next(p.at, At(w, p.at), Discard(p.name), c) && w' == Move(w, p.at, c)
    case AbortExclude(st, p) =>
      && Aborting(w, st, p) && w.journal[st].result.Some? && p in w.journal[st].result.value
      && exists c :: Next(p.at, At(w, p.at), Exclude(p.name), c) && w' == Move(w, p.at, c)
    case SaveCleaned(st) =>
      && w.pc.Free? && st in w.journal && w.journal[st].lifecycle.AbortPending? && w.journal[st].abort.Some?
      && (forall p :: p in Active(w, w.journal[st].table) ==> p.name !in w.journal[st].abort.value)
      && (w.journal[st].result.Some? ==> forall p :: p in w.journal[st].result.value ==>
        p.name in At(w, p.at).led.intakeParts && At(w, p.at).led.intakeParts[p.name] == Unset)
      && var rec := w.journal[st].(lifecycle := Cleaned);
      && Saves(w.journal, st, rec)
      && w' == w.(journal := w.journal[st := rec])
    case _ => false
  }

  ghost predicate NextWorld(w: World, s: IntakeStep, w': World) {
    match s
    case AtPartition(k, step) =>
      && ByOthers(step)
      && exists c :: Next(k, At(w, k), step, c) && w' == Move(w, k, c)
    case Crash =>
      w' == w.(cells := map k | k in w.cells :: w.cells[k].(pc := Idle), pc := Free)
    case Fail =>
      w' == w.(pc := Free)
    case Prepare(_, _, _, _) | Insert(_, _) | InsertReturned | Account(_) | SaveWritten =>
      PrepareNext(w, s, w')
    case ConvergeFails(_) | ConvergeComplete(_) | ConvergePartial(_) =>
      ConvergeNext(w, s, w')
    case Bind(_) | Abort(_, _) | AbortDrop(_, _) | AbortExclude(_, _) | SaveCleaned(_) =>
      ResolveNext(w, s, w')
  }

  /** An abort reached part `p` of its table by name. */
  ghost predicate Aborting(w: World, statement: string, p: PartAt) {
    && w.pc.Free? && statement in w.journal
    && w.journal[statement].lifecycle.AbortPending? && w.journal[statement].abort.Some?
    && p.at.table == w.journal[statement].table && p.name in w.journal[statement].abort.value
  }
}
