/** Intake is exactly-once: over every honest run a written statement has each
    of its row ids in exactly one part, a cleaned one has none, and an abort
    drops nothing of another statement. */
module IntakeProof {
  import opened LtHash
  import opened Ledger
  import opened PartSums
  import opened Partition
  import opened Books
  import opened Intake

  /** The parts inserted for a statement and never discarded. */
  ghost function Kept(w: World, st: string): set<PartAt> {
    set p | p in w.owner && OwnedBy(w, p, st) && p.name !in At(w, p.at).discarded
  }

  ghost predicate OwnedBy(w: World, p: PartAt, st: string) {
    p in w.owner && w.owner[p] == st
  }

  ghost predicate Accounted(w: World, p: PartAt) {
    p.name in Recorded(At(w, p.at))
  }

  /** The arbiter can know of the statement: its claim may have been sent. */
  ghost predicate Claimed(w: World, st: string) {
    st in w.journal && w.journal[st].lifecycle in {UnsafeWritten, RCBound}
  }

  ghost predicate Open(w: World, st: string) {
    st in w.journal && w.journal[st].lifecycle.Preparing?
  }

  /** Parts a promotion has named or published. */
  ghost function Named(c: Cell): set<string> {
    c.applied
    + (if c.pc.Idle? then {} else SetOf(Names(c.pc.cmd.candidates)))
    + (if c.led.intent.None? then {} else SetOf(c.led.intent.value.unsafeNames))
  }

  /** The arbiter may know of the part: it is not one of a record that is still
      being prepared, unless an abort took it back before. */
  ghost predicate MayBeClaimed(w: World, p: PartAt) {
    p in w.owner && (Open(w, w.owner[p]) ==> p.name in At(w, p.at).discarded)
  }

  /** What the actors around intake owe it beyond Honest: an INSERT that
      returned wrote each row once, and a promotion and a rejected-part drop name
      parts the arbiter may know of. */
  ghost predicate HonestWorld(w: World, s: IntakeStep) {
    match s
    case AtPartition(k, step) =>
      && Honest(At(w, k), step)
      && (step.Start? ==> forall n :: n in Names(step.cmd.candidates) ==> MayBeClaimed(w, PartAt(k, n)))
      && (step.Discard? ==> MayBeClaimed(w, PartAt(k, step.name)))
    case InsertReturned =>
      w.pc.Writing? && w.pc.statement in w.journal ==>
        ExactlyOnce(w, Active(w, w.journal[w.pc.statement].table) - w.pc.before, w.pc.statement)
    case _ => true
  }

  // ---- the invariant ------------------------------------------------------

  ghost predicate CellsOk(w: World) {
    forall k :: Sound(At(w, k))
  }

  /** The history agrees with the partitions. */
  ghost predicate HistoryAgrees(w: World) {
    && (forall p :: p in w.rows ==> p.name in At(w, p.at).written && At(w, p.at).written[p.name] == w.rows[p])
    && (forall k, n :: n in At(w, k).written ==> InHistory(w.rows, k, n))
  }

  ghost predicate InHistory(rows: map<PartAt, multiset<Row>>, k: PartitionKey, n: string) {
    PartAt(k, n) in rows
  }

  /** Part names are unique per table. */
  ghost predicate NamesUnique(rows: map<PartAt, multiset<Row>>) {
    forall p, q :: p in rows && q in rows && p.at.table == q.at.table && p.name == q.name ==> p == q
  }

  /** A part holds only rows of the statement it was inserted for. */
  ghost predicate RowsOwned(rows: map<PartAt, multiset<Row>>, owner: map<PartAt, string>) {
    && rows.Keys == owner.Keys
    && (forall p, r :: p in rows && r in rows[p] ==> r.statement == owner[p])
  }

  ghost predicate PartsOk(w: World) {
    HistoryAgrees(w) && NamesUnique(w.rows) && RowsOwned(w.rows, w.owner)
  }

  ghost predicate PreparingOk(w: World, st: string, rec: IntakeRecord) {
    && rec.result.None? && rec.preWrite <= w.rows.Keys
    && (forall p :: p in Kept(w, st) ==>
      && p.at.partition in rec.touched && p !in rec.preWrite
      && p.name in At(w, p.at).unsafe && Within(Content(w.rows, p), IdsOf(w, st)))
    && ((exists p :: p in Kept(w, st) && Accounted(w, p)) ==> ExactlyOnce(w, Kept(w, st), st))
  }

  ghost predicate WrittenOk(w: World, st: string, rec: IntakeRecord) {
    && rec.result.Some?
    && Kept(w, st) <= rec.result.value
    && (forall p :: p in rec.result.value ==>
      OwnedBy(w, p, st) && p in w.rows && p.at.table == rec.table && p.name in At(w, p.at).led.intakeParts)
    && ExactlyOnce(w, rec.result.value, st)
  }

  ghost predicate Inserted(w: World, table: string, name: string) {
    exists p :: p in w.rows && p.at.table == table && p.name == name
  }

  ghost predicate AbortingOk(w: World, st: string, rec: IntakeRecord) {
    && rec.abort.Some?
    && (forall n :: n in rec.abort.value ==> Inserted(w, rec.table, n))
    && (forall p :: p in Kept(w, st) ==> p.name in rec.abort.value)
    && (forall q :: q in w.rows && q.at.table == rec.table && q.name in rec.abort.value ==>
      OwnedBy(w, q, st) && Within(Content(w.rows, q), IdsOf(w, st)))
    && (rec.result.None? ==> forall p :: p in Kept(w, st) ==> !Accounted(w, p))
    && (rec.result.Some? ==> Kept(w, st) <= rec.result.value && forall p :: p in rec.result.value ==>
      OwnedBy(w, p, st) && p.name in At(w, p.at).led.intakeParts)
  }

  ghost predicate StatementOk(w: World, st: string) {
    if st !in w.journal then Kept(w, st) == {}
    else
      && var rec := w.journal[st];
      && (forall p :: p in Kept(w, st) ==> p.at.table == rec.table)
      && match rec.lifecycle
         case Preparing => PreparingOk(w, st, rec)
         case UnsafeWritten | RCBound => WrittenOk(w, st, rec)
         case AbortPending => AbortingOk(w, st, rec)
         case Cleaned => Kept(w, st) == {}
  }

  ghost predicate LockOk(w: World) {
    match w.pc
    case Free => true
    case Writing(st, before) =>
      && st in w.journal && w.journal[st].lifecycle.Preparing? && before <= w.rows.Keys
      && (forall p :: p in Kept(w, st) ==> !Accounted(w, p) && p !in before)
      && (forall p :: p in Active(w, w.journal[st].table) - before ==> OwnedBy(w, p, st))
    case Assembling(st, parts) =>
      && st in w.journal && w.journal[st].lifecycle.Preparing?
      && parts == Kept(w, st) && ExactlyOnce(w, parts, st)
  }

  ghost predicate NamedOk(w: World) {
    forall k, n :: n in Named(At(w, k)) ==> MayBeClaimed(w, PartAt(k, n))
  }

  ghost predicate WorldOk(w: World) {
    && CellsOk(w) && PartsOk(w) && LockOk(w) && NamedOk(w)
    && (forall st :: StatementOk(w, st))
  }

  // ---- frames ---------------------------------------------------------------

  /** History only grows, and a new part has a new name in its table. */
  ghost predicate Grows(w: World, w': World) {
    && w.rows.Keys == w.owner.Keys && w'.rows.Keys == w'.owner.Keys
    && (forall p :: p in w.rows ==> p in w'.rows && w'.rows[p] == w.rows[p] && w'.owner[p] == w.owner[p])
    && (forall q, p :: q in w'.rows && q !in w.rows && p in w.rows && p.at.table == q.at.table ==> p.name != q.name)
  }

  /** Nothing a statement depends on was taken away from it. */
  ghost predicate Untouched(w: World, w': World, st: string) {
    && Grows(w, w')
    && (st in w'.journal <==> st in w.journal) && (st in w.journal ==> w'.journal[st] == w.journal[st])
    && Kept(w', st) <= Kept(w, st)
    && (Open(w, st) ==> Kept(w', st) == Kept(w, st))
    && (forall p :: p in Kept(w, st) && p.name in At(w, p.at).unsafe && Open(w, st) ==>
      p.name in At(w', p.at).unsafe)
    && (forall p :: p in Kept(w, st) && Accounted(w', p) ==> Accounted(w, p))
    && (forall p :: OwnedBy(w, p, st) && p.name in At(w, p.at).led.intakeParts ==> p.name in At(w', p.at).led.intakeParts)
  }

  lemma ExactlyOnceFrame(w: World, w': World, parts: set<PartAt>, st: string)
    requires Grows(w, w') && parts <= w.rows.Keys && IdsOf(w', st) == IdsOf(w, st)
    ensures ExactlyOnce(w', parts, st) <==> ExactlyOnce(w, parts, st)
  {
    RowsOfFrame(parts, w.rows, w'.rows);
  }

  lemma UntouchedPreparing(w: World, w': World, st: string)
    requires Untouched(w, w', st) && Open(w, st) && PreparingOk(w, st, w.journal[st])
    ensures PreparingOk(w', st, w.journal[st])
  {
    hide RowsOf, Recorded, At, Kept, ExactlyOnce;
    KeptHasRows(w, st);
    ExactlyOnceFrame(w, w', Kept(w, st), st);
  }

  lemma KeptHasRows(w: World, st: string)
    requires w.rows.Keys == w.owner.Keys
    ensures Kept(w, st) <= w.rows.Keys
  {}

  lemma UntouchedWritten(w: World, w': World, st: string)
    requires Untouched(w, w', st) && st in w.journal && WrittenOk(w, st, w.journal[st])
    ensures WrittenOk(w', st, w.journal[st])
  {
    hide RowsOf, Recorded, At, Kept, ExactlyOnce;
    ExactlyOnceFrame(w, w', w.journal[st].result.value, st);
  }

  lemma UntouchedAborting(w: World, w': World, st: string)
    requires Untouched(w, w', st) && st in w.journal && AbortingOk(w, st, w.journal[st])
    ensures AbortingOk(w', st, w.journal[st])
  {
    hide Recorded, At, Kept;
    var rec := w.journal[st];
    KeptHasRows(w, st);
    forall q | q in w'.rows && q.at.table == rec.table && q.name in rec.abort.value ensures q in w.rows {
      assert Inserted(w, rec.table, q.name);
    }
    forall n | n in rec.abort.value ensures Inserted(w', rec.table, n) {
      assert Inserted(w, rec.table, n);
    }
  }

  lemma UntouchedStatement(w: World, w': World, st: string)
    requires StatementOk(w, st) && Untouched(w, w', st)
    ensures StatementOk(w', st)
  {
    hide PreparingOk, WrittenOk, AbortingOk, Kept, Grows, At;
    if st in w.journal {
      match w.journal[st].lifecycle
      case Preparing => UntouchedPreparing(w, w', st);
      case UnsafeWritten | RCBound => UntouchedWritten(w, w', st);
      case AbortPending => UntouchedAborting(w, w', st);
      case Cleaned =>
    }
  }
}
