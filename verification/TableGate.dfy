/** The whole purge gate of a table: its intake records and its ledger. */
module TableGate {
  import opened LtHash
  import opened Ledger
  import opened Options
  import opened Keys
  import opened StateStore
  import opened PartSums
  import opened Partition
  import opened Publication
  import opened Books
  import opened ReadSurface
  import opened PurgeGate
  import opened Intake
  import opened IntakeProof
  import opened IntakeSteps
  import opened IntakeWrites
  import opened IntakeProgress

  /** The store holds the ledger entries of the world. */
  ghost predicate Mirrors(s: LocalState, w: World) {
    forall k :: Plain(k) ==> EntryOf(s, k) == At(w, k).led
  }

  ghost predicate NoneUnfinished(w: World, table: string) {
    forall st :: st in w.journal && w.journal[st].table == table ==> w.journal[st].lifecycle in {RCBound, Cleaned}
  }

  /** tableQuiescent's answer: no unfinished record of the table, and its
      partitions' entries quiescent. */
  ghost predicate GateOpen(s: LocalState, w: World, table: string) {
    NoneUnfinished(w, table) && TableQuiescent(s, table)
  }

  /** A part that was kept, no record of whose table is unfinished, is recorded. */
  lemma KeptIsRecorded(w: World, k: PartitionKey, n: string)
    requires WorldOk(w) && NoneUnfinished(w, k.table) && n !in At(w, k).discarded && n in At(w, k).written
    ensures n in At(w, k).led.intakeParts
  {
    hide CellsOk, LockOk, NamedOk, NamesUnique, Recorded, IdsOf, RowsOf, At;
    var p := PartAt(k, n);
    assert InHistory(w.rows, k, n);
    assert StatementOk(w, w.owner[p]);
    assert p in Kept(w, w.owner[p]);
  }

  lemma RowsIncluded(a: set<string>, b: set<string>, w: Contents, n: string, r: Row)
    requires n in a && r in Content(w, n) && RowsOf(a, w) == RowsOf(b, w)
    ensures r in RowsOf(b, w)
  {
    hide RowsOf;
    RowsOfMember(a, w, r);
  }

  lemma OverlapIsServed(c: Cell, r: Row)
    requires r in RowsOf(Overlap(c), c.written)
    ensures r in RowsOf(c.applied, c.written)
  {
    hide RowsOf, TakenBack;
    RowsOfMember(Overlap(c), c.written, r);
    RowsOfMember(c.applied, c.written, r);
  }

  /** Once the gate answered that a table is quiescent, every row of a part that
      was not discarded is in hg_safe; and hg_unsafe holds nothing of the table,
      unless a promoted part was taken out of the accounting. */
  lemma OpenGateLosesNothing(s: LocalState, w: World, k: PartitionKey)
    requires WorldOk(w) && Mirrors(s, w) && Plain(k) && GateOpen(s, w, k.table)
    ensures var c := At(w, k);
      && c.led.intent.None? && c.led.owed == map[]
      && (forall n, r :: n in c.written.Keys - c.discarded && r in Content(c.written, n) ==> r in RowsOf(c.safe, c.written))
      && (Overlap(c) == {} ==> c.unsafe == {} && c.written.Keys == c.applied + c.discarded)
  {
    hide WorldOk, Sound, Quiescent, EntryOf, Plain, At, Recorded, RowsOf, Overlap, Conserved;
    var c := At(w, k);
    CellIsSound(w, k);
    assert Quiescent(EntryOf(s, k));
    QuiescentExactly(c);
    ConservedExactly(c);
    SurfaceIsExact(c);
    CellPlaced(c);
    forall n | n in c.written.Keys - c.discarded ensures n in c.applied || n in Unpromoted(c) {
      KeptIsRecorded(w, k, n);
      KeptInCell(c, n);
    }
    forall n, r | n in c.written.Keys - c.discarded && r in Content(c.written, n) ensures r in RowsOf(c.safe, c.written) {
      if n in c.applied {
        RowsIncluded(c.applied, c.safe, c.written, n, r);
      } else {
        RowsIncluded(Unpromoted(c), Overlap(c), c.written, n, r);
        OverlapIsServed(c, r);
      }
    }
  }

  lemma CellIsSound(w: World, k: PartitionKey)
    requires WorldOk(w)
    ensures Sound(At(w, k))
  {
    hide PartsOk, LockOk, NamedOk, StatementOk, Sound, At;
  }

  lemma CellPlaced(c: Cell)
    requires Sound(c)
    ensures c.written.Keys == c.unsafe + c.discarded + c.applied && c.discarded !! c.unsafe
    ensures c.led.promotedUnsafe == [] ==> c.unsafe !! c.applied
  {
    hide Publishable, PartsHaveRows, Marked, Balanced, DutiesHeld, Promising;
    forall n | n in c.unsafe && n in c.applied ensures n in c.led.promotedUnsafe {
      assert n in c.applied * c.unsafe;
    }
  }

  // ---- a cleanup overtaken by an abort --------------------------------------------------

  ghost function Rejected(c: Cell, id: CleanupId, n: string): Cell {
    c.(duties := c.duties[id := {n}])
  }

  ghost function Dropped(c: Cell, n: string): Cell {
    c.(unsafe := c.unsafe - {n}, discarded := c.discarded + {n})
  }

  ghost function TookBack(c: Cell, n: string): Cell {
    c.(led := c.led.(unpromotedSum := Value(Sub(Parse(c.led.unpromotedSum), PartHash(c.written, n))),
                     intakeParts := c.led.intakeParts[n := Unset]),
       discarded := c.discarded + {n})
  }

  lemma CanReject(k: PartitionKey, c: Cell, id: CleanupId, n: string)
    ensures Next(k, c, Reject(id, {n}), Rejected(c, id, n))
  {
    hide Builds, Answers, Intakes;
  }

  lemma CanDiscard(k: PartitionKey, c: Cell, n: string)
    requires n in c.written
    ensures Next(k, c, Discard(n), Dropped(c, n))
  {
    hide Builds, Answers, Cleans;
  }

  lemma CanExclude(k: PartitionKey, c: Cell, n: string)
    requires n !in c.unsafe && n in c.led.intakeParts && c.led.intakeParts[n] == Value(PartHash(c.written, n))
    ensures Next(k, c, Exclude(n), TookBack(c, n))
  {
    hide Builds, Answers, Cleans, PartHash, Sub;
  }

  /** The statement's claim is saved and names one part. */
  ghost predicate Written(w: World, st: string, p: PartAt) {
    && w.pc.Free? && st in w.journal && w.journal[st].table == p.at.table && w.journal[st].lifecycle.UnsafeWritten?
    && w.journal[st].result == Some({p}) && st != ""
  }

  ghost function Pending(w: World, st: string, n: string): World
    requires st in w.journal
  {
    w.(journal := w.journal[st := w.journal[st].(lifecycle := AbortPending, abort := Some({n}))])
  }

  ghost function Finished(w: World, st: string): World
    requires st in w.journal
  {
    w.(journal := w.journal[st := w.journal[st].(lifecycle := Intake.Cleaned)])
  }

  lemma CanRejectAt(w: World, p: PartAt, id: CleanupId)
    requires id.rejectedBlockSeq != 0 && id !in At(w, p.at).duties && p.name in At(w, p.at).led.intakeParts
    ensures HonestNext(w, AtPartition(p.at, Reject(id, {p.name})), Move(w, p.at, Rejected(At(w, p.at), id, p.name)))
  {
    hide PrepareNext, ConvergeNext, ResolveNext, Next, At;
    CanReject(p.at, At(w, p.at), id, p.name);
  }

  lemma CanAbort(w: World, st: string, p: PartAt)
    requires Written(w, st, p)
    ensures HonestNext(w, Abort(st, {p.name}), Pending(w, st, p.name))
  {
    hide PrepareNext, ConvergeNext, Next, At, Active;
    assert (set q | q in {p} :: q.name) == {p.name};
  }

  lemma CanAbortDrop(w: World, st: string, p: PartAt)
    requires Aborting(w, st, p) && p.name in At(w, p.at).written
    ensures HonestNext(w, AbortDrop(st, p), Move(w, p.at, Dropped(At(w, p.at), p.name)))
  {
    hide PrepareNext, ConvergeNext, Next, At, Active;
    CanDiscard(p.at, At(w, p.at), p.name);
  }

  lemma CanAbortExclude(w: World, st: string, p: PartAt)
    requires Aborting(w, st, p) && w.journal[st].result == Some({p})
    requires var c := At(w, p.at);
      p.name !in c.unsafe && p.name in c.led.intakeParts && c.led.intakeParts[p.name] == Value(PartHash(c.written, p.name))
    ensures HonestNext(w, AbortExclude(st, p), Move(w, p.at, TookBack(At(w, p.at), p.name)))
  {
    hide PrepareNext, ConvergeNext, Next, At, Active, PartHash;
    CanExclude(p.at, At(w, p.at), p.name);
  }

  lemma CanClean(w: World, st: string, p: PartAt)
    requires Aborting(w, st, p) && w.journal[st].result == Some({p}) && w.journal[st].abort == Some({p.name}) && st != ""
    requires p.name in At(w, p.at).led.intakeParts && At(w, p.at).led.intakeParts[p.name] == Unset
    requires forall q :: q in Active(w, p.at.table) ==> q.name != p.name
    ensures HonestNext(w, SaveCleaned(st), Finished(w, st))
  {
    hide PrepareNext, ConvergeNext, Next, At, Active;
  }

  ghost predicate HasRecord(c: Cell, n: string) {
    n in c.written && n in c.led.intakeParts && c.led.intakeParts[n] == Value(PartHash(c.written, n))
  }

  /** No other part of the table has the name. */
  ghost predicate Alone(w: World, p: PartAt) {
    forall q :: q in w.rows && q.at.table == p.at.table && q.name == p.name ==> q == p
  }

  /** The statement was written as one part, which is counted. */
  ghost predicate Abortable(w: World, st: string, p: PartAt) {
    Written(w, st, p) && HasRecord(At(w, p.at), p.name) && Alone(w, p)
  }

  ghost function Overtaking(c: Cell, id: CleanupId, n: string): Cell {
    TookBack(Dropped(Rejected(c, id, n), n), n)
  }

  /** The world after the block was rejected and the statement aborted. */
  ghost function Aborted(w: World, st: string, p: PartAt, id: CleanupId): World
    requires st in w.journal
  {
    Finished(Pending(w, st, p.name), st).(cells := w.cells[p.at := Overtaking(At(w, p.at), id, p.name)])
  }

  /** The part is still to be dropped and taken back by the statement's abort. */
  ghost predicate Unfinished(w: World, st: string, p: PartAt) {
    && Aborting(w, st, p) && st != "" && w.journal[st].result == Some({p}) && w.journal[st].abort == Some({p.name})
    && HasRecord(At(w, p.at), p.name) && Alone(w, p)
  }

  lemma AbortFinishes(a: World, n: nat, w: World, st: string, p: PartAt)
    requires WorldPath(a, w, n) && Unfinished(w, st, p)
    ensures WorldPath(a, Finished(w, st).(cells := w.cells[p.at := TookBack(Dropped(At(w, p.at), p.name), p.name)]), n + 3)
  {
    hide HonestNext, WorldPath, Active, PartHash, Sub;
    var name := p.name;
    var w1 := Move(w, p.at, Dropped(At(w, p.at), name));
    var w2 := Move(w1, p.at, TookBack(At(w1, p.at), name));
    CanAbortDrop(w, st, p);
    WorldGoes(a, w, n, AbortDrop(st, p), w1);
    CanAbortExclude(w1, st, p);
    WorldGoes(a, w1, n + 1, AbortExclude(st, p), w2);
    NoneActive(w2, p);
    CanClean(w2, st, p);
    WorldGoes(a, w2, n + 2, SaveCleaned(st), Finished(w2, st));
    assert Finished(w2, st) == Finished(w, st).(cells := w.cells[p.at := TookBack(Dropped(At(w, p.at), name), name)]);
  }

  /** While a claim's outcome is unknown the arbiter may hold the claim: its
      block can be rejected, and the statement aborted, in five honest steps. */
  lemma AbortAfterReject(a: World, n: nat, w: World, st: string, p: PartAt, id: CleanupId)
    requires WorldPath(a, w, n) && Abortable(w, st, p)
    requires id.rejectedBlockSeq != 0 && id !in At(w, p.at).duties
    ensures WorldPath(a, Aborted(w, st, p, id), n + 5)
  {
    hide HonestNext, WorldPath, Active, PartHash, Dropped, TookBack;
    var w1 := Move(w, p.at, Rejected(At(w, p.at), id, p.name));
    var w2 := Pending(w1, st, p.name);
    CanRejectAt(w, p, id);
    WorldGoes(a, w, n, AtPartition(p.at, Reject(id, {p.name})), w1);
    CanAbort(w1, st, p);
    WorldGoes(a, w1, n + 1, Abort(st, {p.name}), w2);
    AbortFinishes(a, n + 2, w2, st, p);
    assert Finished(w2, st).(cells := w2.cells[p.at := TookBack(Dropped(At(w2, p.at), p.name), p.name)]) == Aborted(w, st, p, id);
  }

  lemma NoneActive(w: World, p: PartAt)
    requires p.name !in At(w, p.at).unsafe && Alone(w, p)
    ensures forall q :: q in Active(w, p.at.table) ==> q.name != p.name
  {}

  /** The whole gate opens over an unaccepted cleanup: the abort took the
      cleanup's part out of the sum and its record is Cleaned. */
  lemma OvertakenOpensGate(st: string, p: PartAt, id: CleanupId) returns (w: World)
    requires st != "" && p.name != "" && id.rejectedBlockSeq != 0
    ensures WorldPath(EmptyWorld, w, 10)
    ensures OpenCleanup(At(w, p.at), id) && NoneUnfinished(w, p.at.table) && forall k :: Quiescent(At(w, k).led)
  {
    hide WorldPath, WorldOk, Saved, Aborted, Abortable, Quiescent, At, OpenCleanup, NoneUnfinished, Writable;
    var touched := {p.at.partition};
    FirstIsWritable(st, p);
    var written := StatementCompletes(EmptyWorld, st, p, touched, 1);
    FirstIsAbortable(st, p, touched, 1);
    AbortAfterReject(EmptyWorld, 5, written, st, p, id);
    w := Aborted(written, st, p, id);
    AbortedIsQuiet(st, p, touched, 1, id);
  }

  lemma FirstIsWritable(st: string, p: PartAt)
    requires st != "" && p.name != ""
    ensures Writable(EmptyWorld, st, p)
  {
    hide WorldOk;
    EmptyWorldOk();
  }

  lemma FirstIsAbortable(st: string, p: PartAt, touched: set<string>, count: nat)
    requires st != ""
    ensures var w := Saved(EmptyWorld, st, p, touched, count);
      Abortable(w, st, p) && At(w, p.at).duties == map[]
  {
    hide Active, PartHash, Add, Derived;
  }

  lemma AbortedIsQuiet(st: string, p: PartAt, touched: set<string>, count: nat, id: CleanupId)
    ensures var w := Aborted(Saved(EmptyWorld, st, p, touched, count), st, p, id);
      OpenCleanup(At(w, p.at), id) && NoneUnfinished(w, p.at.table) && forall k :: Quiescent(At(w, k).led)
  {
    hide Active, PartHash, Add, Sub, Derived;
    SubAdd(Zero, PartHash(At(Saved(EmptyWorld, st, p, touched, count), p.at).written, p.name));
  }
}
