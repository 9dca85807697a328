/** What intake promises about a statement, in every world an honest run
    reaches: exactly once if its claim was sent, not at all if it was cleaned. */
module IntakeTheorems {
  import opened LtHash
  import opened Ledger
  import opened Options
  import opened PartSums
  import opened Partition
  import opened Publication
  import opened Books
  import opened ReadSurface
  import opened Intake
  import opened IntakeProof
  import opened IntakeSteps
  import opened IntakeWrites

  /** The name is one PromotedUnsafeParts lists for the table. */
  ghost predicate Excluded(w: World, table: string, name: string) {
    exists k: PartitionKey :: k.table == table && name in At(w, k).led.promotedUnsafe
  }

  /** What a reader of the table sees in one partition: hg_safe, and hg_unsafe
      without the part names the exclusion lists. */
  ghost function Surface(w: World, k: PartitionKey): multiset<Row> {
    var c := At(w, k);
    RowsOf(c.safe, c.written) + RowsOf((set n | n in c.unsafe && !Excluded(w, k.table, n)), c.written)
  }

  /** The part of a statement's claim that holds row `r`. */
  ghost predicate HeldBy(w: World, st: string, r: Row, p: PartAt) {
    Claimed(w, st) && w.journal[st].result.Some? && p in w.journal[st].result.value && p in w.rows && w.rows[p][r] == 1
  }

  /** Each derived row id of a claimed statement is in exactly one part of the
      claim, once, and in no other part that was not discarded. */
  lemma ClaimedExactlyOnce(w: World, st: string, r: Row) returns (p: PartAt)
    requires WorldOk(w) && Claimed(w, st) && r in IdsOf(w, st)
    ensures HeldBy(w, st, r, p)
    ensures forall q :: q in w.rows && r in w.rows[q] && q.name !in At(w, q.at).discarded ==> q == p
  {
    hide CellsOk, NamedOk, LockOk, HistoryAgrees, NamesUnique, RowsOf, At;
    assert StatementOk(w, st);
    var parts := w.journal[st].result.value;
    assert r in RowsOf(parts, w.rows);
    RowsOfMember(parts, w.rows, r);
    p :| p in parts && r in Content(w.rows, p);
    RowsOfPick(parts, w.rows, p);
    assert multiset(IdsOf(w, st))[r] == 1;
    forall q | q in w.rows && r in w.rows[q] && q.name !in At(w, q.at).discarded ensures q == p {
      assert q in Kept(w, st);
      if q != p { OnceIsApart(w, parts, st, p, q); }
    }
  }

  /** A statement that was never prepared, or was cleaned, has no row in any
      part that was not discarded. */
  lemma CleanedLeavesNothing(w: World, st: string, p: PartAt, r: Row)
    requires WorldOk(w) && (st in w.journal ==> w.journal[st].lifecycle.Cleaned?)
    requires p in w.rows && p.name !in At(w, p.at).discarded && r in w.rows[p]
    ensures r.statement != st
  {
    hide CellsOk, NamedOk, LockOk, HistoryAgrees, NamesUnique;
    assert StatementOk(w, st) && p !in Kept(w, st);
  }

  // ---- the read surface -------------------------------------------------------------------

  /** A part is excluded only for its own promotion, though the exclusion is by
      name over the whole table. */
  lemma ExclusionIsOwn(w: World, k: PartitionKey, n: string)
    requires WorldOk(w) && n in At(w, k).unsafe
    ensures Excluded(w, k.table, n) <==> n in At(w, k).led.promotedUnsafe
  {
    hide CellsOk, NamedOk, LockOk, StatementOk, HistoryAgrees, RowsOwned;
    if Excluded(w, k.table, n) {
      var k': PartitionKey :| k'.table == k.table && n in At(w, k').led.promotedUnsafe;
      PromotedIsWritten(w, k', n);
      UnsafeIsWritten(w, k, n);
      WrittenIsInHistory(w, k', n);
      WrittenIsInHistory(w, k, n);
      assert PartAt(k, n) == PartAt(k', n);
    }
  }

  lemma PromotedIsWritten(w: World, k: PartitionKey, n: string)
    requires CellsOk(w) && n in At(w, k).led.promotedUnsafe
    ensures n in At(w, k).written
  {
    hide Publishable, Balanced, DutiesHeld, PartsHaveRows, Marked, Promising;
    assert Sound(At(w, k));
  }

  lemma UnsafeIsWritten(w: World, k: PartitionKey, n: string)
    requires CellsOk(w) && n in At(w, k).unsafe
    ensures n in At(w, k).written
  {
    hide Publishable, Balanced, DutiesHeld, PartsHaveRows, Marked, Promising;
    assert Sound(At(w, k));
  }

  /** Parts of a partition that were promoted or not discarded. */
  ghost function Shown(c: Cell): set<string> {
    c.applied + (c.written.Keys - c.discarded)
  }

  /** Between promotions the surface holds every part that was promoted or not
      discarded. */
  lemma SurfaceIsShown(w: World, k: PartitionKey)
    requires WorldOk(w) && At(w, k).led.intent.None?
    ensures Surface(w, k) == RowsOf(Shown(At(w, k)), At(w, k).written)
  {
    hide Sound, WorldOk, RowsOf, Excluded;
    var c := At(w, k);
    forall n | n in c.unsafe ensures Excluded(w, k.table, n) <==> n in c.led.promotedUnsafe { ExclusionIsOwn(w, k, n); }
    assert (set n | n in c.unsafe && !Excluded(w, k.table, n)) == c.unsafe - SetOf(c.led.promotedUnsafe);
    CellOk(w, k) by { WorldParts(w); }
    SurfaceIsExact(c);
  }

  lemma CellOk(w: World, k: PartitionKey)
    requires CellsOk(w)
    ensures Sound(At(w, k))
  {}

  lemma {:induction false} SomePartHasRow(s: set<string>, w: Contents, r: Row)
    ensures RowsOf(s, w)[r] == 0 <==> forall n :: n in s ==> r !in Content(w, n)
  {
    hide RowsOf;
    RowsOfMember(s, w, r);
  }

  lemma SameHolder(w: World, st: string, r: Row, p: PartAt, q: PartAt)
    requires WorldOk(w) && HeldBy(w, st, r, p) && HeldBy(w, st, r, q)
    ensures p == q
  {
    hide CellsOk, NamedOk, LockOk, HistoryAgrees, NamesUnique, RowsOf, IdsOf, At;
    assert StatementOk(w, st);
    if p != q { OnceIsApart(w, w.journal[st].result.value, st, p, q); }
  }

  ghost predicate InPart(w: World, k: PartitionKey, n: string, r: Row) {
    PartAt(k, n) in w.rows && r in w.rows[PartAt(k, n)]
  }

  /** Another part of the partition with the row was promoted although it was
      discarded: an earlier attempt at the statement, aborted all the same. */
  ghost predicate Echoed(w: World, r: Row, p: PartAt, k: PartitionKey) {
    exists n :: InPart(w, k, n, r) && PartAt(k, n) != p && n in At(w, k).applied * At(w, k).discarded
  }

  lemma ShownIsWritten(w: World, k: PartitionKey, n: string, r: Row)
    requires WorldOk(w) && n in Shown(At(w, k))
    ensures n in At(w, k).written && (InPart(w, k, n, r) <==> r in Content(At(w, k).written, n))
  {
    hide Publishable, Balanced, DutiesHeld, PartsHaveRows, Marked, Promising, NamedOk, LockOk, StatementOk, NamesUnique, RowsOwned;
    assert Sound(At(w, k));
    WrittenIsInHistory(w, k, n);
  }

  /** Between promotions a reader sees a row of a claimed statement once, in the
      partition of the part that holds it and nowhere else, if that part was
      promoted or not discarded as rejected, and not at all otherwise: exactly
      unless a promoted part of an aborted attempt echoes the row. */
  lemma ReadersSeeOnce(w: World, st: string, r: Row, p: PartAt, k: PartitionKey)
    requires WorldOk(w) && HeldBy(w, st, r, p) && r in IdsOf(w, st) && At(w, k).led.intent.None?
    ensures Surface(w, k)[r] == (if k == p.at && p.name in Shown(At(w, k)) then 1 else 0) <==> !Echoed(w, r, p, k)
  {
    hide Surface, WorldOk, RowsOf, IdsOf, At, InPart;
    var c := At(w, k);
    var own := if k == p.at && p.name in Shown(c) then {p.name} else {};
    var rest := Shown(c) - own;
    SurfaceIsShown(w, k);
    assert Shown(c) == own + rest;
    RowsOfUnion(own, rest, c.written);
    OwnRow(w, p, r, own);
    SomePartHasRow(rest, c.written, r);
    forall n | n in rest ensures r in Content(c.written, n) <==> InPart(w, k, n, r) && n in c.applied * c.discarded {
      ShownIsWritten(w, k, n, r);
      if InPart(w, k, n, r) { OthersAreDiscarded(w, st, r, p, k, n); }
    }
  }

  lemma OwnRow(w: World, p: PartAt, r: Row, own: set<string>)
    requires WorldOk(w) && p in w.rows && w.rows[p][r] == 1 && own <= {p.name}
    ensures RowsOf(own, At(w, p.at).written)[r] == |own|
  {
    hide CellsOk, NamedOk, LockOk, StatementOk, NamesUnique, RowsOwned, RowsOf, At;
    HistoryContent(w, p);
    RowsNone(At(w, p.at).written);
    if p.name in own {
      assert own == {p.name};
      RowsOfPick(own, At(w, p.at).written, p.name);
      assert own - {p.name} == {};
    } else {
      assert own == {};
    }
  }

  lemma OthersAreDiscarded(w: World, st: string, r: Row, p: PartAt, k: PartitionKey, n: string)
    requires WorldOk(w) && HeldBy(w, st, r, p) && r in IdsOf(w, st) && InPart(w, k, n, r) && PartAt(k, n) != p
    ensures n in At(w, k).discarded
  {
    hide WorldOk, IdsOf, At;
    var p' := ClaimedExactlyOnce(w, st, r);
    SameHolder(w, st, r, p, p');
  }

  /** Between promotions a reader sees a row of a cleaned statement, or of one
      without a record, exactly if a part with the row was promoted. */
  lemma ReadersSeeCleanedExactlyIfPromoted(w: World, st: string, r: Row, k: PartitionKey)
    requires WorldOk(w) && (st in w.journal ==> w.journal[st].lifecycle.Cleaned?)
    requires At(w, k).led.intent.None? && r.statement == st
    ensures Surface(w, k)[r] == 0 <==> forall n :: InPart(w, k, n, r) ==> n !in At(w, k).applied
  {
    hide Surface, WorldOk, RowsOf, At, InPart;
    var c := At(w, k);
    SurfaceIsShown(w, k);
    SomePartHasRow(Shown(c), c.written, r);
    forall n | n in Shown(c) ensures r in Content(c.written, n) <==> InPart(w, k, n, r) && n in c.applied {
      ShownIsWritten(w, k, n, r);
      if InPart(w, k, n, r) && n !in c.applied { CleanedPart(w, st, r, k, n); }
    }
  }

  lemma CleanedPart(w: World, st: string, r: Row, k: PartitionKey, n: string)
    requires WorldOk(w) && (st in w.journal ==> w.journal[st].lifecycle.Cleaned?) && r.statement == st && InPart(w, k, n, r)
    ensures n in At(w, k).discarded
  {
    hide WorldOk, At;
    if n !in At(w, k).discarded { CleanedLeavesNothing(w, st, PartAt(k, n), r); }
  }

  // ---- the lifecycle -------------------------------------------------------------------------

  lemma StepKeepsBound(w: World, s: IntakeStep, w': World, st: string)
    requires NextWorld(w, s, w') && st in w.journal && w.journal[st].lifecycle.RCBound?
    ensures st in w'.journal && w'.journal[st] == w.journal[st]
  {
    hide Next, At, RowsOf, IdsOf, Active;
  }

  /** Once a claim was accepted its record never changes, aborts and crashes
      included, and its parts hold each row id of the statement once in every
      later world. */
  lemma {:induction false} BoundStaysBound(ws: seq<World>, steps: seq<IntakeStep>, i: nat, j: nat, st: string)
    requires HonestHistory(ws, steps) && i <= j < |ws| && st in ws[i].journal && ws[i].journal[st].lifecycle.RCBound?
    ensures st in ws[j].journal && ws[j].journal[st] == ws[i].journal[st] && ws[i].journal[st].result.Some?
    ensures ExactlyOnce(ws[j], ws[i].journal[st].result.value, st)
    decreases j
  {
    hide WorldOk, NextWorld, HonestWorld, ExactlyOnce;
    if i < j {
      BoundStaysBound(ws, steps, i, j - 1, st);
      StepKeepsBound(ws[j - 1], steps[j - 1], ws[j], st);
    }
    EveryWorldOk(ws, steps, j);
    BoundOnce(ws[j], st);
  }

  lemma BoundOnce(w: World, st: string)
    requires WorldOk(w) && Claimed(w, st)
    ensures w.journal[st].result.Some? && ExactlyOnce(w, w.journal[st].result.value, st)
  {
    hide CellsOk, PartsOk, LockOk, NamedOk, At, Kept, ExactlyOnce;
    assert StatementOk(w, st);
  }

  ghost predicate Enabled(w: World, s: IntakeStep) {
    exists w' :: NextWorld(w, s, w')
  }

  /** Convergence always decides, and decides one way: the parts it attributes
      to an open statement are a complete write, an unfinished one, or neither. */
  lemma ConvergenceDecides(w: World, st: string)
    requires CanConverge(w, st) && st != ""
    ensures Enabled(w, ConvergeComplete(st)) || Enabled(w, ConvergePartial(st)) || Enabled(w, ConvergeFails(st))
    ensures !(Enabled(w, ConvergeComplete(st)) && Enabled(w, ConvergePartial(st)))
    ensures Enabled(w, ConvergeFails(st)) ==> !Enabled(w, ConvergeComplete(st)) && !Enabled(w, ConvergePartial(st))
  {
    hide PrepareNext, ResolveNext, RowsOf, At, IdsOf, Attributed, Active;
    var rec := w.journal[st];
    var parts := Attributed(w, rec);
    assert NextWorld(w, ConvergeFails(st), w.(journal := w.journal[st := rec.(convergeFailed := true)]))
        || NextWorld(w, ConvergeComplete(st), w.(pc := Assembling(st, parts)))
        || NextWorld(w, ConvergePartial(st),
             w.(journal := w.journal[st := rec.(lifecycle := AbortPending, abort := Some(set p | p in parts :: p.name))]));
  }

  lemma AbortDropMeans(w: World, st: string, p: PartAt, w': World)
    requires NextWorld(w, AbortDrop(st, p), w')
    ensures Aborting(w, st, p) && p.name in At(w, p.at).written
  {
    hide PrepareNext, ConvergeNext, At, Aborting;
  }

  /** Over every honest run, an abort drops only parts of its own statement,
      all of whose rows are in that statement's derived set. */
  lemma AbortsDropOnlyOwnRows(ws: seq<World>, steps: seq<IntakeStep>, i: nat)
    requires HonestHistory(ws, steps) && i < |steps| && steps[i].AbortDrop?
    ensures var p, st := steps[i].p, steps[i].statement;
      p in ws[i].rows && OwnedBy(ws[i], p, st) && Within(ws[i].rows[p], IdsOf(ws[i], st))
  {
    hide WorldOk, HonestWorld, At, NextWorld, PartsOk, Aborting;
    var w, p, st := ws[i], steps[i].p, steps[i].statement;
    EveryWorldOk(ws, steps, i);
    AbortDropMeans(w, st, p, ws[i + 1]);
    WorldParts(w);
    WrittenIsInHistory(w, p.at, p.name);
    assert PartAt(p.at, p.name) == p;
    AbortReaches(w, st, p);
  }
}
