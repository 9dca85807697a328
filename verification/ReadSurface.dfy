/** What the books of a partition say, in every state of every honest run: the
    source view and the read surface always, and the unpromoted sum exactly when
    no part was both promoted and taken back. */
module ReadSurface {
  import opened LtHash
  import opened Ledger
  import opened PartSums
  import opened Partition
  import opened Publication
  import opened Books

  // ---- the source view ----------------------------------------------------------------

  /** The source view of a partition is the root of the parts intake recorded
      and nothing took back: promotion moves parts inside it, and a part that
      leaves the unpromoted sum twice is still in the base. */
  lemma SourceViewIsRecorded(c: Cell)
    requires Sound(c)
    ensures Add(Parse(c.led.base), Parse(c.led.unpromotedSum)) == Root(Recorded(c), c.written)
  {
    hide Publishable, DutiesHeld, Promising, RowsOf, OfRows, Add;
    var w, twice, served := c.written, Overlap(c), c.applied * Recorded(c);
    var sum := Parse(c.led.unpromotedSum);
    RecordsAreKeys(c.led.intakeParts);
    assert c.applied == served + twice && served !! twice;
    RootUnion(served, twice, w);
    assert Recorded(c) == served + Unpromoted(c) && served !! Unpromoted(c);
    RootUnion(served, Unpromoted(c), w);
    AddAssociates(Root(served, w), Root(twice, w), sum);
    AddCommutes(Root(twice, w), sum);
  }

  lemma ApplyKeepsRecords(k: PartitionKey, c: Cell, s: Step, c': Cell)
    requires Next(k, c, s, c') && (s.Finish? || s.Recover?)
    ensures Recorded(c') == Recorded(c) && c'.written == c.written
  {
    hide Builds, Intakes, Cleans, MappingsOk, Published, Post, SubtractAll, MergeNames, LiveRecords;
  }

  /** An applied promotion leaves the source view as it was. */
  lemma ApplyKeepsSourceView(k: PartitionKey, c: Cell, s: Step, c': Cell)
    requires Sound(c) && Next(k, c, s, c') && (s.Finish? || s.Recover?)
    ensures Add(Parse(c'.led.base), Parse(c'.led.unpromotedSum)) == Add(Parse(c.led.base), Parse(c.led.unpromotedSum))
  {
    hide Sound, RowsOf, OfRows, Add, Parse, Next;
    ApplyKeepsSound(k, c, s, c');
    SourceViewIsRecorded(c);
    SourceViewIsRecorded(c');
    ApplyKeepsRecords(k, c, s, c');
  }

  // ---- the unpromoted sum ---------------------------------------------------------------

  /** The sum is the root of the recorded parts that are neither promoted nor
      taken back. */
  ghost predicate Conserved(c: Cell) {
    Parse(c.led.unpromotedSum) == Root(Unpromoted(c), c.written)
  }

  lemma RootNone(w: Contents)
    ensures Root({}, w) == Zero
  {}

  /** Conservation holds exactly while no part was both promoted and taken back. */
  lemma ConservedExactly(c: Cell)
    requires Sound(c)
    ensures Conserved(c) <==> Overlap(c) == {}
  {
    hide Publishable, DutiesHeld, Promising, RowsOf, OfRows, Add;
    var sum, twice := Parse(c.led.unpromotedSum), Root(Overlap(c), c.written);
    AddZero(sum);
    if n :| n in Overlap(c) {
      RootNonZero(Overlap(c), c.written, n);
      if Conserved(c) { CancelLeft(sum, twice, Zero); }
    } else {
      RootNone(c.written);
    }
  }

  /** The step takes a promoted part out of the accounting. */
  ghost predicate TakesPromoted(c: Cell, s: Step) {
    || (s.Exclude? && s.name in c.applied)
    || (s.ExecuteCleanup? && s.cleanup.rejectedBlockSeq != 0 && SetOf(Names(s.cleanup.parts)) * c.applied != {})
  }

  /** The step applies a promotion of a part that was taken out before. */
  ghost predicate PromotesTaken(c: Cell, s: Step) {
    || (s.Finish? && c.pc.Replaced? && SetOf(Names(c.pc.cmd.candidates)) * TakenBack(c.led.intakeParts) != {})
    || (s.Recover? && SetOf(Names(s.cmd.candidates)) * TakenBack(c.led.intakeParts) != {})
  }

  lemma ExcludeOverlap(k: PartitionKey, c: Cell, name: string, c': Cell)
    requires Sound(c) && Next(k, c, Exclude(name), c') && Honest(c, Exclude(name))
    ensures Overlap(c') == Overlap(c) + (c.applied * {name})
  {
    hide Builds, Answers, Cleans, Publishable, Promising, Balanced, DutiesHeld, PartHash, Sub;
  }

  lemma CleanupOverlap(k: PartitionKey, c: Cell, cleanup: Cleanup, node: string, c': Cell)
    requires Sound(c) && Next(k, c, ExecuteCleanup(cleanup, node), c') && Honest(c, ExecuteCleanup(cleanup, node))
    ensures Overlap(c') == if cleanup.rejectedBlockSeq == 0 then Overlap(c) else Overlap(c) + c.applied * SetOf(Names(cleanup.parts))
  {
    hide Next, Publishable, Promising, DutiesHeld, SumBalanced, TakenBack;
    CleanupEffect(k, c, cleanup, node, c');
  }

  lemma ApplyOverlap(k: PartitionKey, c: Cell, s: Step, c': Cell)
    requires Sound(c) && Next(k, c, s, c') && (s.Finish? || s.Recover?)
    ensures s.Finish? ==> c.pc.Replaced?
    ensures var cmd := if s.Finish? then c.pc.cmd else s.cmd;
      Overlap(c') == Overlap(c) + SetOf(Names(cmd.candidates)) * TakenBack(c.led.intakeParts)
  {
    hide Next, Sound, ReadyToApply, Post, SubtractAll, MergeNames, TakenBack;
    FinishReady(k, c, s, c');
  }

  lemma OtherOverlap(k: PartitionKey, c: Cell, s: Step, c': Cell)
    requires Sound(c) && Next(k, c, s, c') && !s.Exclude? && !s.ExecuteCleanup? && !s.Finish? && !s.Recover?
    ensures Overlap(c') == Overlap(c)
  {
    hide Sound, Builds, Answers, PartHash, Add, SameBooks;
    if WithinPromotion(s) || s.Refresh? {
      hide Next;
      PromotionKeepsBooks(k, c, s, c');
      SameOverlap(c, c');
    } else {
      RecordOverlap(k, c, s, c');
    }
  }

  lemma SameOverlap(c: Cell, c': Cell)
    requires SameBooks(c, c')
    ensures Overlap(c') == Overlap(c)
  {}

  lemma RecordOverlap(k: PartitionKey, c: Cell, s: Step, c': Cell)
    requires Next(k, c, s, c') && !s.Exclude? && !s.ExecuteCleanup? && !s.Finish? && !s.Recover? && !WithinPromotion(s) && !s.Refresh?
    ensures Overlap(c') == Overlap(c)
  {
    hide Builds, Answers, PartHash, Add;
  }

  /** A step breaks conservation exactly when it takes out a part that was
      promoted, or applies a promotion of a part that was taken out. */
  lemma BreaksExactly(k: PartitionKey, c: Cell, s: Step, c': Cell)
    requires Sound(c) && Conserved(c) && Next(k, c, s, c') && Honest(c, s)
    ensures Conserved(c') <==> !TakesPromoted(c, s) && !PromotesTaken(c, s)
  {
    hide Sound, Conserved, Next, Honest, Overlap, TakenBack;
    StepKeepsSound(k, c, s, c');
    ConservedExactly(c);
    ConservedExactly(c');
    match s
    case Exclude(name) =>
      ExcludeOverlap(k, c, name, c');
      assert name in c.applied ==> name in c.applied * {name};
    case ExecuteCleanup(cleanup, node) => CleanupOverlap(k, c, cleanup, node, c');
    case Finish(_) => ApplyOverlap(k, c, s, c');
    case Recover(_, _) => ApplyOverlap(k, c, s, c');
    case _ => OtherOverlap(k, c, s, c');
  }

  lemma OverlapGrows(k: PartitionKey, c: Cell, s: Step, c': Cell)
    requires Sound(c) && Next(k, c, s, c') && Honest(c, s)
    ensures Overlap(c) <= Overlap(c')
  {
    hide Sound, Next, Honest, Overlap, TakenBack;
    match s
    case Exclude(name) => ExcludeOverlap(k, c, name, c');
    case ExecuteCleanup(cleanup, node) => CleanupOverlap(k, c, cleanup, node, c');
    case Finish(_) => ApplyOverlap(k, c, s, c');
    case Recover(_, _) => ApplyOverlap(k, c, s, c');
    case _ => OtherOverlap(k, c, s, c');
  }

  /** Some step of the run crosses a promotion with an abort or a rejected-part
      cleanup of the same part. */
  ghost predicate Crossed(cells: seq<Cell>, steps: seq<Step>, n: nat)
    requires n <= |steps| < |cells|
  {
    exists j :: 0 <= j < n && (TakesPromoted(cells[j], steps[j]) || PromotesTaken(cells[j], steps[j]))
  }

  /** Over every honest run the sum is the root of the unpromoted parts in a
      state exactly when no step before it crossed, and then it was in every
      state before. */
  lemma {:induction false} ConservedExactlyUntilCrossed(k: PartitionKey, cells: seq<Cell>, steps: seq<Step>, i: nat)
    requires HonestRun(k, cells, steps) && i < |cells|
    ensures Conserved(cells[i]) <==> !Crossed(cells, steps, i)
  {
    hide Sound, Conserved, Next, Honest, Overlap, TakesPromoted, PromotesTaken;
    EveryHonestRunSound(k, cells, steps, i);
    ConservedExactly(cells[i]);
    if i == 0 {
      assert Overlap(Fresh) == {} by { FreshOverlap(); }
    } else {
      EveryHonestRunSound(k, cells, steps, i - 1);
      ConservedExactlyUntilCrossed(k, cells, steps, i - 1);
      ConservedExactly(cells[i - 1]);
      OverlapGrows(k, cells[i - 1], steps[i - 1], cells[i]);
      if Conserved(cells[i - 1]) { BreaksExactly(k, cells[i - 1], steps[i - 1], cells[i]); }
    }
  }

  lemma FreshOverlap()
    ensures Overlap(Fresh) == {}
  {}

  // ---- the read surface -------------------------------------------------------------------

  /** When no intent is pending, hg_safe plus hg_unsafe without the excluded
      names holds the rows of every part that was promoted or not discarded,
      each part once. */
  lemma SurfaceIsExact(c: Cell)
    requires Sound(c) && c.led.intent.None?
    ensures RowsOf(c.safe, c.written) + RowsOf(c.unsafe - SetOf(c.led.promotedUnsafe), c.written)
         == RowsOf(c.applied + (c.written.Keys - c.discarded), c.written)
    ensures RowsOf(c.safe, c.written) == RowsOf(c.applied, c.written)
  {
    hide RowsOf, HandlerOk, HistoryOk, Known, SumBalanced, DutiesHeld, Promising;
    var served := c.unsafe - SetOf(c.led.promotedUnsafe);
    OfRowsInjective(RowsOf(c.safe, c.written), RowsOf(c.applied, c.written));
    assert served == c.unsafe - c.applied;
    assert c.applied + served == c.applied + (c.written.Keys - c.discarded);
    RowsOfUnion(c.applied, served, c.written);
  }

  // ---- the purge gate ---------------------------------------------------------------------

  /** A partition is quiescent exactly when no intent is pending, every promoted
      part has left the exclusion, nothing is owed, and the unpromoted parts hold
      exactly the rows of the parts that left the sum twice: none, while the sum
      is conserved. */
  lemma QuiescentExactly(c: Cell)
    requires Sound(c)
    ensures Quiescent(c.led) <==>
      && c.led.intent.None? && c.led.promotedUnsafe == [] && c.led.owed == map[]
      && RowsOf(Unpromoted(c), c.written) == RowsOf(Overlap(c), c.written)
    ensures Conserved(c) ==> (RowsOf(Unpromoted(c), c.written) == RowsOf(Overlap(c), c.written) <==> Unpromoted(c) == {})
  {
    hide RowsOf, OfRows, Publishable, Promising, DutiesHeld, Add, LiveRecords, TakenBack;
    var w, sum := c.written, Parse(c.led.unpromotedSum);
    var live, twice := Unpromoted(c), Overlap(c);
    AddZero(Root(twice, w));
    AddCommutes(sum, Root(twice, w));
    if sum == Zero { OfRowsInjective(RowsOf(live, w), RowsOf(twice, w)); }
    if RowsOf(live, w) == RowsOf(twice, w) { CancelLeft(Root(twice, w), sum, Zero); }
    ConservedExactly(c);
    RecordsAreKeys(c.led.intakeParts);
    RowsNone(w);
    if n :| n in live { RootNonZero(live, w, n); RootNone(w); }
  }

  lemma RowsNone(w: Contents)
    ensures RowsOf({}, w) == multiset{}
  {}
}
