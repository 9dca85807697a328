/** The purge gate: when a table may be forgotten, and exactly when an
    unaccepted cleanup keeps it from being. */
module PurgeGate {
  import opened LtHash
  import opened Ledger
  import opened Keys
  import opened StateStore
  import opened PartSums
  import opened Partition
  import opened Publication
  import opened Books
  import opened ReadSurface

  // ---- what took a part out of the accounting --------------------------------------

  ghost predicate Removed(c: Cell, n: string) {
    n in TakenBack(c.led.intakeParts)
  }

  /** The step is an abort's exclusion of the part, or a rejected-part cleanup
      that names it. */
  predicate Removes(s: Step, n: string) {
    s == Exclude(n) || (s.ExecuteCleanup? && s.cleanup.rejectedBlockSeq != 0 && n in Names(s.cleanup.parts))
  }

  lemma CleanupMarks(k: PartitionKey, c: Cell, s: Step, c': Cell, n: string)
    requires Sound(c) && Next(k, c, s, c') && Honest(c, s) && s.ExecuteCleanup?
    ensures Removed(c', n) <==> Removed(c, n) || Removes(s, n)
  {
    hide Next, Publishable, PartsHaveRows, Placed, Marked, SumBalanced, Promising, TakenBack;
    CleanupEffect(k, c, s.cleanup, s.node, c');
    assert n in Names(s.cleanup.parts) ==> n in SetOf(Names(s.cleanup.parts));
  }

  lemma AccountMarks(k: PartitionKey, c: Cell, s: Step, c': Cell, n: string)
    requires Next(k, c, s, c') && Honest(c, s) && (s.Record? || s.Exclude?)
    ensures Removed(c', n) <==> Removed(c, n) || Removes(s, n)
  {
    hide Builds, Answers, Cleans, PartHash, Add, Sub;
  }

  lemma OtherMarks(k: PartitionKey, c: Cell, s: Step, c': Cell, n: string)
    requires Sound(c) && Next(k, c, s, c') && !s.ExecuteCleanup? && !s.Record? && !s.Exclude?
    ensures c'.led.intakeParts == c.led.intakeParts
  {
    hide Sound, PartHash, Add, Sub, MappingsOk, Published, Post, SubtractAll, MergeNames, SameBooks;
    if WithinPromotion(s) || s.Refresh? {
      BooksKept(k, c, s, c');
    }
  }

  lemma BooksKept(k: PartitionKey, c: Cell, s: Step, c': Cell)
    requires Sound(c) && Next(k, c, s, c') && (WithinPromotion(s) || s.Refresh?)
    ensures c'.led.intakeParts == c.led.intakeParts && c'.led.owed == c.led.owed && c'.accepted == c.accepted
  {
    hide Next, Sound;
    PromotionKeepsBooks(k, c, s, c');
  }

  lemma StepMarks(k: PartitionKey, c: Cell, s: Step, c': Cell, n: string)
    requires Sound(c) && Next(k, c, s, c') && Honest(c, s)
    ensures Removed(c', n) <==> Removed(c, n) || Removes(s, n)
  {
    hide Sound, Next, Honest;
    if s.ExecuteCleanup? {
      CleanupMarks(k, c, s, c', n);
    } else if s.Record? || s.Exclude? {
      AccountMarks(k, c, s, c', n);
    } else {
      OtherMarks(k, c, s, c', n);
    }
  }

  ghost predicate TakenOut(steps: seq<Step>, n: string) {
    exists s :: s in steps && Removes(s, n)
  }

  /** A part's record is marked as removed exactly when an abort excluded it or
      a rejected-part cleanup that named it executed; it stays so. */
  lemma {:induction false} RemovedExactlyWhenTakenOut(k: PartitionKey, cells: seq<Cell>, steps: seq<Step>, i: nat, n: string)
    requires HonestRun(k, cells, steps) && i < |cells|
    ensures Removed(cells[i], n) <==> TakenOut(steps[..i], n)
  {
    hide Sound, Next, Honest, Removes;
    if i > 0 {
      RemovedExactlyWhenTakenOut(k, cells, steps, i - 1, n);
      EveryHonestRunSound(k, cells, steps, i - 1);
      StepMarks(k, cells[i - 1], steps[i - 1], cells[i], n);
      assert steps[..i] == steps[..i - 1] + [steps[i - 1]];
    }
  }

  // ---- what was executed ---------------------------------------------------------------

  predicate Executes(s: Step, id: CleanupId) {
    s.ExecuteCleanup? && id == CleanupId(s.cleanup.promotionSeq, s.cleanup.rejectedBlockSeq)
  }

  ghost predicate Executed(steps: seq<Step>, id: CleanupId) {
    exists s :: s in steps && Executes(s, id)
  }

  lemma CleanupOwes(k: PartitionKey, c: Cell, s: Step, c': Cell, id: CleanupId)
    requires Next(k, c, s, c') && id !in c'.accepted && (s.ExecuteCleanup? || s.Accept? || s.Clear?)
    ensures id !in c.accepted && (id in c'.led.owed <==> id in c.led.owed || Executes(s, id))
  {
    hide Builds, Answers, Intakes, RemoveRejected, Without, RejectedPartsOk;
    if s.ExecuteCleanup? {
      RemoveRejectedFrame(c.led, s.cleanup.parts);
    }
  }

  /** An acknowledgement stays owed until the arbiter accepted it. */
  lemma StepOwes(k: PartitionKey, c: Cell, s: Step, c': Cell, id: CleanupId)
    requires Sound(c) && Next(k, c, s, c') && id !in c'.accepted
    ensures id !in c.accepted && (id in c'.led.owed <==> id in c.led.owed || Executes(s, id))
  {
    hide Sound, Builds, PartHash, Add, Sub, MappingsOk, Published, Post, SubtractAll, MergeNames, SameBooks,
         RecordExecutedCleanup, ClearOwed;
    if WithinPromotion(s) || s.Refresh? {
      BooksKept(k, c, s, c');
    } else if s.ExecuteCleanup? || s.Accept? || s.Clear? {
      CleanupOwes(k, c, s, c', id);
    }
  }

  lemma {:induction false} OwedExactlyWhenExecuted(k: PartitionKey, cells: seq<Cell>, steps: seq<Step>, i: nat, id: CleanupId)
    requires HonestRun(k, cells, steps) && i < |cells| && id !in cells[i].accepted
    ensures id in cells[i].led.owed <==> Executed(steps[..i], id)
  {
    hide Sound, Next, Honest, Executes;
    if i > 0 {
      EveryHonestRunSound(k, cells, steps, i - 1);
      StepOwes(k, cells[i - 1], steps[i - 1], cells[i], id);
      OwedExactlyWhenExecuted(k, cells, steps, i - 1, id);
      assert steps[..i] == steps[..i - 1] + [steps[i - 1]];
    }
  }

  // ---- the gate --------------------------------------------------------------------------

  /** An unaccepted cleanup with parts. */
  ghost predicate OpenCleanup(c: Cell, id: CleanupId) {
    id in c.duties && id !in c.accepted && c.duties[id] != {}
  }

  /** The cleanup itself keeps the gate shut: its ack is owed, or one of its
      parts is excluded from reads or counted in the unpromoted sum. */
  ghost predicate HoldsGate(c: Cell, id: CleanupId)
    requires id in c.duties
  {
    id in c.led.owed || exists n :: n in c.duties[id] && (n in c.led.promotedUnsafe || n in Unpromoted(c))
  }

  /** Before the cleanup executed, none of its parts was excluded from reads and
      each was promoted, or an abort or another cleanup took it out. */
  ghost predicate Overtaken(steps: seq<Step>, c: Cell, id: CleanupId)
    requires id in c.duties
  {
    && !Executed(steps, id)
    && forall n :: n in c.duties[id] ==> n !in c.led.promotedUnsafe && (n in c.applied || TakenOut(steps, n))
  }

  /** An open cleanup holds the gate exactly when it was not overtaken. */
  lemma HoldsExactlyWhenNotOvertaken(k: PartitionKey, cells: seq<Cell>, steps: seq<Step>, i: nat, id: CleanupId)
    requires HonestRun(k, cells, steps) && i < |cells| && OpenCleanup(cells[i], id)
    ensures HoldsGate(cells[i], id) <==> !Overtaken(steps[..i], cells[i], id)
  {
    hide Sound, Next, Honest, TakenOut, Executed, Removed, LiveRecords;
    EveryHonestRunSound(k, cells, steps, i);
    OwedExactlyWhenExecuted(k, cells, steps, i, id);
    forall n | n in cells[i].duties[id] ensures n in Unpromoted(cells[i]) <==> n !in cells[i].applied && !TakenOut(steps[..i], n) {
      RemovedExactlyWhenTakenOut(k, cells, steps, i, n);
      DutyPart(cells[i], id, n);
    }
  }

  lemma DutyPart(c: Cell, id: CleanupId, n: string)
    requires Sound(c) && id in c.duties && n in c.duties[id]
    ensures n in Unpromoted(c) <==> n !in c.applied && !Removed(c, n)
  {
    hide Publishable, PartsHaveRows, Marked, Balanced, Promising, LiveRecords, TakenBack;
    RecordsAreKeys(c.led.intakeParts);
  }

  /** While the sum is conserved, what holds the gate shuts it. */
  lemma HolderShutsGate(c: Cell, id: CleanupId)
    requires Sound(c) && Conserved(c) && id in c.duties && HoldsGate(c, id)
    ensures !Quiescent(c.led)
  {
    hide Sound, Conserved, Quiescent, LiveRecords, RowsOf;
    QuiescentExactly(c);
  }

  /** While the sum is conserved, the cleanup of a promotion is not overtaken. */
  lemma PromotionCleanupHolds(c: Cell, id: CleanupId)
    requires Sound(c) && Conserved(c) && OpenCleanup(c, id) && id.rejectedBlockSeq == 0
    ensures HoldsGate(c, id)
  {
    hide Publishable, PartsHaveRows, Placed, Marked, Balanced, Promising, Conserved, LiveRecords, TakenBack;
    ConservedExactly(c);
    var n :| n in c.duties[id];
    if id !in c.led.owed {
      assert n in SetOf(c.led.promotedUnsafe) + TakenBack(c.led.intakeParts);
      assert n in TakenBack(c.led.intakeParts) ==> n in Overlap(c);
    }
  }

  /** From an applied promotion, or from the recording of a part that is
      rejected later, until the arbiter accepts the cleanup's acknowledgement,
      the table is not quiescent in any state of any run, wherever it crashed,
      unless the cleanup was overtaken or a promoted part was taken out. */
  lemma OpenCleanupShutsGate(k: PartitionKey, cells: seq<Cell>, steps: seq<Step>, i: nat, s: LocalState, id: CleanupId)
    requires HonestRun(k, cells, steps) && i < |cells| && OpenCleanup(cells[i], id)
    requires Plain(k) && EntryOf(s, k) == cells[i].led
    ensures TableQuiescent(s, k.table) ==> Overtaken(steps[..i], cells[i], id) || Crossed(cells, steps, i)
    ensures TableQuiescent(s, k.table) && id.rejectedBlockSeq == 0 ==> Crossed(cells, steps, i)
  {
    hide Sound, Conserved, Quiescent, EntryOf, Plain, Honest, HoldsGate, Overtaken, Crossed;
    var c := cells[i];
    EveryHonestRunSound(k, cells, steps, i);
    HoldsExactlyWhenNotOvertaken(k, cells, steps, i, id);
    ConservedExactlyUntilCrossed(k, cells, steps, i);
    if Conserved(c) {
      if id.rejectedBlockSeq == 0 { PromotionCleanupHolds(c, id); }
      if HoldsGate(c, id) { HolderShutsGate(c, id); }
    }
  }

  /** A recorded part that was neither promoted nor taken out shuts the gate,
      unless a promoted part was taken out. */
  lemma RecordedShutsGate(k: PartitionKey, cells: seq<Cell>, steps: seq<Step>, i: nat, s: LocalState, n: string)
    requires HonestRun(k, cells, steps) && i < |cells| && Plain(k) && EntryOf(s, k) == cells[i].led
    requires n in cells[i].led.intakeParts && n !in cells[i].applied && !TakenOut(steps[..i], n)
    ensures TableQuiescent(s, k.table) ==> Crossed(cells, steps, i)
  {
    hide Sound, Conserved, Quiescent, EntryOf, Plain, Honest, TakenOut, Crossed, RowsOf;
    EveryHonestRunSound(k, cells, steps, i);
    RemovedExactlyWhenTakenOut(k, cells, steps, i, n);
    ConservedExactlyUntilCrossed(k, cells, steps, i);
    QuiescentExactly(cells[i]);
    assert n in Unpromoted(cells[i]);
  }

  /** Nothing but this cleanup is left to do in the partition. */
  ghost predicate OnlyCleanup(c: Cell, id: CleanupId)
    requires id in c.duties
  {
    c.led.intent.None? && c.led.owed.Keys <= {id} && SetOf(c.led.promotedUnsafe) + Unpromoted(c) <= c.duties[id]
  }

  lemma FirstIsMember(names: seq<string>)
    ensures names == [] || names[0] in names
  {}

  /** The last open cleanup of a partition fails to hold it exactly when it was
      overtaken, while no promoted part was taken out; and one that was
      overtaken leaves the gate open exactly then. */
  lemma GateOpensExactlyWhenOvertaken(k: PartitionKey, cells: seq<Cell>, steps: seq<Step>, i: nat, id: CleanupId)
    requires HonestRun(k, cells, steps) && i < |cells| && OpenCleanup(cells[i], id) && OnlyCleanup(cells[i], id)
    ensures !Crossed(cells, steps, i) ==> (Quiescent(cells[i].led) <==> Overtaken(steps[..i], cells[i], id))
    ensures Overtaken(steps[..i], cells[i], id) ==> (Quiescent(cells[i].led) <==> !Crossed(cells, steps, i))
  {
    hide Sound, Conserved, Quiescent, Honest, Overtaken, LiveRecords, RowsOf, Crossed;
    var c := cells[i];
    EveryHonestRunSound(k, cells, steps, i);
    HoldsExactlyWhenNotOvertaken(k, cells, steps, i, id);
    ConservedExactlyUntilCrossed(k, cells, steps, i);
    QuiescentExactly(c);
    CrossedHolds(c);
    if HoldsGate(c, id) {
      if Conserved(c) { HolderShutsGate(c, id); }
    } else {
      forall n ensures n !in Unpromoted(c) && n !in c.led.promotedUnsafe {
        assert n in c.led.promotedUnsafe ==> n in SetOf(c.led.promotedUnsafe);
      }
      assert c.led.owed.Keys == {};
      FirstIsMember(c.led.promotedUnsafe);
    }
  }

  /** Where a promoted part was taken out and no other part is counted, the sum
      is not zero and the gate stays shut. */
  lemma CrossedHolds(c: Cell)
    requires Sound(c)
    ensures !Conserved(c) && Unpromoted(c) == {} ==> !Quiescent(c.led)
  {
    hide Publishable, Marked, Balanced, DutiesHeld, Promising, Conserved, Quiescent, RowsOf, OfRows, LiveRecords, TakenBack;
    ConservedExactly(c);
    QuiescentExactly(c);
    if n :| n in Overlap(c) {
      RootNonZero(Overlap(c), c.written, n);
      RowsNone(c.written);
      RootNone(c.written);
    }
  }

  /** Overtaking happens: the arbiter rejects the block of a part whose abort is
      under way, and the abort's exclusion opens the gate while the cleanup is
      unaccepted. */
  lemma AbortOvertakesCleanup(k: PartitionKey, part: string) returns (cells: seq<Cell>, steps: seq<Step>, id: CleanupId)
    requires part != ""
    ensures HonestRun(k, cells, steps) && |cells| == 6
    ensures OpenCleanup(cells[5], id) && Overtaken(steps, cells[5], id) && Quiescent(cells[5].led)
  {
    hide HonestRun, Next, Honest, OfRows, Add, Sub;
    id := CleanupId(0, 1);
    var rows := multiset{Row(k.table, "statement", 0)};
    var c1 := Fresh.(unsafe := {part}, written := map[part := rows]);
    var c2 := c1.(led := Counted(rows, part));
    var c3 := c2.(duties := map[id := {part}]);
    var c4 := c3.(unsafe := {}, discarded := {part});
    var c5 := c4.(led := Excluded(rows, part));
    WriteAndRecord(k, part, rows);
    RejectAndDiscard(k, c2, part, id);
    ExcludeDiscarded(k, c4, part, rows);
    cells, steps := [Fresh], [];
    NoSteps(k);
    HonestRunGrows(k, cells, steps, Write(part, rows), c1);
    cells, steps := cells + [c1], steps + [Write(part, rows)];
    HonestRunGrows(k, cells, steps, Record(part), c2);
    cells, steps := cells + [c2], steps + [Record(part)];
    HonestRunGrows(k, cells, steps, Reject(id, {part}), c3);
    cells, steps := cells + [c3], steps + [Reject(id, {part})];
    HonestRunGrows(k, cells, steps, Discard(part), c4);
    cells, steps := cells + [c4], steps + [Discard(part)];
    HonestRunGrows(k, cells, steps, Exclude(part), c5);
    cells, steps := cells + [c5], steps + [Exclude(part)];
    assert steps[4] in steps && Removes(steps[4], part);
    SubAdd(Zero, OfRows(rows));
  }

  ghost function Counted(rows: multiset<Row>, part: string): Entry {
    EmptyEntry.(unpromotedSum := Value(Add(Zero, OfRows(rows))), intakeParts := map[part := Value(OfRows(rows))])
  }

  ghost function Excluded(rows: multiset<Row>, part: string): Entry {
    EmptyEntry.(unpromotedSum := Value(Sub(Add(Zero, OfRows(rows)), OfRows(rows))), intakeParts := map[part := Unset])
  }

  lemma WriteAndRecord(k: PartitionKey, part: string, rows: multiset<Row>)
    requires part != "" && rows != multiset{}
    ensures var c1 := Fresh.(unsafe := {part}, written := map[part := rows]);
      && Next(k, Fresh, Write(part, rows), c1) && Honest(Fresh, Write(part, rows))
      && Next(k, c1, Record(part), c1.(led := Counted(rows, part))) && Honest(c1, Record(part))
  {
    hide Builds, Answers, Cleans, OfRows, Add, Sub;
  }

  lemma RejectAndDiscard(k: PartitionKey, c: Cell, part: string, id: CleanupId)
    requires id.rejectedBlockSeq != 0 && c.duties == map[] && c.discarded == {} && part in c.led.intakeParts && part in c.written
    requires c.unsafe == {part}
    ensures var c3 := c.(duties := map[id := {part}]);
      && Next(k, c, Reject(id, {part}), c3) && Honest(c, Reject(id, {part}))
      && Next(k, c3, Discard(part), c3.(unsafe := {}, discarded := {part})) && Honest(c3, Discard(part))
  {
    hide Builds, Answers;
  }

  lemma ExcludeDiscarded(k: PartitionKey, c: Cell, part: string, rows: multiset<Row>)
    requires c.led == Counted(rows, part) && c.discarded == {part} && c.unsafe == {} && c.written == map[part := rows]
    ensures Next(k, c, Exclude(part), c.(led := Excluded(rows, part))) && Honest(c, Exclude(part))
  {
    hide Builds, Answers, Cleans, OfRows, Add, Sub;
    assert map[part := Value(OfRows(rows))][part := Unset] == map[part := Unset];
  }

  /** An applied promotion of new candidates opens such a cleanup. */
  lemma AppliedOpensCleanup(k: PartitionKey, c: Cell, s: Step, c': Cell)
    requires Sound(c) && Next(k, c, s, c') && (s.Finish? || s.Recover?)
    ensures s.Finish? ==> c.pc.Replaced?
    ensures var cmd := if s.Finish? then c.pc.cmd else s.cmd;
      var id := CleanupId(cmd.promotionSeq, 0);
      && id in c'.duties && id !in c'.accepted && (cmd.candidates != [] ==> OpenCleanup(c', id))
  {
    hide Next, Publishable, PartsHaveRows, Placed, Marked, Balanced, Promising, Post, SubtractAll, MergeNames;
    FinishReady(k, c, s, c');
    var cmd := if s.Finish? then c.pc.cmd else s.cmd;
    if cmd.candidates != [] {
      assert Names(cmd.candidates)[0] in Names(cmd.candidates);
      assert Names(cmd.candidates)[0] in c'.duties[CleanupId(cmd.promotionSeq, 0)];
    }
  }
}
