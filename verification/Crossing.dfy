/** A promotion crossed by an abort: while the outcome of a claim is unknown the
    arbiter may hold the claim and promote the statement's part, and the
    statement may be aborted all the same. */
module Crossing {
  import opened LtHash
  import opened Ledger
  import opened PartSums
  import opened Partition
  import opened Books
  import opened ReadSurface
  import opened Progress
  import opened PurgeGate
  import opened Intake
  import opened IntakeProof
  import opened IntakeSteps
  import opened IntakeWrites
  import opened IntakeTheorems
  import opened IntakeProgress
  import opened TableGate

  // ---- a promotion on the node --------------------------------------------------------

  lemma StepLifts(a: World, n: nat, w: World, k: PartitionKey, s: Step, c: Cell)
    requires WorldPath(a, w, n) && Next(k, At(w, k), s, c) && Honest(At(w, k), s) && ByOthers(s) && !s.Discard?
    requires s.Start? ==> forall name :: name in Names(s.cmd.candidates) ==> MayBeClaimed(w, PartAt(k, name))
    ensures WorldPath(a, Move(w, k, c), n + 1) && At(Move(w, k, c), k) == c
  {
    hide WorldPath, PrepareNext, ConvergeNext, ResolveNext, Next, Honest, At;
    AtMove(w, k, c, Move(w, k, c));
    assert HonestNext(w, AtPartition(k, s), Move(w, k, c));
    WorldGoes(a, w, n, AtPartition(k, s), Move(w, k, c));
  }

  lemma StepLiftsAgain(a: World, n: nat, w: World, k: PartitionKey, c: Cell, s: Step, c': Cell)
    requires WorldPath(a, Move(w, k, c), n) && Next(k, c, s, c') && Honest(c, s) && ByOthers(s) && !s.Discard? && !s.Start?
    ensures WorldPath(a, Move(w, k, c'), n + 1)
  {
    hide WorldPath, NextWorld, HonestWorld, Next, Honest, At;
    AtMove(w, k, c, Move(w, k, c));
    StepLifts(a, n, Move(w, k, c), k, s, c');
    assert Move(Move(w, k, c), k, c') == Move(w, k, c');
  }

  /** The six steps of an honest promotion are steps of the node. */
  lemma PromotionLifts(a: World, n: nat, w: World, k: PartitionKey, cmd: Promotion)
    requires WorldPath(a, w, n) && Promotable(At(w, k), cmd) && NewContents(At(w, k), cmd)
    requires forall name :: name in Names(cmd.candidates) ==> MayBeClaimed(w, PartAt(k, name))
    ensures WorldPath(a, Move(w, k, Applied(At(w, k), cmd)), n + 6)
  {
    hide WorldPath, Promotable, NewContents, Next, Honest, At, Started, Chosen, Copied, Intended, Visible, Applied, MayBeClaimed, Whole,
         Move, NextWorld, HonestWorld;
    var c := At(w, k);
    PromotionSteps(k, c, cmd);
    StepLifts(a, n, w, k, Start(cmd), Started(c, cmd));
    StepLiftsAgain(a, n + 1, w, k, Started(c, cmd), ChoosePath, Chosen(c, cmd));
    StepLiftsAgain(a, n + 2, w, k, Chosen(c, cmd), CopyStep(c, cmd), Copied(c, cmd));
    StepLiftsAgain(a, n + 3, w, k, Copied(c, cmd), Journal([]), Intended(c, cmd));
    StepLiftsAgain(a, n + 4, w, k, Intended(c, cmd), Replace, Visible(c, cmd));
    StepLiftsAgain(a, n + 5, w, k, Visible(c, cmd), Finish(AckFor(cmd)), Applied(c, cmd));
  }

  // ---- the abort ------------------------------------------------------------------------

  /** The world after the statement was aborted. */
  ghost function AbortedWorld(w: World, st: string, p: PartAt): World
    requires st in w.journal
  {
    Finished(Pending(w, st, p.name), st).(cells := w.cells[p.at := TookBack(Dropped(At(w, p.at), p.name), p.name)])
  }

  /** Whatever was promoted, a statement written as one counted part can be
      aborted in four honest steps. */
  lemma AbortPath(a: World, n: nat, w: World, st: string, p: PartAt)
    requires WorldPath(a, w, n) && Abortable(w, st, p)
    ensures WorldPath(a, AbortedWorld(w, st, p), n + 4)
  {
    hide HonestNext, WorldPath, Active, PartHash, Dropped, TookBack;
    var w1 := Pending(w, st, p.name);
    CanAbort(w, st, p);
    WorldGoes(a, w, n, Abort(st, {p.name}), w1);
    AbortFinishes(a, n + 1, w1, st, p);
    assert Finished(w1, st).(cells := w1.cells[p.at := TookBack(Dropped(At(w1, p.at), p.name), p.name)]) == AbortedWorld(w, st, p);
  }

  /** Aborting a statement whose part was promoted leaves its record Cleaned, the
      part promoted and the unpromoted sum wrong: the part's hash left it twice. */
  lemma AbortAfterPromotion(w: World, st: string, p: PartAt)
    requires WorldOk(w) && Abortable(w, st, p) && p.name in At(w, p.at).applied
    ensures var w', c' := AbortedWorld(w, st, p), At(AbortedWorld(w, st, p), p.at);
      && WorldPath(w, w', 4) && WorldOk(w') && st in w'.journal && w'.journal[st].lifecycle.Cleaned?
      && p.name in Overlap(c') && !Conserved(c') && c'.safe == At(w, p.at).safe && c'.applied == At(w, p.at).applied
      && c'.led.intent == At(w, p.at).led.intent
  {
    hide WorldOk, WorldPath, Conserved, HasRecord, Alone, Sound;
    AbortPath(w, 0, w, st, p) by { StartPath(w); }
    WorldPathOk(w, AbortedWorld(w, st, p), 4);
    AbortOverlaps(w, st, p);
    CellIsSound(AbortedWorld(w, st, p), p.at);
    ConservedExactly(At(AbortedWorld(w, st, p), p.at));
  }

  lemma AbortOverlaps(w: World, st: string, p: PartAt)
    requires Abortable(w, st, p) && p.name in At(w, p.at).applied
    ensures var w', c' := AbortedWorld(w, st, p), At(AbortedWorld(w, st, p), p.at);
      && st in w'.journal && w'.journal[st].lifecycle.Cleaned? && p.name in Overlap(c')
      && c'.safe == At(w, p.at).safe && c'.applied == At(w, p.at).applied && c'.led.intent == At(w, p.at).led.intent
  {
    hide PartHash, Sub, Alone;
  }

  // ---- from an empty node -----------------------------------------------------------------

  /** The cell of the first part, written and counted. */
  ghost function FirstCell(st: string, p: PartAt, count: nat): Cell {
    WithRecord(WithPart(Fresh, p.name, Ids(st, p, count)), p.name)
  }

  ghost function FirstCommand(st: string, p: PartAt, count: nat): Promotion {
    Promotion(1, "", Unset, [PartRef(p.at, p.name, Value(PartHash(FirstCell(st, p, count).written, p.name)))])
  }

  lemma FirstSound(st: string, p: PartAt, count: nat)
    requires p.name != "" && count > 0
    ensures Sound(FirstCell(st, p, count))
  {
    hide Sound, Next, WithRecord;
    var rows := Ids(st, p, count);
    assert Row(p.at.table, st, 0) in rows;
    var c1 := WithPart(Fresh, p.name, rows);
    FreshSound();
    CanWrite(p.at, Fresh, p.name, rows);
    StepKeepsSound(p.at, Fresh, Write(p.name, rows), c1);
    CanRecord(p.at, c1, p.name);
    StepKeepsSound(p.at, c1, Record(p.name), FirstCell(st, p, count));
  }

  lemma FirstPromotable(st: string, p: PartAt, count: nat)
    requires p.name != "" && count > 0
    ensures var c, cmd := FirstCell(st, p, count), FirstCommand(st, p, count);
      Promotable(c, cmd) && NewContents(c, cmd)
  {
    hide Sound, PartHash, Add;
    FirstSound(st, p, count);
  }

  /** The node after its first statement was written and promoted. */
  ghost function FirstPromoted(st: string, p: PartAt): World {
    Move(Saved(EmptyWorld, st, p, {p.at.partition}, 1), p.at, Applied(FirstCell(st, p, 1), FirstCommand(st, p, 1)))
  }

  lemma AppliedKeeps(c: Cell, cmd: Promotion)
    ensures var c' := Applied(c, cmd);
      && c'.written == c.written && c'.led.intakeParts == c.led.intakeParts && c'.led.intent.None?
      && c'.applied == c.applied + SetOf(Names(cmd.candidates))
  {
    hide PartHash, Add, Post, SubtractAll, MergeNames, Root;
  }

  lemma FirstIs(st: string, p: PartAt)
    requires st != ""
    ensures var w, c := Saved(EmptyWorld, st, p, {p.at.partition}, 1), FirstCell(st, p, 1);
      && At(w, p.at) == c && w.owner == map[p := st] && !Open(w, st) && w.rows == map[p := Ids(st, p, 1)]
      && Written(w, st, p) && w.journal.Keys == {st}
      && c.written.Keys == {p.name} == c.led.intakeParts.Keys && HasRecord(c, p.name)
  {
    hide PartHash, Add, Active, Derived;
  }

  lemma FirstNames(st: string, p: PartAt)
    ensures Names(FirstCommand(st, p, 1).candidates) == [p.name]
  {}

  lemma PromotedIs(st: string, p: PartAt)
    requires st != ""
    ensures var w, c := FirstPromoted(st, p), At(FirstPromoted(st, p), p.at);
      && Abortable(w, st, p) && w.journal.Keys == {st} && w.rows == map[p := Ids(st, p, 1)]
      && c.led.intakeParts.Keys == {p.name} && p.name in c.applied && c.led.intent.None?
  {
    hide PartHash, Applied, FirstCell, FirstCommand, Saved, Ids;
    FirstIs(st, p);
    FirstNames(st, p);
    AppliedKeeps(FirstCell(st, p, 1), FirstCommand(st, p, 1));
  }

  lemma RowIsFirst(st: string, p: PartAt)
    ensures Row(p.at.table, st, 0) in Ids(st, p, 1)
  {}

  /** The statement was the node's only one, and its part the only one there. */
  lemma AbortLeavesNothing(w: World, st: string, p: PartAt)
    requires Abortable(w, st, p) && w.journal.Keys == {st} && At(w, p.at).led.intakeParts.Keys == {p.name}
    ensures NoneUnfinished(AbortedWorld(w, st, p), p.at.table) && Unpromoted(At(AbortedWorld(w, st, p), p.at)) == {}
    ensures AbortedWorld(w, st, p).rows == w.rows
  {
    hide PartHash, Sub, Alone;
  }

  /** Fifteen honest steps of an empty node end with a cleaned statement whose
      row readers still see, an unpromoted sum that is not conserved, and a purge
      gate that stays shut although nothing is left to do. */
  lemma PromotionCrossedByAbort(st: string, p: PartAt) returns (w: World)
    requires st != "" && p.name != ""
    ensures WorldPath(EmptyWorld, w, 15) && NoneUnfinished(w, p.at.table)
    ensures st in w.journal && w.journal[st].lifecycle.Cleaned? && Surface(w, p.at)[Row(p.at.table, st, 0)] > 0
    ensures Unpromoted(At(w, p.at)) == {} && !Conserved(At(w, p.at)) && !Quiescent(At(w, p.at).led)
  {
    hide WorldPath, WorldOk, Saved, Applied, Abortable, Quiescent, At, Conserved, FirstCell, FirstCommand, Promotable, NewContents, Writable,
         Surface, NoneUnfinished, AbortedWorld, Sound, Unpromoted, Overlap, Ids, NextWorld, HonestWorld;
    PromotedIs(st, p);
    w := AbortedWorld(FirstPromoted(st, p), st, p);
    FirstIsPromoted(st, p);
    AbortPath(EmptyWorld, 11, FirstPromoted(st, p), st, p);
    AbortAfterPromotion(FirstPromoted(st, p), st, p);
    AbortLeavesNothing(FirstPromoted(st, p), st, p);
    GateStaysShut(w, p.at);
    RowIsFirst(st, p);
    assert InPart(w, p.at, p.name, Row(p.at.table, st, 0));
    ReadersSeeCleanedExactlyIfPromoted(w, st, Row(p.at.table, st, 0), p.at);
  }

  lemma GateStaysShut(w: World, k: PartitionKey)
    requires WorldOk(w) && !Conserved(At(w, k)) && Unpromoted(At(w, k)) == {}
    ensures !Quiescent(At(w, k).led)
  {
    hide WorldOk, Sound, At, Quiescent, Conserved;
    CellIsSound(w, k);
    CrossedHolds(At(w, k));
  }

  lemma FirstIsPromoted(st: string, p: PartAt)
    requires st != "" && p.name != ""
    ensures WorldPath(EmptyWorld, FirstPromoted(st, p), 11) && WorldOk(FirstPromoted(st, p))
  {
    hide WorldPath, WorldOk, Saved, Applied, At, FirstCell, FirstCommand, Promotable, NewContents, Writable, NextWorld, HonestWorld, Move;
    FirstIsWritable(st, p);
    var written := StatementCompletes(EmptyWorld, st, p, {p.at.partition}, 1);
    FirstIs(st, p);
    FirstNames(st, p);
    FirstPromotable(st, p, 1);
    PromotionLifts(EmptyWorld, 5, written, p.at, FirstCommand(st, p, 1));
    EmptyWorldOk();
    WorldPathOk(EmptyWorld, FirstPromoted(st, p), 11);
  }
}
