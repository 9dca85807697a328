/** What comes after the work is done: accepted acknowledgements leave the
    ledger, the purge gate opens, and a new incarnation promotes from an empty
    base. */
module GateOpening {
  import opened LtHash
  import opened Ledger
  import opened LedgerEffects
  import opened PartSums
  import opened Partition
  import opened Publication
  import opened Books
  import opened ReadSurface
  import opened Inventory
  import opened Progress

  // ---- owed acknowledgements ------------------------------------------------------------------

  /** Each owed acknowledgement is filed under its own cleanup. */
  ghost predicate Filed(c: Cell) {
    forall id :: id in c.led.owed ==> c.led.owed[id].id == id
  }

  lemma StepKeepsFiled(k: PartitionKey, c: Cell, s: Step, c': Cell)
    requires Next(k, c, s, c') && Filed(c)
    ensures Filed(c')
  {
    hide Next;
    if s.ExecuteCleanup? {
      CleanupIsFiled(k, c, s, c');
    } else if s.Clear? {
      ClearKeepsFiled(k, c, s, c');
    } else {
      OthersOweNothing(k, c, s, c');
    }
  }

  lemma CleanupIsFiled(k: PartitionKey, c: Cell, s: Step, c': Cell)
    requires Next(k, c, s, c') && Filed(c) && s.ExecuteCleanup?
    ensures Filed(c')
  {
    hide Builds, Answers, Intakes, RecordExecutedCleanup, Names;
    CleanupWrites(c.led, k, s.cleanup, CleanupAck(s.node, CleanupId(s.cleanup.promotionSeq, s.cleanup.rejectedBlockSeq)));
  }

  lemma ClearKeepsFiled(k: PartitionKey, c: Cell, s: Step, c': Cell)
    requires Next(k, c, s, c') && Filed(c) && s.Clear?
    ensures Filed(c')
  {
    hide Builds, Answers, Intakes, ClearOwed;
    ClearEffect(c.led, s.cleanupAck);
  }

  lemma OthersOweNothing(k: PartitionKey, c: Cell, s: Step, c': Cell)
    requires Next(k, c, s, c') && !s.ExecuteCleanup? && !s.Clear?
    ensures c'.led.owed == c.led.owed
  {
    hide Root, PartHash, Add, Sub, MatchedSubset, DistinctHashes, Post, ValidHashes, Names, SubtractAll, MergeNames, MappingsOk,
         RecordExecutedCleanup, RecordRefreshedAck, ClearOwed, AckedInventoryOf, KeepInventory;
    if s.Refresh? { RefreshEffect(c.led, s.ack); }
  }

  lemma {:induction false} EveryRunFiled(k: PartitionKey, cells: seq<Cell>, steps: seq<Step>, i: nat)
    requires IsRun(k, cells, steps) && i < |cells|
    ensures Filed(cells[i])
  {
    hide Next, Filed;
    if i == 0 {
      FreshFiled();
    } else {
      EveryRunFiled(k, cells, steps, i - 1);
      StepKeepsFiled(k, cells[i - 1], steps[i - 1], cells[i]);
    }
  }

  lemma FreshFiled()
    ensures Filed(Fresh)
  {}

  ghost function Accepted(c: Cell, id: CleanupId): Cell {
    c.(accepted := c.accepted + {id})
  }

  ghost function Cleared(c: Cell, id: CleanupId): Cell {
    c.(accepted := c.accepted + {id}, led := c.led.(owed := c.led.owed - {id}))
  }

  /** An owed acknowledgement that the arbiter accepts and the node then clears
      is owed no more, and nothing else changes. */
  lemma AcceptedIsCleared(k: PartitionKey, c: Cell, id: CleanupId)
    requires Filed(c) && id in c.led.owed
    ensures Takes(k, c, Accept(id), Accepted(c, id))
    ensures Takes(k, Accepted(c, id), Clear(c.led.owed[id]), Cleared(c, id))
  {
    hide Builds, Answers, Intakes, ClearOwed;
    ClearEffect(c.led, c.led.owed[id]);
    assert ClearOwed(c.led, c.led.owed[id]).owed == c.led.owed - {id};
  }

  /** Everything was promoted or taken back, and only acknowledgements are owed. */
  ghost predicate OnlyOwed(c: Cell) {
    Sound(c) && Filed(c) && c.led.intent.None? && c.led.promotedUnsafe == [] && Unpromoted(c) == {}
  }

  /** From every honest state in which only acknowledgements are owed, accepting
      and clearing them opens the gate, if and only if the sum is conserved. */
  lemma GateOpens(k: PartitionKey, c: Cell) returns (done: Cell)
    requires OnlyOwed(c)
    ensures Path(k, c, done, 2 * |c.led.owed|) && done.led == c.led.(owed := map[])
    ensures Quiescent(done.led) <==> Conserved(c)
  {
    hide Sound, Path, Quiescent, Conserved, Unpromoted, Filed;
    PathStart(k, c);
    done := ClearsAll(k, c, c, 0);
    ConservedQuiet(c);
    QuietFrame(c.led);
  }

  lemma {:induction false} ClearsAll(k: PartitionKey, a: Cell, c: Cell, n: nat) returns (done: Cell)
    requires Path(k, a, c, n) && Filed(c)
    ensures Path(k, a, done, n + 2 * |c.led.owed|) && done.led == c.led.(owed := map[])
    decreases |c.led.owed|
  {
    hide Path, Filed;
    if c.led.owed == map[] {
      done := c;
    } else {
      var id :| id in c.led.owed;
      OneCleared(k, a, c, n, id);
      done := ClearsAll(k, a, Cleared(c, id), n + 2);
    }
  }

  lemma OneCleared(k: PartitionKey, a: Cell, c: Cell, n: nat, id: CleanupId)
    requires Path(k, a, c, n) && Filed(c) && id in c.led.owed
    ensures Path(k, a, Cleared(c, id), n + 2) && Filed(Cleared(c, id)) && |Cleared(c, id).led.owed| + 1 == |c.led.owed|
  {
    hide Path, Takes;
    AcceptedIsCleared(k, c, id);
    Goes(k, a, c, n, Accept(id), Accepted(c, id));
    Goes(k, a, Accepted(c, id), n + 1, Clear(c.led.owed[id]), Cleared(c, id));
    FewerOwed(c.led.owed, id);
  }

  lemma FewerOwed(owed: map<CleanupId, CleanupAck>, id: CleanupId)
    requires id in owed
    ensures |owed - {id}| + 1 == |owed|
  {
    assert owed.Keys == {id} + (owed - {id}).Keys;
  }

  lemma ConservedQuiet(c: Cell)
    requires OnlyOwed(c)
    ensures Parse(c.led.unpromotedSum) == Zero <==> Conserved(c)
  {
    hide Publishable, Promising, DutiesHeld, Placed, Marked, PartsHaveRows, RowsOf, OfRows;
    RootNone(c.written);
  }

  lemma QuietFrame(e: Entry)
    requires e.intent.None? && e.promotedUnsafe == []
    ensures Quiescent(e.(owed := map[])) <==> Parse(e.unpromotedSum) == Zero
  {}

  // ---- cleanups ----------------------------------------------------------------------------------

  ghost function WithoutPart(c: Cell, n: string, rejected: bool): Cell {
    c.(unsafe := c.unsafe - {n}, discarded := if rejected then c.discarded + {n} else c.discarded)
  }

  lemma CanDropPart(k: PartitionKey, c: Cell, n: string, rejected: bool)
    requires if rejected then n in c.written else n in c.applied
    ensures Takes(k, c, if rejected then Discard(n) else CleanupDrop(n), WithoutPart(c, n, rejected))
  {
    hide Builds, Answers;
  }

  /** A cleanup that names all its parts, as intake recorded them. */
  function FullCleanup(k: PartitionKey, id: CleanupId, names: seq<string>, w: Contents): Cleanup {
    Cleanup(id.promotionSeq, id.rejectedBlockSeq, seq(|names|, i requires 0 <= i < |names| => PartRef(k, names[i], Value(PartHash(w, names[i])))))
  }

  /** The cleanup's parts, in some order. */
  ghost predicate Lists(names: seq<string>, parts: set<string>) {
    SetOf(names) == parts && "" !in names
  }

  /** Open cleanups of this partition: unexecuted, of promoted parts or, for a
      rejected block, of recorded ones. */
  ghost predicate Due(c: Cell, id: CleanupId) {
    && id in c.duties && id !in c.led.owed && (id.rejectedBlockSeq != 0 ==> id.promotionSeq == 0)
  }

  lemma DropsAll(k: PartitionKey, c: Cell, id: CleanupId, names: seq<string>) returns (done: Cell)
    requires Sound(c) && id in c.duties && SetOf(names) <= c.duties[id]
    ensures Path(k, c, done, |names|) && done.led == c.led && done.unsafe == c.unsafe - SetOf(names)
    ensures done.duties == c.duties && done.written == c.written && done.applied == c.applied && done.accepted == c.accepted
  {
    hide Path, Sound, Takes;
    done := c;
    assert Path(k, c, c, 0) by { PathStart(k, c); }
    DutyParts(c, id);
    for i := 0 to |names|
      invariant Path(k, c, done, i) && done.led == c.led && done.unsafe == c.unsafe - SetOf(names[..i])
      invariant done.duties == c.duties && done.written == c.written && done.applied == c.applied && done.accepted == c.accepted
    {
      var rejected := id.rejectedBlockSeq != 0;
      assert names[i] in SetOf(names) && names[..i + 1] == names[..i] + [names[i]];
      CanDropPart(k, done, names[i], rejected);
      Goes(k, c, done, i, if rejected then Discard(names[i]) else CleanupDrop(names[i]), WithoutPart(done, names[i], rejected));
      done := WithoutPart(done, names[i], rejected);
    }
    assert names[..|names|] == names;
  }

  lemma DutyParts(c: Cell, id: CleanupId)
    requires Sound(c) && id in c.duties
    ensures if id.rejectedBlockSeq == 0 then c.duties[id] <= c.applied else c.duties[id] <= c.written.Keys
    ensures "" !in c.duties[id] && c.duties[id] <= c.written.Keys
    ensures id.rejectedBlockSeq != 0 ==> forall n :: n in c.duties[id] && n in c.led.intakeParts ==>
      c.led.intakeParts[n] in {Unset, Value(PartHash(c.written, n))}
  {
    hide Publishable, Promising, Marked, Root;
    forall n | n in c.led.intakeParts ensures c.led.intakeParts[n] in {Unset, Value(PartHash(c.written, n))} {
      if c.led.intakeParts[n].Value? { assert n in LiveRecords(c.led.intakeParts); }
    }
  }

  /** Every due cleanup can be carried out: drop its parts, record it; then its
      acknowledgement is owed, and none of its parts is excluded from reads or in
      hg_unsafe. */
  lemma CleanupCompletes(k: PartitionKey, c: Cell, id: CleanupId, names: seq<string>, node: string) returns (done: Cell)
    requires Sound(c) && Due(c, id) && Lists(names, c.duties[id])
    ensures Path(k, c, done, |names| + 1) && id in done.led.owed && done.led.owed[id] == CleanupAck(node, id)
    ensures forall n :: n in c.duties[id] ==> n !in done.unsafe && n !in done.led.promotedUnsafe
    ensures id.rejectedBlockSeq != 0 ==> forall n :: n in c.duties[id] && n in c.led.intakeParts ==>
      n in done.led.intakeParts && done.led.intakeParts[n] == Unset
  {
    hide Path, Sound, Takes, PartHash;
    var cleanup := FullCleanup(k, id, names, c.written);
    var dropped := DropsAll(k, c, id, names);
    DutyParts(c, id);
    done := CanExecute(k, dropped, id, names, node);
    Goes(k, c, dropped, |names|, ExecuteCleanup(cleanup, node), done);
  }

  lemma CleanupNames(k: PartitionKey, id: CleanupId, names: seq<string>, w: Contents)
    ensures Names(FullCleanup(k, id, names, w).parts) == names
    ensures forall p :: p in FullCleanup(k, id, names, w).parts <==> exists i :: 0 <= i < |names| && p == PartRef(k, names[i], Value(PartHash(w, names[i])))
  {
    hide PartHash;
  }

  lemma CanExecute(k: PartitionKey, c: Cell, id: CleanupId, names: seq<string>, node: string) returns (done: Cell)
    requires id in c.duties && Lists(names, c.duties[id]) && c.unsafe !! SetOf(names) && (id.rejectedBlockSeq != 0 ==> id.promotionSeq == 0)
    requires id.rejectedBlockSeq != 0 ==> forall n :: n in c.duties[id] && n in c.led.intakeParts ==>
      c.led.intakeParts[n] in {Unset, Value(PartHash(c.written, n))}
    ensures Takes(k, c, ExecuteCleanup(FullCleanup(k, id, names, c.written), node), done)
    ensures id in done.led.owed && done.led.owed[id] == CleanupAck(node, id) && done.unsafe == c.unsafe
    ensures forall n :: n in c.duties[id] ==> n !in done.led.promotedUnsafe
    ensures id.rejectedBlockSeq != 0 ==> forall n :: n in c.duties[id] && n in c.led.intakeParts ==>
      n in done.led.intakeParts && done.led.intakeParts[n] == Unset
  {
    hide Builds, Answers, Intakes, PartHash, RecordExecutedCleanup, FullCleanup, Names;
    var cleanup, ack := FullCleanup(k, id, names, c.written), CleanupAck(node, id);
    CleanupNames(k, id, names, c.written);
    CleanupSeqs(k, id, names, c.written);
    CleanupWrites(c.led, k, cleanup, ack);
    forall n | n in c.duties[id] ensures exists p :: p in cleanup.parts && p.name == n {
      var i :| 0 <= i < |names| && names[i] == n;
      assert PartRef(k, names[i], Value(PartHash(c.written, names[i]))) in cleanup.parts;
    }
    done := c.(led := RecordExecutedCleanup(c.led, k, cleanup, ack).value,
               discarded := if id.rejectedBlockSeq == 0 then c.discarded else c.discarded + SetOf(names));
  }

  lemma CleanupSeqs(k: PartitionKey, id: CleanupId, names: seq<string>, w: Contents)
    ensures var cleanup := FullCleanup(k, id, names, w);
      cleanup.promotionSeq == id.promotionSeq && cleanup.rejectedBlockSeq == id.rejectedBlockSeq
  {}

  // ---- the next incarnation --------------------------------------------------------------------

  /** A partition of a new incarnation: of the ledger only the watermark is left. */
  function Reborn(watermark: nat): Cell {
    Fresh.(led := EmptyEntry.(watermark := watermark))
  }

  lemma RebornIsSound(watermark: nat)
    ensures Sound(Reborn(watermark)) && SafeDistinct(Reborn(watermark)) && Filed(Reborn(watermark)) && Reborn(watermark).led.base.Unset?
  {
    hide RowsOf, OfRows, Add;
    RootNone(map[]);
    assert Root({}, Fresh.written) == Zero;
    assert Reborn(watermark).applied * TakenBack(Reborn(watermark).led.intakeParts) == {};
    assert LiveRecords(Reborn(watermark).led.intakeParts) - Reborn(watermark).applied == {};
    AddZero(Zero);
  }

  /** Only an applied promotion sets the base. */
  lemma BaseStaysUnset(k: PartitionKey, c: Cell, s: Step, c': Cell)
    requires Next(k, c, s, c') && c.led.base.Unset? && !s.Finish? && !s.Recover?
    ensures c'.led.base.Unset?
  {
    hide Root, PartHash, Add, Sub, MatchedSubset, DistinctHashes, Post, ValidHashes, Names, Without, RemoveRejected, RejectedPartsOk,
         RecordExecutedCleanup, RecordRefreshedAck, ClearOwed;
    if s.ExecuteCleanup? {
      CleanupWrites(c.led, k, s.cleanup, CleanupAck(s.node, CleanupId(s.cleanup.promotionSeq, s.cleanup.rejectedBlockSeq)));
    } else if s.Refresh? {
      RefreshEffect(c.led, s.ack);
    } else if s.Clear? {
      ClearEffect(c.led, s.cleanupAck);
    }
  }

  /** A new command over an empty base, naming recorded parts in hg_unsafe. */
  ghost predicate FirstCommand(c: Cell, cmd: Promotion) {
    && cmd.base.Unset? && cmd.promotionSeq > c.led.watermark && HonestCommand(c, cmd) && ValidCandidates(cmd)
    && SetOf(Names(cmd.candidates)) <= c.unsafe
  }

  /** While no base is set, a first promotion is not refused: six honest steps
      apply it. */
  lemma FirstPromotionApplies(k: PartitionKey, c: Cell, cmd: Promotion) returns (done: Cell)
    requires Sound(c) && SafeDistinct(c) && c.pc.Idle? && c.led.intent.None? && c.led.base.Unset? && FirstCommand(c, cmd)
    ensures Path(k, c, done, 6) && done.led.base == Value(Post(cmd)) && done.safe == SetOf(Names(cmd.candidates))
    ensures forall ack, c' :: !Next(k, c, RefuseBase(cmd, ack), c')
  {
    hide Sound, SafeDistinct, Path, Root, Post, HonestCommand, ValidHashes, Builds, Intakes, Cleans, Holds;
    NoBaseNoParts(c);
    assert Promotable(c, cmd);
    assert NewContents(c, cmd) by { NothingHeld(c, cmd); }
    done := PromotionCompletes(k, c, cmd);
  }

  lemma NothingHeld(c: Cell, cmd: Promotion)
    requires c.safe == {}
    ensures NewContents(c, cmd)
  {}

  lemma NoBaseNoParts(c: Cell)
    requires Sound(c) && c.led.intent.None? && c.led.base.Unset?
    ensures c.safe == {}
  {
    hide RowsOf, OfRows, SumBalanced, DutiesHeld, Placed, Marked, HandlerOk, HistoryOk, Promising;
    if n :| n in c.safe { RootNonZero(c.safe, c.written, n); }
  }

  /** A base that is kept refuses it: the command cannot start, and the answer is
      a base mismatch. */
  lemma KeptBaseRefuses(k: PartitionKey, c: Cell, cmd: Promotion, ack: PromotionAck)
    requires c.pc.Idle? && c.led.intent.None? && c.led.base != cmd.base && cmd.promotionSeq > c.led.watermark && RefusalAck(ack, cmd)
    ensures forall c' :: !Next(k, c, Start(cmd), c')
    ensures exists c' :: Next(k, c, RefuseBase(cmd, ack), c')
  {
    hide Intakes, Cleans, Root, RecordAck;
    assert Next(k, c, RefuseBase(cmd, ack),
                c.(led := RecordAck(c.led, cmd.promotionSeq, ack, c.led.base, c.led.baseSnapshot), refusals := c.refusals + {cmd.promotionSeq}));
  }
}
