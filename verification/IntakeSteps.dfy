/** Every honest step of intake, promotion and cleanup keeps the intake
    invariant. */
module IntakeSteps {
  import opened LtHash
  import opened Ledger
  import opened Options
  import opened PartSums
  import opened Partition
  import opened Publication
  import opened Books
  import opened Intake
  import opened IntakeProof

  // ---- one partition ----------------------------------------------------------

  /** What a step of another actor does to intake's parts. */
  ghost predicate Effect(c: Cell, s: Step, c': Cell) {
    && c'.written == c.written
    && c.led.intakeParts.Keys <= c'.led.intakeParts.Keys && Recorded(c') <= Recorded(c)
    && c.discarded <= c'.discarded && c'.discarded - c.discarded <= (if s.Discard? then {s.name} else c.applied)
    && c'.unsafe <= c.unsafe && c.unsafe - c'.unsafe <= if s.Discard? then {s.name} else c.applied
  }

  lemma PromotionEffect(k: PartitionKey, c: Cell, s: Step, c': Cell)
    requires Next(k, c, s, c') && (WithinPromotion(s) || s.Refresh?)
    ensures Effect(c, s, c')
  {
    hide Next, LiveRecords;
    PromotionKeepsBooks(k, c, s, c');
  }

  lemma ApplyEffect(k: PartitionKey, c: Cell, s: Step, c': Cell)
    requires Next(k, c, s, c') && (s.Finish? || s.Recover?)
    ensures Effect(c, s, c')
  {
    hide Builds, Intakes, Cleans, MappingsOk, Published, Post, SubtractAll, MergeNames, LiveRecords;
  }

  lemma CleanupStepEffect(k: PartitionKey, c: Cell, cleanup: Cleanup, node: string, c': Cell)
    requires Booked(c) && Next(k, c, ExecuteCleanup(cleanup, node), c') && Honest(c, ExecuteCleanup(cleanup, node))
    ensures Effect(c, ExecuteCleanup(cleanup, node), c')
  {
    hide Next, PartsHaveRows, Marked, SumBalanced, LiveRecords, TakenBack;
    CleanupEffect(k, c, cleanup, node, c');
    RecordsAreKeys(c.led.intakeParts);
    RecordsAreKeys(c'.led.intakeParts);
  }

  lemma DropEffect(k: PartitionKey, c: Cell, s: Step, c': Cell)
    requires Next(k, c, s, c') && Honest(c, s) && (s.Discard? || s.CleanupDrop?)
    ensures Effect(c, s, c')
  {
    hide Builds, Answers, LiveRecords;
  }

  lemma NoEffect(c: Cell, s: Step, c': Cell)
    requires c' == c.(duties := c'.duties, accepted := c'.accepted, led := c'.led) && c'.led == c.led.(owed := c'.led.owed) && !s.Discard?
    ensures Effect(c, s, c')
  {
    hide LiveRecords;
  }

  lemma DutyStep(k: PartitionKey, c: Cell, s: Step, c': Cell)
    requires Next(k, c, s, c') && (s.Reject? || s.Accept? || s.Clear?)
    ensures c' == c.(duties := c'.duties, accepted := c'.accepted, led := c'.led) && c'.led == c.led.(owed := c'.led.owed)
  {}

  lemma OthersEffect(k: PartitionKey, c: Cell, s: Step, c': Cell)
    requires Sound(c) && Next(k, c, s, c') && Honest(c, s) && ByOthers(s)
    ensures Effect(c, s, c')
  {
    hide Publishable, Booked, Promising, Next, Honest, Effect;
    if s.ExecuteCleanup? {
      CleanupStepEffect(k, c, s.cleanup, s.node, c');
    } else if s.Finish? || s.Recover? {
      ApplyEffect(k, c, s, c');
    } else if WithinPromotion(s) || s.Refresh? {
      PromotionEffect(k, c, s, c');
    } else if s.Discard? || s.CleanupDrop? {
      DropEffect(k, c, s, c');
    } else {
      DutyStep(k, c, s, c');
      NoEffect(c, s, c');
    }
  }

  lemma NamedByApply(k: PartitionKey, c: Cell, s: Step, c': Cell)
    requires Next(k, c, s, c') && (s.Finish? || s.Recover?)
    ensures Named(c') <= Named(c)
  {
    hide Post, RowsOf, OfRows, Root, MappingsOk, ValidCandidates, SubtractAll, MergeNames, AppliedAck;
  }

  lemma NamedByPromotion(k: PartitionKey, c: Cell, s: Step, c': Cell)
    requires Next(k, c, s, c') && !s.Finish? && !s.Recover? && !OutsidePromotion(s) && !s.Write?
    ensures Named(c') <= Named(c) + if s.Start? then SetOf(Names(s.cmd.candidates)) else {}
  {
    hide Post, Root, MatchedSubset, ShadowDistinct, ShadowRoot, ValidCandidates, RefusalAck, Unpublished,
         AckedInventoryOf, KeepInventory;
  }

  lemma NamedByCleanup(k: PartitionKey, c: Cell, s: Step, c': Cell)
    requires Next(k, c, s, c') && s.ExecuteCleanup?
    ensures c'.applied == c.applied && c'.pc == c.pc && c'.led.intent == c.led.intent
  {
    hide Builds, Answers, Intakes, RemoveRejected, Without, RejectedPartsOk, Names;
    if s.cleanup.rejectedBlockSeq != 0 {
      RemoveRejectedFrame(c.led, s.cleanup.parts);
    }
  }

  lemma NamedOutside(k: PartitionKey, c: Cell, s: Step, c': Cell)
    requires Next(k, c, s, c') && (OutsidePromotion(s) || s.Write?)
    ensures c'.applied == c.applied && c'.pc == c.pc && c'.led.intent == c.led.intent
  {
    hide PartHash, Add, Sub, Names, AckedInventoryOf, KeepInventory, RecordExecutedCleanup;
    if s.ExecuteCleanup? {
      NamedByCleanup(k, c, s, c');
    }
  }

  /** Only starting a promotion names a part that was not named before. */
  lemma NamedEffect(k: PartitionKey, c: Cell, s: Step, c': Cell)
    requires Next(k, c, s, c')
    ensures Named(c') <= Named(c) + if s.Start? then SetOf(Names(s.cmd.candidates)) else {}
  {
    hide Next, Names;
    if s.Finish? || s.Recover? {
      NamedByApply(k, c, s, c');
    } else if OutsidePromotion(s) || s.Write? {
      NamedOutside(k, c, s, c');
    } else {
      NamedByPromotion(k, c, s, c');
    }
  }

  // ---- partitions in the world --------------------------------------------------

  lemma MoveKeepsCells(w: World, k: PartitionKey, s: Step, c': Cell, w': World)
    requires CellsOk(w) && Next(k, At(w, k), s, c') && Honest(At(w, k), s)
    requires w'.cells == w.cells[k := c']
    ensures CellsOk(w')
  {
    hide Sound, Next, Honest, At;
    AtMove(w, k, c', w');
    forall k' ensures Sound(At(w', k')) {
      assert Sound(At(w, k'));
      if k' == k { StepKeepsSound(k, At(w, k), s, c'); }
    }
  }

  /** A promoted part is one the arbiter may know of. */
  lemma AppliedMayBeClaimed(w: World, p: PartAt)
    requires NamedOk(w) && p.name in At(w, p.at).applied
    ensures MayBeClaimed(w, p)
  {
    assert p.name in Named(At(w, p.at)) && PartAt(p.at, p.name) == p;
  }

  /** A change of partition `k` that takes no part away from a statement that
      is still being prepared, and accounts for no new part. */
  ghost predicate Gentle(w: World, k: PartitionKey, c: Cell, c': Cell) {
    && c'.written == c.written && c.discarded <= c'.discarded && c'.unsafe <= c.unsafe
    && c.led.intakeParts.Keys <= c'.led.intakeParts.Keys && Recorded(c') <= Recorded(c)
    && (forall n :: n in c'.discarded - c.discarded ==> Settled(w, PartAt(k, n)))
    && (forall n :: n in c.unsafe - c'.unsafe ==> Settled(w, PartAt(k, n)))
  }

  ghost predicate Settled(w: World, p: PartAt) {
    p in w.owner && !Open(w, w.owner[p])
  }

  lemma OthersGentle(w: World, k: PartitionKey, s: Step, c': Cell)
    requires CellsOk(w) && NamedOk(w)
    requires Next(k, At(w, k), s, c') && ByOthers(s) && HonestWorld(w, AtPartition(k, s))
    ensures Gentle(w, k, At(w, k), c')
  {
    hide Sound, Next, Honest, Named, NamedOk, Recorded;
    OthersEffect(k, At(w, k), s, c');
    DiscardedGone(At(w, k));
    forall n | n in At(w, k).applied ensures MayBeClaimed(w, PartAt(k, n)) {
      AppliedMayBeClaimed(w, PartAt(k, n));
    }
  }

  lemma DiscardedGone(c: Cell)
    requires Sound(c)
    ensures c.discarded !! c.unsafe
  {
    hide Publishable, Balanced, DutiesHeld, PartsHaveRows, Marked, Promising;
  }

  lemma AtMove(w: World, k: PartitionKey, c': Cell, w': World)
    requires w'.cells == w.cells[k := c']
    ensures At(w', k) == c' && forall k' :: k' != k ==> At(w', k') == At(w, k')
  {}

  lemma GentleKept(w: World, k: PartitionKey, c': Cell, st: string)
    requires Gentle(w, k, At(w, k), c')
    ensures Kept(Move(w, k, c'), st) <= Kept(w, st)
    ensures Open(w, st) ==> Kept(Move(w, k, c'), st) == Kept(w, st)
  {
    hide Recorded, At;
    var w' := Move(w, k, c');
    AtMove(w, k, c', w');
    if Open(w, st) {
      forall p | p in Kept(w, st) ensures p in Kept(w', st) {
        assert !Settled(w, p) && PartAt(p.at, p.name) == p;
      }
    }
  }

  lemma GentleUntouched(w: World, k: PartitionKey, c': Cell, st: string)
    requires PartsOk(w) && Gentle(w, k, At(w, k), c')
    ensures Untouched(w, Move(w, k, c'), st)
  {
    hide Recorded, At, HistoryAgrees, NamesUnique, Kept;
    var w' := Move(w, k, c');
    AtMove(w, k, c', w');
    GentleKept(w, k, c', st);
    forall p | p in Kept(w, st) && Open(w, st) && p.name in At(w, p.at).unsafe ensures p.name in At(w', p.at).unsafe {
      assert OwnedBy(w, p, st) by { KeptOwned(w, st, p); }
      assert !Settled(w, p) && PartAt(p.at, p.name) == p;
    }
  }

  lemma KeptOwned(w: World, st: string, p: PartAt)
    requires p in Kept(w, st)
    ensures OwnedBy(w, p, st) && p.name !in At(w, p.at).discarded
  {}

  lemma GentleLock(w: World, k: PartitionKey, c': Cell)
    requires PartsOk(w) && LockOk(w) && Gentle(w, k, At(w, k), c')
    ensures LockOk(Move(w, k, c'))
  {
    hide Recorded, RowsOf, PartsOk, Gentle, At, Kept, ExactlyOnce;
    if !w.pc.Free? {
      var w', st := Move(w, k, c'), w.pc.statement;
      AtMove(w, k, c', w');
      GentleUntouched(w, k, c', st);
      GentleShrinks(w, k, At(w, k), c');
      if w.pc.Assembling? {
        forall p | p in w.pc.parts ensures p in w.rows { KeptOwned(w, st, p); }
        ExactlyOnceFrame(w, w', w.pc.parts, st);
      } else {
        var table := w.journal[st].table;
        assert forall p :: p in Active(w', table) ==> p in Active(w, table);
        assert forall p :: OwnedBy(w, p, st) ==> OwnedBy(w', p, st);
      }
    }
  }

  lemma GentleShrinks(w: World, k: PartitionKey, c: Cell, c': Cell)
    requires Gentle(w, k, c, c')
    ensures c'.unsafe <= c.unsafe && c'.written == c.written && c.discarded <= c'.discarded
  {}

  lemma GentleParts(w: World, k: PartitionKey, c': Cell)
    requires PartsOk(w) && Gentle(w, k, At(w, k), c')
    ensures PartsOk(Move(w, k, c'))
  {
    hide Gentle, NamesUnique, RowsOwned, InHistory, At;
    AtMove(w, k, c', Move(w, k, c'));
    GentleShrinks(w, k, At(w, k), c');
  }

  lemma MoveNamed(w: World, k: PartitionKey, s: Step, c': Cell, w': World)
    requires NamedOk(w) && Next(k, At(w, k), s, c') && w'.cells == w.cells[k := c'] && w'.journal == w.journal
    requires At(w, k).discarded <= c'.discarded && forall p :: p in w.owner ==> p in w'.owner && w'.owner[p] == w.owner[p]
    requires s.Start? ==> forall n :: n in Names(s.cmd.candidates) ==> MayBeClaimed(w, PartAt(k, n))
    ensures NamedOk(w')
  {
    hide Next, Named, Names, At, MayBeClaimed;
    AtMove(w, k, c', w');
    NamedEffect(k, At(w, k), s, c');
    forall k', n | n in Named(At(w', k')) ensures MayBeClaimed(w', PartAt(k', n)) {
      assert MayBeClaimed(w, PartAt(k', n));
      StillMayBeClaimed(w, k, c', w', PartAt(k', n));
    }
  }

  lemma StillMayBeClaimed(w: World, k: PartitionKey, c': Cell, w': World, p: PartAt)
    requires MayBeClaimed(w, p) && w'.cells == w.cells[k := c'] && w'.journal == w.journal
    requires At(w, k).discarded <= c'.discarded && forall q :: q in w.owner ==> q in w'.owner && w'.owner[q] == w.owner[q]
    ensures MayBeClaimed(w', p)
  {
    hide At;
    AtMove(w, k, c', w');
  }

  /** A gentle honest step keeps everything. */
  lemma GentleKeepsWorld(w: World, k: PartitionKey, s: Step, c': Cell)
    requires WorldOk(w) && Next(k, At(w, k), s, c') && Honest(At(w, k), s) && Gentle(w, k, At(w, k), c')
    requires s.Start? ==> forall n :: n in Names(s.cmd.candidates) ==> MayBeClaimed(w, PartAt(k, n))
    ensures WorldOk(Move(w, k, c'))
  {
    hide CellsOk, PartsOk, LockOk, NamedOk, StatementOk, Next, Honest, Gentle, At, Untouched, MayBeClaimed;
    var w' := Move(w, k, c');
    MoveKeepsCells(w, k, s, c', w');
    GentleParts(w, k, c');
    GentleLock(w, k, c');
    GentleShrinks(w, k, At(w, k), c');
    MoveNamed(w, k, s, c', w');
    forall st ensures StatementOk(w', st) {
      GentleUntouched(w, k, c', st);
      UntouchedStatement(w, w', st);
    }
  }

  lemma OthersKeepWorld(w: World, k: PartitionKey, s: Step, w': World)
    requires WorldOk(w) && NextWorld(w, AtPartition(k, s), w') && HonestWorld(w, AtPartition(k, s))
    ensures WorldOk(w')
  {
    hide PrepareNext, ConvergeNext, ResolveNext, WorldOk, Next, Honest, Gentle, At;
    var c' :| Next(k, At(w, k), s, c') && w' == Move(w, k, c');
    OthersGentle(w, k, s, c') by { WorldParts(w); }
    GentleKeepsWorld(w, k, s, c');
  }

  lemma WorldParts(w: World)
    requires WorldOk(w)
    ensures CellsOk(w) && PartsOk(w) && LockOk(w) && NamedOk(w)
  {
    hide CellsOk, PartsOk, LockOk, NamedOk, StatementOk;
  }

  // ---- abort ----------------------------------------------------------------------

  /** A part an abort reaches is the statement's own. */
  lemma AbortReaches(w: World, st: string, p: PartAt)
    requires WorldOk(w) && Aborting(w, st, p) && p in w.rows
    ensures OwnedBy(w, p, st) && Within(w.rows[p], IdsOf(w, st)) && Settled(w, p)
  {
    hide CellsOk, LockOk, NamedOk, HistoryAgrees, NamesUnique, RowsOwned, Recorded, Named, IdsOf, At, Kept;
    assert StatementOk(w, st);
  }

  lemma WrittenIsInHistory(w: World, k: PartitionKey, n: string)
    requires PartsOk(w) && n in At(w, k).written
    ensures PartAt(k, n) in w.rows && w.rows[PartAt(k, n)] == At(w, k).written[n]
  {
    assert InHistory(w.rows, k, n);
  }

  lemma AbortDropKeepsWorld(w: World, st: string, p: PartAt, w': World)
    requires WorldOk(w) && NextWorld(w, AbortDrop(st, p), w')
    ensures WorldOk(w')
  {
    hide PrepareNext, ConvergeNext, WorldOk, At, LiveRecords, Aborting, PartsOk, CellsOk, LockOk, NamedOk, IdsOf,
         Within, Settled;
    var c' :| Next(p.at, At(w, p.at), Discard(p.name), c') && w' == Move(w, p.at, c');
    WorldParts(w);
    WrittenIsInHistory(w, p.at, p.name);
    assert PartAt(p.at, p.name) == p;
    AbortReaches(w, st, p);
    GentleKeepsWorld(w, p.at, Discard(p.name), c');
  }

  lemma AbortExcludeKeepsWorld(w: World, st: string, p: PartAt, w': World)
    requires WorldOk(w) && NextWorld(w, AbortExclude(st, p), w')
    ensures WorldOk(w')
  {
    hide PrepareNext, ConvergeNext, WorldOk, At, Aborting, Next, Gentle;
    var c' :| Next(p.at, At(w, p.at), Exclude(p.name), c') && w' == Move(w, p.at, c');
    AbortedIsRecorded(w, st, p);
    AbortReaches(w, st, p);
    ExcludeGentle(w, p, c');
    GentleKeepsWorld(w, p.at, Exclude(p.name), c');
  }

  lemma ExcludeGentle(w: World, p: PartAt, c': Cell)
    requires Next(p.at, At(w, p.at), Exclude(p.name), c') && Settled(w, p)
    ensures Gentle(w, p.at, At(w, p.at), c')
  {
    hide Builds, Answers, Cleans, At, Sub, PartHash, Settled;
    assert PartAt(p.at, p.name) == p;
  }

  lemma AbortedIsRecorded(w: World, st: string, p: PartAt)
    requires WorldOk(w) && Aborting(w, st, p) && w.journal[st].result.Some? && p in w.journal[st].result.value
    ensures p.name in At(w, p.at).led.intakeParts && OwnedBy(w, p, st) && p in w.rows
  {
    hide CellsOk, HistoryAgrees, NamesUnique, LockOk, NamedOk, At, Kept, IdsOf;
    assert StatementOk(w, st);
  }

  // ---- journal writes ---------------------------------------------------------------

  lemma SamePartitionsUntouched(w: World, w': World, st: string)
    requires PartsOk(w) && w'.cells == w.cells && w'.rows == w.rows && w'.owner == w.owner
    requires (st in w'.journal <==> st in w.journal) && (st in w.journal ==> w'.journal[st] == w.journal[st])
    ensures Untouched(w, w', st)
  {
    hide Recorded, HistoryAgrees, NamesUnique;
    assert forall k :: At(w', k) == At(w, k);
    assert Kept(w', st) == Kept(w, st);
  }

  lemma SamePartitionsParts(w: World, w': World)
    requires CellsOk(w) && PartsOk(w) && w'.cells == w.cells && w'.rows == w.rows && w'.owner == w.owner
    ensures CellsOk(w') && PartsOk(w')
  {
    hide Sound, NamesUnique, RowsOwned, InHistory;
    assert forall k :: At(w', k) == At(w, k);
  }

  /** A journal write is right if the record it writes is, the lock agrees, and
      it does not take a claim back whose parts a promotion has named. */
  lemma JournalKeepsWorld(w: World, st: string, w': World)
    requires WorldOk(w) && w'.cells == w.cells && w'.rows == w.rows && w'.owner == w.owner
    requires forall st' :: st' != st ==>
      (st' in w'.journal <==> st' in w.journal) && (st' in w.journal ==> w'.journal[st'] == w.journal[st'])
    requires StatementOk(w', st) && LockOk(w')
    requires Open(w', st) && !Open(w, st) ==> Kept(w, st) == {}
    ensures WorldOk(w')
  {
    hide CellsOk, PartsOk, LockOk, StatementOk, Untouched, Named, MayBeClaimed, Kept;
    SamePartitionsParts(w, w');
    forall st' | st' != st ensures StatementOk(w', st') {
      SamePartitionsUntouched(w, w', st');
      UntouchedStatement(w, w', st');
    }
    assert forall k :: At(w', k) == At(w, k);
    forall k, n | n in Named(At(w', k)) ensures MayBeClaimed(w', PartAt(k, n)) {
      assert n in Named(At(w, k)) && MayBeClaimed(w, PartAt(k, n));
      JournalMayBeClaimed(w, st, w', PartAt(k, n));
    }
  }

  lemma JournalMayBeClaimed(w: World, st: string, w': World, p: PartAt)
    requires MayBeClaimed(w, p) && w'.cells == w.cells && w'.owner == w.owner
    requires forall st' :: st' != st ==>
      (st' in w'.journal <==> st' in w.journal) && (st' in w.journal ==> w'.journal[st'] == w.journal[st'])
    requires Open(w', st) && !Open(w, st) ==> Kept(w, st) == {}
    ensures MayBeClaimed(w', p)
  {
    assert At(w', p.at) == At(w, p.at);
    if w.owner[p] == st && Open(w', st) && !Open(w, st) { assert p !in Kept(w, st); }
  }

  lemma PcKeepsWorld(w: World, w': World)
    requires WorldOk(w) && w' == w.(pc := w'.pc) && LockOk(w')
    ensures WorldOk(w')
  {
    hide StatementOk, LockOk, Untouched, CellsOk, PartsOk, NamedOk;
    SamePartitionsUntouched(w, w', "");
    UntouchedStatement(w, w', "");
    JournalKeepsWorld(w, "", w');
  }

  lemma PrepareKeepsWorld(w: World, s: IntakeStep, w': World)
    requires WorldOk(w) && s.Prepare? && NextWorld(w, s, w')
    ensures WorldOk(w')
  {
    hide ConvergeNext, ResolveNext, CellsOk, PartsOk, NamedOk, Recorded, RowsOf, Named, Next;
    assert StatementOk(w, s.statement);
    assert Kept(w', s.statement) == Kept(w, s.statement) == {};
    assert Active(w', s.table) == Active(w, s.table);
    JournalKeepsWorld(w, s.statement, w');
  }

  /** The parts that appeared in the table since the write began are the kept
      parts of the statement. */
  lemma AddedIsKept(w: World)
    requires WorldOk(w) && w.pc.Writing?
    ensures w.pc.statement in w.journal
    ensures Active(w, w.journal[w.pc.statement].table) - w.pc.before == Kept(w, w.pc.statement)
  {
    hide CellsOk, NamedOk, HistoryAgrees, NamesUnique, Recorded, RowsOf, IdsOf;
    var st := w.pc.statement;
    var added := Active(w, w.journal[st].table) - w.pc.before;
    assert StatementOk(w, st);
    forall p | p in added ensures p in Kept(w, st) {
      UnsafeIsKept(w, p);
    }
  }

  lemma UnsafeIsKept(w: World, p: PartAt)
    requires CellsOk(w) && p.name in At(w, p.at).unsafe
    ensures p.name !in At(w, p.at).discarded
  {
    hide Sound, At;
    DiscardedGone(At(w, p.at));
  }

  lemma InsertReturnedKeepsWorld(w: World, w': World)
    requires WorldOk(w) && NextWorld(w, InsertReturned, w') && HonestWorld(w, InsertReturned)
    ensures WorldOk(w')
  {
    hide ConvergeNext, ResolveNext, CellsOk, PartsOk, NamedOk, Recorded, RowsOf, StatementOk, Next;
    AddedIsKept(w);
    var st := w.pc.statement;
    assert forall k :: At(w', k) == At(w, k);
    assert Kept(w', st) == Kept(w, st);
    PcKeepsWorld(w, w');
  }

  lemma SaveWrittenKeepsWorld(w: World, w': World)
    requires WorldOk(w) && NextWorld(w, SaveWritten, w')
    ensures WorldOk(w')
  {
    hide ConvergeNext, ResolveNext, CellsOk, HistoryAgrees, NamesUnique, NamedOk, Recorded, RowsOf, Named, Next, At,
         Kept;
    var st := w.pc.statement;
    assert StatementOk(w, st);
    SameKept(w, w', st);
    forall p | p in Kept(w, st) ensures OwnedBy(w, p, st) && p in w.owner { KeptOwned(w, st, p); }
    JournalKeepsWorld(w, st, w');
  }

  lemma BindKeepsWorld(w: World, st: string, w': World)
    requires WorldOk(w) && NextWorld(w, Bind(st), w')
    ensures WorldOk(w')
  {
    hide PrepareNext, ConvergeNext, CellsOk, PartsOk, NamedOk, Accounted, RowsOf, Named, Next, OwnedBy, Derived;
    assert StatementOk(w, st);
    assert forall k :: At(w', k) == At(w, k);
    assert Kept(w', st) == Kept(w, st) by { SameKept(w, w', st); }
    assert forall p :: OwnedBy(w', p, st) == OwnedBy(w, p, st) by { SameKept(w, w', st); }
    JournalKeepsWorld(w, st, w');
  }

  lemma SameKept(w: World, w': World, st: string)
    requires w'.cells == w.cells && w'.owner == w.owner
    ensures Kept(w', st) == Kept(w, st)
    ensures forall p :: OwnedBy(w', p, st) == OwnedBy(w, p, st)
    ensures forall k :: At(w', k) == At(w, k)
  {}

  lemma SaveCleanedKeepsWorld(w: World, st: string, w': World)
    requires WorldOk(w) && NextWorld(w, SaveCleaned(st), w')
    ensures WorldOk(w')
  {
    hide PrepareNext, ConvergeNext, CellsOk, PartsOk, NamedOk, Recorded, RowsOf, Named, Next, At, Kept, Active;
    SameKept(w, w', st);
    CleanedHasNone(w, st);
    JournalKeepsWorld(w, st, w');
  }

  /** Once every part of an aborting statement is gone from hg_unsafe and taken
      back, nothing of it was kept. */
  lemma CleanedHasNone(w: World, st: string)
    requires WorldOk(w) && st in w.journal && w.journal[st].lifecycle.AbortPending? && w.journal[st].abort.Some?
    requires forall p :: p in Active(w, w.journal[st].table) ==> p.name !in w.journal[st].abort.value
    requires w.journal[st].result.Some? ==> forall p :: p in w.journal[st].result.value ==>
      p.name in At(w, p.at).led.intakeParts && At(w, p.at).led.intakeParts[p.name] == Unset
    ensures Kept(w, st) == {}
  {
    hide WorldOk, Sound, At, Recorded, IdsOf, Kept, Active, Inserted;
    if p :| p in Kept(w, st) {
      AbortedKept(w, st, p);
      KeptOwned(w, st, p);
      WrittenInCell(w, p);
      KeptInCell(At(w, p.at), p.name);
      if p.name in At(w, p.at).unsafe { ActiveHas(w, p); }
    }
  }

  lemma AbortedKept(w: World, st: string, p: PartAt)
    requires WorldOk(w) && st in w.journal && w.journal[st].lifecycle.AbortPending? && p in Kept(w, st)
    ensures w.journal[st].abort.Some? && p.name in w.journal[st].abort.value && p.at.table == w.journal[st].table
    ensures if w.journal[st].result.Some? then p in w.journal[st].result.value else !Accounted(w, p)
  {
    hide CellsOk, PartsOk, NamedOk, LockOk, At, Kept, Accounted, Inserted, IdsOf;
    assert StatementOk(w, st);
  }

  lemma ActiveHas(w: World, p: PartAt)
    requires p in w.rows && p.name in At(w, p.at).unsafe
    ensures p in Active(w, p.at.table)
  {}

  lemma WrittenInCell(w: World, p: PartAt)
    requires WorldOk(w) && p in w.owner
    ensures p in w.rows && p.name in At(w, p.at).written && Sound(At(w, p.at))
  {
    hide LockOk, NamedOk, StatementOk, NamesUnique, Sound, At, InHistory;
  }

  /** A kept part that is recorded is counted, and one that is not is still in
      hg_unsafe. */
  lemma KeptInCell(c: Cell, n: string)
    requires Sound(c) && n in c.written && n !in c.discarded
    ensures if n in c.led.intakeParts then c.led.intakeParts[n].Value? && n in Recorded(c) else n in c.unsafe
  {
    hide Publishable, Balanced, DutiesHeld, PartsHaveRows, Promising;
  }

  // ---- convergence --------------------------------------------------------------------

  /** Convergence attributes to an open statement exactly its kept parts, once
      it has seen no foreign row in them. */
  lemma AttributedIsKept(w: World, st: string)
    requires WorldOk(w) && Open(w, st) && NoForeignRows(w, st)
    ensures Attributed(w, w.journal[st]) == Kept(w, st)
  {
    hide CellsOk, NamedOk, NamesUnique, Recorded, RowsOf, LockOk;
    var rec := w.journal[st];
    assert StatementOk(w, st);
    forall p | p in Attributed(w, rec) ensures p in Kept(w, st) {
      PartHasRows(w, p);
      var r :| r in w.rows[p];
      assert r in IdsOf(w, st) && r.statement == st;
      UnsafeIsKept(w, p);
    }
  }

  lemma PartHasRows(w: World, p: PartAt)
    requires CellsOk(w) && PartsOk(w) && p in w.rows
    ensures w.rows[p] != multiset{}
  {
    hide Publishable, Balanced, DutiesHeld, Placed, Marked, Promising;
    assert Sound(At(w, p.at));
  }

  lemma ConvergeFailsKeepsWorld(w: World, st: string, w': World)
    requires WorldOk(w) && NextWorld(w, ConvergeFails(st), w')
    ensures WorldOk(w')
  {
    hide PrepareNext, ResolveNext, CellsOk, PartsOk, NamedOk, Recorded, RowsOf, Named, Next, NoForeignRows, Attributed;
    assert StatementOk(w, st);
    assert forall k :: At(w', k) == At(w, k);
    assert Kept(w', st) == Kept(w, st);
    JournalKeepsWorld(w, st, w');
  }

  lemma ConvergeCompleteKeepsWorld(w: World, st: string, w': World)
    requires WorldOk(w) && NextWorld(w, ConvergeComplete(st), w')
    ensures WorldOk(w')
  {
    hide PrepareNext, ResolveNext, WorldOk, Recorded, RowsOf, Next, NoForeignRows, Attributed;
    AttributedIsKept(w, st);
    assert forall k :: At(w', k) == At(w, k);
    assert Kept(w', st) == Kept(w, st);
    PcKeepsWorld(w, w');
  }

  lemma {:induction false} DerivedSize(table: string, st: string, count: nat)
    ensures |Derived(table, st, count)| == count
  {
    if count > 0 {
      DerivedSize(table, st, count - 1);
      assert Derived(table, st, count) == Derived(table, st, count - 1) + {Row(table, st, count - 1)};
    }
  }

  /** A statement converged as partial had no accounted part. */
  lemma PartialIsUnaccounted(w: World, st: string, p: PartAt)
    requires WorldOk(w) && Open(w, st) && p in Kept(w, st) && Accounted(w, p)
    ensures |RowsOf(Kept(w, st), w.rows)| == w.journal[st].expectedRows > 0
  {
    hide CellsOk, NamedOk, HistoryAgrees, NamesUnique, Recorded, RowsOf, LockOk;
    assert StatementOk(w, st);
    DerivedSize(w.journal[st].table, st, w.journal[st].expectedRows);
    PartHasRows(w, p);
    RowsOfPick(Kept(w, st), w.rows, p);
    var r :| r in w.rows[p];
  }

  /** A record that aborts all kept parts of its statement. */
  lemma BecomesAborting(w: World, st: string, parts: set<PartAt>, rec: IntakeRecord, w': World)
    requires NamesUnique(w.rows) && Kept(w, st) <= parts
    requires st in w.journal && rec.table == w.journal[st].table && rec.expectedRows == w.journal[st].expectedRows
    requires rec.lifecycle.AbortPending? && rec.abort == Some(set p | p in parts :: p.name)
    requires w' == w.(journal := w.journal[st := rec])
    requires forall p :: p in parts ==>
      OwnedBy(w, p, st) && p in w.rows && p.at.table == rec.table && Within(Content(w.rows, p), IdsOf(w, st))
    requires rec.result.None? ==> forall p :: p in Kept(w, st) ==> !Accounted(w, p)
    requires rec.result.Some? ==> rec.result.value == parts && forall p :: p in parts ==> p.name in At(w, p.at).led.intakeParts
    ensures StatementOk(w', st)
  {
    hide Recorded, Derived;
    assert forall k :: At(w', k) == At(w, k);
    assert Kept(w', st) == Kept(w, st);
    assert IdsOf(w', st) == IdsOf(w, st);
    forall n | n in rec.abort.value ensures Inserted(w', rec.table, n) {
      var p :| p in parts && p.name == n;
    }
  }

  lemma ConvergePartialKeepsWorld(w: World, st: string, w': World)
    requires WorldOk(w) && NextWorld(w, ConvergePartial(st), w')
    ensures WorldOk(w')
  {
    hide PrepareNext, ResolveNext, CellsOk, HistoryAgrees, NamesUnique, NamedOk, Recorded, RowsOf, Named, Next,
         NoForeignRows, Attributed, IdsOf, ExactlyOnce, Within;
    assert StatementOk(w, st);
    AttributedIsKept(w, st);
    forall p | p in Kept(w, st) ensures !Accounted(w, p) {
      if Accounted(w, p) { PartialIsUnaccounted(w, st, p); }
    }
    BecomesAborting(w, st, Kept(w, st), w'.journal[st], w');
    JournalKeepsWorld(w, st, w');
  }

  // ---- abort decision ---------------------------------------------------------------

  lemma OnceIsWithin(w: World, parts: set<PartAt>, st: string, p: PartAt)
    requires ExactlyOnce(w, parts, st) && p in parts
    ensures Within(Content(w.rows, p), IdsOf(w, st))
  {
    hide RowsOf, IdsOf;
    RowsOfPick(parts, w.rows, p);
    forall r | r in Content(w.rows, p) ensures r in IdsOf(w, st) {
      assert r in RowsOf(parts, w.rows);
    }
  }

  lemma AbortKeepsWorld(w: World, st: string, names: set<string>, w': World)
    requires WorldOk(w) && NextWorld(w, Abort(st, names), w')
    ensures WorldOk(w')
  {
    hide PrepareNext, ConvergeNext, CellsOk, HistoryAgrees, NamesUnique, NamedOk, Recorded, RowsOf, Named, Next,
         IdsOf, ExactlyOnce, Within;
    assert StatementOk(w, st);
    var parts := w.journal[st].result.value;
    forall p | p in parts ensures Within(Content(w.rows, p), IdsOf(w, st)) {
      OnceIsWithin(w, parts, st, p);
    }
    BecomesAborting(w, st, parts, w'.journal[st], w');
    JournalKeepsWorld(w, st, w');
  }
}
