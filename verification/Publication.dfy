/** Crash-safe publication, for every sequence of commands whatever they say:
    what hg_safe holds is always what the ledger says it may hold, a promotion
    changes hg_safe at most once, and never after it was journaled as not
    applied. */
module Publication {
  import opened LtHash
  import opened Ledger
  import opened Options
  import opened PartSums
  import opened Partition

  ghost predicate Known(c: Cell) {
    c.unsafe + c.safe + c.shadowBase + c.shadowAdded <= c.written.Keys
  }

  /** hg_safe is at the ledger's base or, with a pending intent, at that
      intent's post root. */
  ghost predicate SafeAtLedger(c: Cell) {
    var root := Root(c.safe, c.written);
    match c.led.intent
    case None => root == Parse(c.led.base)
    case Some(i) =>
      && i.promotionSeq > c.led.watermark
      && i.base == c.led.base
      && ValidHashes(i.candidateHashes)
      && i.post == Add(Parse(i.base), Sum(Values(i.candidateHashes)))
      && (root == Parse(c.led.base) || root == i.post)
  }

  /** A handler that has not replaced hg_safe works on a new command over the
      current base. */
  ghost predicate Building(c: Cell, cmd: Promotion) {
    && cmd.promotionSeq > c.led.watermark
    && cmd.base == c.led.base
    && (c.led.intent.Some? ==> Matches(c.led.intent.value, cmd))
    && Root(c.safe, c.written) == Parse(c.led.base)
    && ValidCandidates(cmd)
    && c.shadowBase == if cmd.base.Unset? then {} else c.safe
  }

  ghost predicate HandlerOk(c: Cell) {
    match c.pc
    case Idle => true
    case Journaled(cmd) =>
      Building(c, cmd) && c.led.intent.Some? && ShadowRoot(c) == Post(cmd) && ShadowDistinct(c)
    case Replaced(cmd) =>
      && cmd.promotionSeq > c.led.watermark && cmd.base == c.led.base && ValidCandidates(cmd)
      && c.led.intent.Some? && Matches(c.led.intent.value, cmd) && Root(c.safe, c.written) == Post(cmd)
    case _ => Building(c, c.pc.cmd)
  }

  ghost predicate HistoryOk(c: Cell) {
    && (forall s :: c.changes[s] <= 1)
    && (forall s :: s in c.changes && s > c.led.watermark ==>
      && c.led.intent.Some? && c.led.intent.value.promotionSeq == s
      && Root(c.safe, c.written) == c.led.intent.value.post != Parse(c.led.base))
    && (forall s :: s in c.refusals ==> s <= c.led.watermark && s !in c.changes)
  }

  ghost predicate Publishable(c: Cell) {
    Known(c) && SafeAtLedger(c) && HandlerOk(c) && HistoryOk(c)
  }

  lemma ShadowRootIsUnion(c: Cell)
    requires c.shadowBase !! c.shadowAdded
    ensures Root(c.shadowBase + c.shadowAdded, c.written) == ShadowRoot(c)
  {
    RootUnion(c.shadowBase, c.shadowAdded, c.written);
  }

  lemma FrameDistinct(s: set<string>, w: Contents, w': Contents)
    requires DistinctHashes(s, w)
    requires forall n :: n in s ==> Content(w, n) == Content(w', n)
    ensures DistinctHashes(s, w')
  {
    hide OfRows;
  }

  lemma WriteKeepsHandler(c: Cell, c': Cell)
    requires HandlerOk(c) && c' == c.(unsafe := c'.unsafe, written := c'.written)
    requires Root(c.safe, c.written) == Root(c.safe, c'.written) && ShadowRoot(c) == ShadowRoot(c')
    requires forall n :: n in c.shadowBase + c.shadowAdded ==> Content(c.written, n) == Content(c'.written, n)
    ensures HandlerOk(c')
  {
    hide Root, ShadowRoot, DistinctHashes, ValidCandidates, Content;
    if c.pc.Journaled? {
      FrameDistinct(c.shadowBase + c.shadowAdded, c.written, c'.written);
    }
  }

  lemma WriteKeepsPublishable(c: Cell, name: string, rows: multiset<Row>, c': Cell)
    requires Publishable(c) && name !in c.written
    requires c' == c.(unsafe := c.unsafe + {name}, written := c.written[name := rows])
    ensures Publishable(c')
  {
    hide Add, Sum, RowsOf, OfRows, HandlerOk;
    RowsOfFrame(c.safe, c.written, c'.written);
    RowsOfFrame(c.shadowBase, c.written, c'.written);
    RowsOfFrame(c.shadowAdded, c.written, c'.written);
    WriteKeepsHandler(c, c');
  }

  /** Accounting and cleanup writes leave alone what publication depends on. */
  ghost predicate SamePublication(c: Cell, c': Cell) {
    && c'.led.watermark == c.led.watermark && c'.led.base == c.led.base && c'.led.intent == c.led.intent
    && c'.safe == c.safe && c'.shadowBase == c.shadowBase && c'.shadowAdded == c.shadowAdded && c'.pc == c.pc
    && c'.written == c.written && c'.unsafe <= c.unsafe && c'.changes == c.changes && c'.refusals == c.refusals
  }

  lemma {:induction false} RemoveRejectedFrame(e: Entry, parts: seq<PartRef>)
    ensures RemoveRejected(e, parts) ==
      e.(unpromotedSum := RemoveRejected(e, parts).unpromotedSum, intakeParts := RemoveRejected(e, parts).intakeParts)
    decreases |parts|
  {
    if parts != [] {
      var p := parts[0];
      var e1 := if p.name !in e.intakeParts || e.intakeParts[p.name] == Unset then e
                else e.(unpromotedSum := Value(Sub(Parse(e.unpromotedSum), Parse(p.rowHash))),
                        intakeParts := e.intakeParts[p.name := Unset]);
      RemoveRejectedFrame(e1, parts[1..]);
    }
  }

  predicate OutsidePromotion(s: Step) {
    s.Record? || s.Discard? || s.Exclude? || s.CleanupDrop? || s.ExecuteCleanup? || s.Reject? || s.Accept? || s.Clear? || s.Refresh?
  }

  lemma CleanupKeepsPublication(k: PartitionKey, c: Cell, s: Step, c': Cell)
    requires Next(k, c, s, c') && s.ExecuteCleanup?
    ensures SamePublication(c, c')
  {
    hide Builds, Answers, Intakes, Without, RejectedPartsOk, RemoveRejected, Names;
    RemoveRejectedFrame(c.led, s.cleanup.parts);
  }

  lemma AccountKeepsPublication(k: PartitionKey, c: Cell, s: Step, c': Cell)
    requires Next(k, c, s, c') && (s.Record? || s.Exclude? || s.Refresh?)
    ensures SamePublication(c, c')
  {
    hide Builds, Cleans, Add, Sub, PartHash, AckedInventoryOf, KeepInventory, Parse;
  }

  lemma OutsideKeepsPublication(k: PartitionKey, c: Cell, s: Step, c': Cell)
    requires Next(k, c, s, c') && OutsidePromotion(s)
    ensures SamePublication(c, c')
  {
    hide PartHash, RecordExecutedCleanup, RecordRefreshedAck, AddUnpromotedPart, RemoveUnpromotedPart, Names;
    if s.ExecuteCleanup? {
      CleanupKeepsPublication(k, c, s, c');
    } else if s.Record? || s.Exclude? || s.Refresh? {
      AccountKeepsPublication(k, c, s, c');
    }
  }

  lemma OutsideKeepsPublishable(k: PartitionKey, c: Cell, s: Step, c': Cell)
    requires Publishable(c) && Next(k, c, s, c') && OutsidePromotion(s)
    ensures Publishable(c')
  {
    hide Add, Sum, RowsOf, OfRows, DistinctHashes, ValidCandidates, Next;
    OutsideKeepsPublication(k, c, s, c');
  }

  lemma StartKeepsPublishable(k: PartitionKey, c: Cell, cmd: Promotion, c': Cell)
    requires Publishable(c) && Next(k, c, Start(cmd), c')
    ensures Publishable(c')
  {
    hide Answers, Intakes, Cleans, Add, Sum, RowsOf, OfRows, DistinctHashes, ValidCandidates;
  }

  lemma CopyKeepsPublishable(k: PartitionKey, c: Cell, s: Step, c': Cell)
    requires Publishable(c) && Next(k, c, s, c') && (s.ChoosePath? || s.CopyWhole? || s.CopySubset? || s.Stop?)
    ensures Publishable(c')
  {
    hide Intakes, Cleans, Add, Sum, RowsOf, OfRows, DistinctHashes, ValidCandidates, MatchedSubset;
  }

  lemma JournalKeepsPublishable(k: PartitionKey, c: Cell, before: seq<SafePart>, c': Cell)
    requires Publishable(c) && Next(k, c, Journal(before), c')
    ensures Publishable(c')
  {
    hide Answers, Intakes, Cleans, Add, Sum, RowsOf, OfRows, DistinctHashes, ValidHashes;
  }

  lemma ReplaceKeepsPublishable(k: PartitionKey, c: Cell, c': Cell)
    requires Publishable(c) && Next(k, c, Replace, c')
    ensures Publishable(c')
  {
    hide Answers, Intakes, Cleans, Add, Sum, RowsOf, OfRows;
    ShadowRootIsUnion(c);
  }

  lemma AppliedKeepsPublishable(k: PartitionKey, c: Cell, s: Step, c': Cell)
    requires Publishable(c) && Next(k, c, s, c') && (s.Finish? || s.Recover?)
    ensures Publishable(c')
  {
    hide Builds, Intakes, Cleans, Add, Sum, RowsOf, OfRows, DistinctHashes, ValidCandidates;
  }

  lemma RefuseKeepsPublishable(k: PartitionKey, c: Cell, cmd: Promotion, ack: PromotionAck, c': Cell)
    requires Publishable(c) && Next(k, c, RefuseBase(cmd, ack), c')
    ensures Publishable(c')
  {
    hide Builds, Intakes, Cleans, Add, Sum, RowsOf, OfRows, DistinctHashes, ValidCandidates, AckedInventoryOf,
         HandlerOk, Root;
    HandlerIdle(c');
  }

  lemma SettleKeepsPublishable(k: PartitionKey, c: Cell, cmd: Promotion, ack: PromotionAck, c': Cell)
    requires Publishable(c) && Next(k, c, Settle(cmd, ack), c')
    ensures Publishable(c')
  {
    hide Builds, Intakes, Cleans, Add, Sum, RowsOf, OfRows, DistinctHashes, ValidCandidates, AckedInventoryOf,
         HandlerOk, Root;
    HandlerIdle(c');
  }

  lemma HandlerIdle(c': Cell)
    ensures c'.pc.Idle? ==> HandlerOk(c')
  {}

  /** Every step of every actor keeps the invariant. */
  lemma StepKeepsPublishable(k: PartitionKey, c: Cell, s: Step, c': Cell)
    requires Publishable(c) && Next(k, c, s, c')
    ensures Publishable(c')
  {
    hide Publishable;
    if s.Write? {
      WriteKeepsPublishable(c, s.name, s.rows, c');
    } else if s.Replace? {
      ReplaceKeepsPublishable(k, c, c');
    } else if s.Finish? || s.Recover? {
      AppliedKeepsPublishable(k, c, s, c');
    } else if s.RefuseBase? || s.Settle? {
      if s.Settle? { SettleKeepsPublishable(k, c, s.cmd, s.ack, c'); } else { RefuseKeepsPublishable(k, c, s.cmd, s.ack, c'); }
    } else if OutsidePromotion(s) {
      OutsideKeepsPublishable(k, c, s, c');
    } else if s.Start? {
      StartKeepsPublishable(k, c, s.cmd, c');
    } else if s.Journal? {
      JournalKeepsPublishable(k, c, s.before, c');
    } else {
      CopyKeepsPublishable(k, c, s, c');
    }
  }

  // ---- whole runs ---------------------------------------------------------

  /** `cells` is what a partition goes through under `steps`, from nothing. */
  ghost predicate IsRun(k: PartitionKey, cells: seq<Cell>, steps: seq<Step>) {
    && |cells| == |steps| + 1
    && cells[0] == Fresh
    && forall i :: 0 <= i < |steps| ==> Next(k, cells[i], steps[i], cells[i + 1])
  }

  /** In every state of every run hg_safe is at the ledger's base, or a pending
      intent is newer than the watermark, is over that base, and hg_safe is at
      the base or at the intent's post root. */
  lemma {:induction false} EveryRunPublishable(k: PartitionKey, cells: seq<Cell>, steps: seq<Step>, i: nat)
    requires IsRun(k, cells, steps) && i < |cells|
    ensures Publishable(cells[i])
  {
    hide Next, Publishable;
    if i == 0 {
      FreshPublishable();
    } else {
      EveryRunPublishable(k, cells, steps, i - 1);
      StepKeepsPublishable(k, cells[i - 1], steps[i - 1], cells[i]);
    }
  }

  lemma FreshPublishable()
    ensures Publishable(Fresh)
  {
    assert Root<string>({}, map[]) == Zero;
  }

  lemma StepAdvances(k: PartitionKey, c: Cell, s: Step, c': Cell)
    requires Publishable(c) && Next(k, c, s, c')
    ensures c.led.watermark <= c'.led.watermark && c.changes <= c'.changes
  {
    hide Add, Sum, RowsOf, OfRows, DistinctHashes, ValidCandidates, MatchedSubset, SafeAtLedger, HistoryOk;
    if OutsidePromotion(s) {
      OutsideKeepsPublication(k, c, s, c');
    }
  }

  lemma {:induction false} RunAdvances(k: PartitionKey, cells: seq<Cell>, steps: seq<Step>, i: nat, j: nat)
    requires IsRun(k, cells, steps) && i <= j < |cells|
    ensures cells[i].led.watermark <= cells[j].led.watermark && cells[i].changes <= cells[j].changes
    decreases j - i
  {
    hide Next, Publishable;
    if i < j {
      EveryRunPublishable(k, cells, steps, i);
      StepAdvances(k, cells[i], steps[i], cells[i + 1]);
      RunAdvances(k, cells, steps, i + 1, j);
    }
  }

  /** Once a promotion was journaled as not applied, no REPLACE of it follows. */
  lemma NoPublicationAfterRefusal(k: PartitionKey, cells: seq<Cell>, steps: seq<Step>, i: nat, j: nat)
    requires IsRun(k, cells, steps) && i < j < |steps|
    requires (steps[i].RefuseBase? || steps[i].Settle?) && steps[j].Replace?
    ensures cells[j].pc.Journaled? && cells[j].pc.cmd.promotionSeq != steps[i].cmd.promotionSeq
  {
    hide Add, Sum, RowsOf, OfRows, DistinctHashes, ValidCandidates, SafeAtLedger, HistoryOk;
    assert Next(k, cells[i], steps[i], cells[i + 1]);
    assert Next(k, cells[j], steps[j], cells[j + 1]);
    RunAdvances(k, cells, steps, i + 1, j);
    EveryRunPublishable(k, cells, steps, j);
  }

  /** A second REPLACE of one promotion only ever follows one that left the
      content of hg_safe as it was: its candidates sum to zero. */
  lemma PublishedOnce(k: PartitionKey, cells: seq<Cell>, steps: seq<Step>, i: nat, j: nat)
    requires IsRun(k, cells, steps) && i < j < |steps|
    requires steps[i].Replace? && steps[j].Replace?
    requires cells[i].pc.Journaled? && cells[j].pc.Journaled?
    requires cells[i].pc.cmd.promotionSeq == cells[j].pc.cmd.promotionSeq
    ensures Post(cells[i].pc.cmd) == Parse(cells[i].pc.cmd.base)
  {
    hide Add, Sum, RowsOf, OfRows, DistinctHashes, ValidCandidates, MatchedSubset;
    var c := cells[i];
    assert Next(k, c, steps[i], cells[i + 1]);
    EveryRunPublishable(k, cells, steps, i);
    EveryRunPublishable(k, cells, steps, j);
    ShadowRootIsUnion(c);
    if Post(c.pc.cmd) != Parse(c.pc.cmd.base) {
      assert c.pc.cmd.promotionSeq in cells[i + 1].changes;
      RunAdvances(k, cells, steps, i + 1, j);
    }
  }

  /** A handler that stops after REPLACE is recognised by the redelivered
      command exactly when the candidates changed the root; otherwise the
      command is taken for one that never published and runs REPLACE again. */
  lemma RecognisedExactlyWhenContentChanged(c: Cell, cmd: Promotion)
    requires Publishable(c) && c.pc == Replaced(cmd)
    ensures Published(c.(pc := Idle), cmd) <==> Post(cmd) != Parse(cmd.base)
    ensures Unpublished(c.(pc := Idle), cmd) <==> Post(cmd) == Parse(cmd.base)
  {
    hide Add, Sum, RowsOf, OfRows, ValidCandidates;
  }

  lemma RunGrows(k: PartitionKey, cells: seq<Cell>, steps: seq<Step>, s: Step, c': Cell)
    requires IsRun(k, cells, steps) && Next(k, cells[|steps|], s, c')
    ensures IsRun(k, cells + [c'], steps + [s])
  {
    hide Next;
  }

  /** A promotion of nothing over an empty partition. */
  const Nothing: Promotion := Promotion(1, "", Unset, [])

  /** The partition after the handler of that promotion reached `pc`. */
  ghost function During(pc: Pc, intent: Option<Intent>): Cell {
    Fresh.(pc := pc, led := EmptyEntry.(intent := intent))
  }

  lemma NothingHasZeroRoots(w: Contents)
    ensures Post(Nothing) == Zero && Root({}, w) == Zero && SetOf(Names([])) == {} && Names([]) == [] && Hashes([]) == []
  {
    AddZero(Zero);
  }

  /** From before or after a crash, the same four steps lead to REPLACE. */
  lemma NothingBuilds(k: PartitionKey, intent: Option<Intent>)
    requires intent in {None, Some(IntentFor(Nothing, []))}
    ensures Next(k, During(Idle, intent), Start(Nothing), During(Based(Nothing), intent))
    ensures Next(k, During(Based(Nothing), intent), ChoosePath, During(AttachWhole(Nothing), intent))
    ensures Next(k, During(AttachWhole(Nothing), intent), CopyWhole, During(Attached(Nothing), intent))
  {
    hide Answers, Intakes, Cleans, Root, Post, Add;
    NothingHasZeroRoots(map[]);
  }

  lemma NothingReplaces(k: PartitionKey, intent: Option<Intent>)
    requires intent in {None, Some(IntentFor(Nothing, []))}
    ensures var journaled := Some(IntentFor(Nothing, []));
      && Next(k, During(Attached(Nothing), intent), Journal([]), During(Journaled(Nothing), journaled))
      && Next(k, During(Journaled(Nothing), journaled), Replace, During(Replaced(Nothing), journaled))
      && Next(k, During(Replaced(Nothing), journaled), Stop, During(Idle, journaled))
  {
    hide Intakes, Cleans, Root, Post;
    NothingHasZeroRoots(map[]);
    assert Fresh.shadowBase + Fresh.shadowAdded == Fresh.safe;
  }

  lemma RunsToReplace(k: PartitionKey, cells: seq<Cell>, steps: seq<Step>, intent: Option<Intent>) returns (cells': seq<Cell>, steps': seq<Step>)
    requires IsRun(k, cells, steps) && cells[|steps|] == During(Idle, intent)
    requires intent in {None, Some(IntentFor(Nothing, []))}
    ensures IsRun(k, cells', steps') && |steps'| == |steps| + 5 && steps <= steps' && cells <= cells'
    ensures steps'[|steps| + 4].Replace? && cells'[|steps| + 4].pc == Journaled(Nothing)
    ensures cells'[|steps'|] == During(Replaced(Nothing), Some(IntentFor(Nothing, [])))
  {
    hide IsRun, Next, IntentFor;
    var journaled := Some(IntentFor(Nothing, []));
    NothingBuilds(k, intent);
    NothingReplaces(k, intent);
    cells', steps' := cells, steps;
    RunLength(k, cells', steps');
    RunGrows(k, cells', steps', Start(Nothing), During(Based(Nothing), intent));
    cells', steps' := cells' + [During(Based(Nothing), intent)], steps' + [Start(Nothing)];
    RunGrows(k, cells', steps', ChoosePath, During(AttachWhole(Nothing), intent));
    cells', steps' := cells' + [During(AttachWhole(Nothing), intent)], steps' + [ChoosePath];
    RunGrows(k, cells', steps', CopyWhole, During(Attached(Nothing), intent));
    cells', steps' := cells' + [During(Attached(Nothing), intent)], steps' + [CopyWhole];
    RunGrows(k, cells', steps', Journal([]), During(Journaled(Nothing), journaled));
    cells', steps' := cells' + [During(Journaled(Nothing), journaled)], steps' + [Journal([])];
    RunGrows(k, cells', steps', Replace, During(Replaced(Nothing), journaled));
    cells', steps' := cells' + [During(Replaced(Nothing), journaled)], steps' + [Replace];
  }

  /** The exception is reached: a promotion without candidates whose handler
      stops after REPLACE is replaced again when it is delivered again. */
  lemma PublishedTwice(k: PartitionKey) returns (cells: seq<Cell>, steps: seq<Step>)
    ensures IsRun(k, cells, steps) && |steps| == 11 && steps[4].Replace? && steps[10].Replace?
    ensures cells[4].pc == cells[10].pc == Journaled(Nothing)
  {
    hide IsRun, Next, IntentFor;
    var journaled := Some(IntentFor(Nothing, []));
    FreshIsRun(k);
    cells, steps := RunsToReplace(k, [Fresh], [], None);
    RunLength(k, cells, steps);
    NothingReplaces(k, None);
    RunGrows(k, cells, steps, Stop, During(Idle, journaled));
    cells, steps := RunsToReplace(k, cells + [During(Idle, journaled)], steps + [Stop], journaled);
  }

  lemma FreshIsRun(k: PartitionKey)
    ensures IsRun(k, [Fresh], [])
  {}

  lemma RunLength(k: PartitionKey, cells: seq<Cell>, steps: seq<Step>)
    requires IsRun(k, cells, steps)
    ensures |cells| == |steps| + 1
  {}
}
