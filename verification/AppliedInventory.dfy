/** An applied promotion records the whole published partition as its inventory,
    and that inventory is what the owner audit holds hg_safe to until the next
    promotion is applied. */
module AppliedInventory {
  import opened LtHash
  import opened Ledger
  import opened LedgerEffects
  import opened Options
  import opened Keys
  import opened StateStore
  import opened PartSums
  import opened Partition
  import opened Publication
  import opened AuditReference
  import opened AuditPlan
  import opened AuditRepair
  import opened SubsetMatch
  import opened SafeScan

  // ---- what is recorded ---------------------------------------------------------------------

  predicate Applies(s: Step) {
    s.Finish? || s.Recover?
  }

  /** After an applied promotion the ledger holds its acknowledgement, its
      snapshot, its post root and the partition the acknowledgement lists. */
  lemma AppliedRecords(k: PartitionKey, c: Cell, s: Step, c': Cell)
    requires Next(k, c, s, c') && Applies(s)
    ensures s.Finish? ==> c.pc.Replaced?
    ensures var cmd := if s.Finish? then c.pc.cmd else s.cmd;
      && c'.led.lastAck == Some(s.ack) && s.ack.applied && c'.led.base == s.ack.post && c'.led.baseSnapshot == cmd.baseSnapshot
      && c'.led.watermark == s.ack.promotionSeq == cmd.promotionSeq && c'.led.intent.None?
      && c'.led.acked == if s.ack.safePartitionParts == [] then None
                         else Some(AckedInventory(cmd.promotionSeq, s.ack.safePartitionParts, false))
  {
    hide Builds, Intakes, Cleans, MappingsOk, Published, Post, SubtractAll, MergeNames, Names, Hashes;
    var cmd := if s.Finish? then c.pc.cmd else s.cmd;
    AppliedEffect(c.led, cmd.promotionSeq, s.ack, Value(Post(cmd)), cmd.baseSnapshot, Hashes(cmd.candidates), Names(cmd.candidates));
  }

  /** A refusal or a not-applied answer is the last acknowledgement and raises the
      watermark; the inventory known before stays known and is written down, and
      an answered intent goes. */
  lemma RefusalRecords(k: PartitionKey, c: Cell, s: Step, c': Cell, ps: nat, parts: seq<Mapping>, rebuilt: bool)
    requires Next(k, c, s, c') && (s.RefuseBase? || s.Settle?)
    ensures c'.led == c.led.(watermark := s.cmd.promotionSeq, lastAck := Some(s.ack), acked := c'.led.acked, intent := c'.led.intent)
    ensures Acknowledges(c.led, ps, parts, rebuilt) <==> c'.led.acked == Some(AckedInventory(ps, parts, rebuilt))
    ensures c'.led.intent == if s.Settle? && c.led.intent.Some? && c.led.intent.value.promotionSeq == s.cmd.promotionSeq then None
                             else c.led.intent
  {
    hide Builds, Intakes, Cleans, Root;
    AckEffect(c.led, s.cmd.promotionSeq, s.ack, c.led.base, c.led.baseSnapshot, ps, parts, rebuilt);
    SettleEffect(c.led, s.cmd.promotionSeq, s.ack, c.led.base, c.led.baseSnapshot);
  }

  /** A completed acknowledgement replaces the stored one, and its partition is the
      inventory unless one as new is known. */
  lemma RefreshRecords(k: PartitionKey, c: Cell, ack: PromotionAck, c': Cell)
    requires Next(k, c, Refresh(ack), c')
    ensures c'.led == c.led.(lastAck := Some(ack), acked := c'.led.acked) && c.led.watermark == ack.promotionSeq
    ensures ack.applied && ack.safePartitionParts != [] && c.led.acked.None? && c.led.lastAck.value.safePartitionParts == [] ==>
      c'.led.acked == Some(AckedInventory(ack.promotionSeq, ack.safePartitionParts, false))
  {
    hide Builds, Intakes, Cleans, Root, RecordRefreshedAck;
    RefreshEffect(c.led, ack);
  }

  /** The intent names the command, its post root and the parts of hg_safe seen
      before REPLACE, also when it is journaled again. */
  lemma JournalRecords(k: PartitionKey, c: Cell, before: seq<SafePart>, c': Cell)
    requires Next(k, c, Journal(before), c')
    ensures c.pc.Attached? && var cmd := c.pc.cmd;
      c'.led == c.led.(intent := Some(Intent(cmd.promotionSeq, cmd.base, ShadowRoot(c), cmd.baseSnapshot,
                                             Hashes(cmd.candidates), Names(cmd.candidates), before)))
  {
    hide Answers, Intakes, Cleans, Root, Post, ShadowRoot, DistinctHashes;
    BeginEffect(c.led, IntentFor(c.pc.cmd, before));
  }

  /** The inventory of promotion `ps` is on record and no later one was applied. */
  ghost predicate OnRecord(e: Entry, ps: nat, parts: seq<Mapping>) {
    && e.acked == Some(AckedInventory(ps, parts, false)) && ps <= e.watermark
    && (e.lastAck.Some? && e.lastAck.value.applied ==> e.lastAck.value.promotionSeq <= ps)
  }

  lemma RefusalKeepsRecord(k: PartitionKey, c: Cell, s: Step, c': Cell, ps: nat, parts: seq<Mapping>)
    requires Next(k, c, s, c') && OnRecord(c.led, ps, parts) && (s.RefuseBase? || s.Settle?)
    ensures OnRecord(c'.led, ps, parts)
  {
    hide Builds, Intakes, Cleans, Root;
    AckEffect(c.led, s.cmd.promotionSeq, s.ack, c.led.base, c.led.baseSnapshot, ps, parts, false);
    SettleEffect(c.led, s.cmd.promotionSeq, s.ack, c.led.base, c.led.baseSnapshot);
  }

  lemma RefreshKeepsRecord(k: PartitionKey, c: Cell, ack: PromotionAck, c': Cell, ps: nat, parts: seq<Mapping>)
    requires Next(k, c, Refresh(ack), c') && OnRecord(c.led, ps, parts)
    ensures OnRecord(c'.led, ps, parts)
  {
    hide Builds, Intakes, Cleans, Root, RecordRefreshedAck;
    RefreshEffect(c.led, ack);
    assert Acknowledges(c.led, ps, parts, false);
  }

  lemma CleanupKeepsRecord(k: PartitionKey, c: Cell, cleanup: Cleanup, node: string, c': Cell, ps: nat, parts: seq<Mapping>)
    requires Next(k, c, ExecuteCleanup(cleanup, node), c') && OnRecord(c.led, ps, parts)
    ensures OnRecord(c'.led, ps, parts)
  {
    hide Builds, Answers, Intakes, RecordExecutedCleanup, Names;
    CleanupWrites(c.led, k, cleanup, CleanupAck(node, CleanupId(cleanup.promotionSeq, cleanup.rejectedBlockSeq)));
  }

  lemma StepKeepsRecord(k: PartitionKey, c: Cell, s: Step, c': Cell, ps: nat, parts: seq<Mapping>)
    requires Next(k, c, s, c') && OnRecord(c.led, ps, parts) && !Applies(s)
    ensures OnRecord(c'.led, ps, parts)
  {
    hide OnRecord;
    match s
    case RefuseBase(_, _) => RefusalKeepsRecord(k, c, s, c', ps, parts);
    case Settle(_, _) => RefusalKeepsRecord(k, c, s, c', ps, parts);
    case Refresh(ack) => RefreshKeepsRecord(k, c, ack, c', ps, parts);
    case ExecuteCleanup(cleanup, node) => CleanupKeepsRecord(k, c, cleanup, node, c', ps, parts);
    case _ => OtherKeepsRecord(k, c, s, c', ps, parts);
  }

  lemma OtherKeepsRecord(k: PartitionKey, c: Cell, s: Step, c': Cell, ps: nat, parts: seq<Mapping>)
    requires Next(k, c, s, c') && OnRecord(c.led, ps, parts) && !Applies(s)
    requires !s.RefuseBase? && !s.Settle? && !s.Refresh? && !s.ExecuteCleanup?
    ensures OnRecord(c'.led, ps, parts)
  {
    hide Root, PartHash, Add, Sub, MatchedSubset, DistinctHashes, Post, ValidHashes;
  }

  /** In every state of every run, until the next promotion is applied, the
      inventory is the one the last applied acknowledgement lists. */
  lemma {:induction false} AppliedStaysOnRecord(k: PartitionKey, cells: seq<Cell>, steps: seq<Step>, i: nat, j: nat)
    requires IsRun(k, cells, steps) && i < j < |cells| && Applies(steps[i]) && steps[i].ack.safePartitionParts != []
    requires forall m :: i < m < j ==> !Applies(steps[m])
    ensures OnRecord(cells[j].led, steps[i].ack.promotionSeq, steps[i].ack.safePartitionParts)
    decreases j
  {
    hide Next, OnRecord;
    if j == i + 1 {
      AppliedRecords(k, cells[i], steps[i], cells[j]);
      JustRecorded(cells[j].led, steps[i].ack);
    } else {
      AppliedStaysOnRecord(k, cells, steps, i, j - 1);
      StepKeepsRecord(k, cells[j - 1], steps[j - 1], cells[j], steps[i].ack.promotionSeq, steps[i].ack.safePartitionParts);
    }
  }

  lemma JustRecorded(e: Entry, ack: PromotionAck)
    requires e.lastAck == Some(ack) && e.watermark == ack.promotionSeq
    requires e.acked == Some(AckedInventory(ack.promotionSeq, ack.safePartitionParts, false))
    ensures OnRecord(e, ack.promotionSeq, ack.safePartitionParts)
  {}

  // ---- what the audit makes of it --------------------------------------------------------------

  /** The arbiter's list of the promotion, or an older one. */
  ghost predicate Behind(fsm: Option<PartitionState>, ps: nat, parts: seq<Mapping>) {
    fsm.Some? ==>
      && fsm.value.publishSeq <= ps
      && (fsm.value.publishSeq == ps ==>
        && |fsm.value.safeParts| == |parts|
        && forall i :: 0 <= i < |parts| ==>
          fsm.value.safeParts[i].name == parts[i].safeName && fsm.value.safeParts[i].physHash == parts[i].physHash)
  }

  /** The active parts are the listed ones, by name and file hash. */
  ghost predicate Listed(active: seq<AuditPart>, parts: seq<Mapping>) {
    && (forall p :: p in active ==> exists m :: m in parts && p == AuditPart(m.safeName, m.physHash))
    && (forall m :: m in parts ==> AuditPart(m.safeName, m.physHash) in active)
  }

  lemma ListedIsLocal(active: seq<AuditPart>, parts: seq<Mapping>)
    requires Listed(active, parts)
    ensures PartSet(active) == PartSet(LocalParts(parts))
  {
    forall p ensures p in active <==> p in LocalParts(parts) {
      if p in active {
        var m :| m in parts && p == AuditPart(m.safeName, m.physHash);
        var i :| 0 <= i < |parts| && parts[i] == m;
        assert LocalParts(parts)[i] == p;
      }
      if p in LocalParts(parts) {
        var i :| 0 <= i < |parts| && LocalParts(parts)[i] == p;
        assert parts[i] in parts;
      }
    }
  }

  /** The audit chooses the recorded inventory, whether or not the arbiter can be
      read, and finds nothing. */
  lemma RecordedIsReference(e: Entry, ps: nat, parts: seq<Mapping>, active: seq<AuditPart>, available: bool, fsm: Option<PartitionState>)
    requires OnRecord(e, ps, parts) && 0 < ps && Behind(fsm, ps, parts) && Listed(active, parts)
    ensures var choice := Choose(Inputs(e.watermark, AckedInventoryOf(e), available, fsm));
      && choice.Chosen? && choice.ref.source.Local? && choice.ref.seqno == ps && |choice.ref.parts| == |parts|
      && (forall i :: 0 <= i < |parts| ==> choice.ref.parts[i] == AuditPart(parts[i].safeName, parts[i].physHash))
      && Verdict(Some(choice.ref), active) == Clean
  {
    hide Verdict, LocalContents, FsmContents;
    AcknowledgesIs(e, ps, parts, false);
    var ins := Inputs(e.watermark, AckedInventoryOf(e), available, fsm);
    if fsm.Some? && fsm.value.publishSeq == ps {
      assert FsmParts(fsm.value.safeParts) == LocalParts(parts);
    }
    ListedIsLocal(active, parts);
    CleanIffReference(Newer(ins), active);
    CleanHasNoLists(Some(Newer(ins)), active);
  }

  /** Over every run: from an applied promotion on, until the next one, the audit
      of the partition it listed is clean. */
  lemma AppliedIsClean(k: PartitionKey, cells: seq<Cell>, steps: seq<Step>, i: nat, j: nat,
                       active: seq<AuditPart>, available: bool, fsm: Option<PartitionState>)
    requires IsRun(k, cells, steps) && i < j < |cells| && Applies(steps[i]) && steps[i].ack.safePartitionParts != []
    requires forall m :: i < m < j ==> !Applies(steps[m])
    requires Behind(fsm, steps[i].ack.promotionSeq, steps[i].ack.safePartitionParts) && Listed(active, steps[i].ack.safePartitionParts)
    ensures var choice := Choose(Inputs(cells[j].led.watermark, AckedInventoryOf(cells[j].led), available, fsm));
      choice.Chosen? && choice.ref.seqno == steps[i].ack.promotionSeq && Verdict(Some(choice.ref), active) == Clean
  {
    hide Next, OnRecord, Behind, Listed, Choose, Verdict, Publishable;
    AppliedStaysOnRecord(k, cells, steps, i, j);
    EveryRunPublishable(k, cells, steps, i);
    AppliedIsNew(k, cells[i], steps[i], cells[i + 1]);
    RecordedIsReference(cells[j].led, steps[i].ack.promotionSeq, steps[i].ack.safePartitionParts, active, available, fsm);
  }

  lemma AppliedIsNew(k: PartitionKey, c: Cell, s: Step, c': Cell)
    requires Publishable(c) && Next(k, c, s, c') && Applies(s)
    ensures 0 < s.ack.promotionSeq
  {
    hide Builds, Intakes, Cleans, MappingsOk, Root, Post, ApplyPromotion, SafeAtLedger, HistoryOk;
  }

  // ---- the handler's last step ----------------------------------------------------------------

  function ActiveParts(after: seq<PartInfo>): seq<AuditPart> {
    seq(|after|, i requires 0 <= i < |after| => AuditPart(after[i].name, after[i].physHash))
  }

  /** The scan lists the active parts: it has each name once and its file hash. */
  lemma ScanIsListed(after: seq<PartInfo>, scans: seq<NamedText<Hash>>, candidates: seq<NamedText<Hash>>, inv: Inventory)
    requires NameSet(scans) == ByName(after).Keys && InventoryOk(inv, ByName(after), scans, candidates)
    requires forall i, j :: 0 <= i < j < |after| ==> after[i].name != after[j].name
    ensures Listed(ActiveParts(after), inv.partition)
  {
    hide ByName, NameSet, InventoryOk, MappingOf;
    var active := ActiveParts(after);
    forall p | p in active ensures exists m :: m in inv.partition && p == AuditPart(m.safeName, m.physHash) {
      var i :| 0 <= i < |after| && active[i] == p;
      var m := PartIsScanned(after, scans, candidates, inv, i);
    }
    forall m | m in inv.partition ensures AuditPart(m.safeName, m.physHash) in active {
      var i := ScannedIsPart(after, scans, candidates, inv, m);
      assert active[i] == AuditPart(m.safeName, m.physHash);
    }
  }

  lemma PartIsScanned(after: seq<PartInfo>, scans: seq<NamedText<Hash>>, candidates: seq<NamedText<Hash>>, inv: Inventory, i: nat) returns (m: Mapping)
    requires NameSet(scans) == ByName(after).Keys && InventoryOk(inv, ByName(after), scans, candidates)
    requires i < |after| && forall i, j :: 0 <= i < j < |after| ==> after[i].name != after[j].name
    ensures m in inv.partition && m.safeName == after[i].name && m.physHash == after[i].physHash
  {
    hide ByName;
    ByNameFinds(after, i);
    assert after[i].name in NameSet(scans);
    var j :| 0 <= j < |scans| && scans[j].name == after[i].name;
    m := MappingOf(ByName(after), scans[j]);
    assert inv.partition[j] == m;
  }

  lemma ScannedIsPart(after: seq<PartInfo>, scans: seq<NamedText<Hash>>, candidates: seq<NamedText<Hash>>, inv: Inventory, m: Mapping) returns (i: nat)
    requires NameSet(scans) == ByName(after).Keys && InventoryOk(inv, ByName(after), scans, candidates)
    requires m in inv.partition && forall i, j :: 0 <= i < j < |after| ==> after[i].name != after[j].name
    ensures i < |after| && m.safeName == after[i].name && m.physHash == after[i].physHash
  {
    hide ByName;
    var j :| 0 <= j < |inv.partition| && inv.partition[j] == m;
    assert m == MappingOf(ByName(after), scans[j]) && scans[j].name in NameSet(scans);
    ByNameKnown(after, scans[j].name);
    i :| i < |after| && after[i].name == scans[j].name;
    ByNameFinds(after, i);
  }

  lemma {:induction false} ByNameFinds(after: seq<PartInfo>, i: nat)
    requires i < |after| && forall j, k :: 0 <= j < k < |after| ==> after[j].name != after[k].name
    ensures after[i].name in ByName(after) && ByName(after)[after[i].name] == after[i].physHash
  {
    if i < |after| - 1 {
      assert after[..|after| - 1][i] == after[i];
      ByNameFinds(after[..|after| - 1], i);
    }
  }

  lemma {:induction false} ByNameKnown(after: seq<PartInfo>, n: string)
    ensures n in ByName(after) ==> exists i :: 0 <= i < |after| && after[i].name == n
  {
    if after != [] && n != after[|after| - 1].name {
      ByNameKnown(after[..|after| - 1], n);
    }
  }

  /** finishAppliedPromotion: what was scanned is acknowledged and, in the same
      write, becomes the inventory the next audit holds the partition to. */
  method FinishAppliedPromotion(store: Store, k: PartitionKey, cmd: Promotion, post: Hash, inv: Inventory, durable: bool)
    returns (ack: Option<PromotionAck>)
    requires Plain(k) && WellKeyed(store.s)
    modifies store
    ensures WellKeyed(store.s) && OthersKept(old(store.s), store.s, k)
    ensures ack.Some? <==> durable
    ensures ack.None? ==> store.s == old(store.s)
    ensures ack.Some? ==>
      && ack.value == PromotionAck(cmd.promotionSeq, Value(post), inv.candidates, inv.partition, true)
      && var e, e' := EntryOf(old(store.s), k), EntryOf(store.s, k);
      && e'.lastAck == ack && e'.watermark == cmd.promotionSeq && e'.base == Value(post) && e'.baseSnapshot == cmd.baseSnapshot
      && e'.intent.None? && e'.intakeParts == e.intakeParts && e'.owed == e.owed
      && (inv.partition != [] ==> OnRecord(e', cmd.promotionSeq, inv.partition))
      && Add(Parse(e'.unpromotedSum), Sum(Values(Hashes(cmd.candidates)))) == Parse(e.unpromotedSum)
      && (forall n :: n in e'.promotedUnsafe <==> n in e.promotedUnsafe || (n in Names(cmd.candidates) && n != ""))
  {
    hide WellKeyed, EntryOf, OthersKept, Add, Sum, Values, RecordApplied, Names, Hashes;
    NothingWritten(store.s, k);
    var a := PromotionAck(cmd.promotionSeq, Value(post), inv.candidates, inv.partition, true);
    var ok := store.RecordAppliedPromotion(k, cmd.promotionSeq, a, Value(post), cmd.baseSnapshot,
                                           Hashes(cmd.candidates), Names(cmd.candidates), durable);
    if !ok {
      return None;
    }
    return Some(a);
  }
}
