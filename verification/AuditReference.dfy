/** Which inventory the owner audit holds hg_safe to. */
module AuditReference {
  import opened Ledger
  import opened Options
  import opened Sorting
  import opened Counting

  datatype AuditPart = AuditPart(name: string, physHash: string)

  /** One entry of the arbiter's SafeParts. */
  datatype ManifestPart = ManifestPart(name: string, rowHash: Hex, physHash: string)

  datatype PartitionState = PartitionState(publishSeq: nat, safeParts: seq<ManifestPart>)

  datatype Source = Local | Fsm | Rebuilt

  datatype Reference = Reference(source: Source, seqno: nat, parts: seq<AuditPart>)

  /** What the reference is chosen from; `fsm` is None when the arbiter knows no
      promotion of the partition, and means nothing when it could not be read. */
  datatype Inputs = Inputs(watermark: nat, local: Option<AckedInventory>, fsmAvailable: bool, fsm: Option<PartitionState>)

  datatype Reason = FsmAhead | FsmDisagrees | NoAcknowledgedInventory | UnacknowledgedPart | AcknowledgedPartMissing | UnresolvedIntent

  datatype Choice = NoReference | Chosen(ref: Reference) | Refused(reason: Reason)

  // ---- comparisons ---------------------------------------------------------------

  datatype PartContent = PartContent(rowHash: Hex, physHash: string)

  function LocalContents(parts: seq<Mapping>): seq<PartContent> {
    seq(|parts|, i requires 0 <= i < |parts| => PartContent(parts[i].rowHash, parts[i].physHash))
  }

  function FsmContents(parts: seq<ManifestPart>): seq<PartContent> {
    seq(|parts|, i requires 0 <= i < |parts| => PartContent(parts[i].rowHash, parts[i].physHash))
  }

  function LocalParts(parts: seq<Mapping>): seq<AuditPart> {
    seq(|parts|, i requires 0 <= i < |parts| => AuditPart(parts[i].safeName, parts[i].physHash))
  }

  function FsmParts(parts: seq<ManifestPart>): seq<AuditPart> {
    seq(|parts|, i requires 0 <= i < |parts| => AuditPart(parts[i].name, parts[i].physHash))
  }

  /** How many parts of the inventory have this row hash and this file hash. */
  function LocalCount(parts: seq<Mapping>, row: Hex, file: string): nat {
    if parts == [] then 0
    else LocalCount(parts[..|parts| - 1], row, file)
         + if parts[|parts| - 1].rowHash == row && parts[|parts| - 1].physHash == file then 1 else 0
  }

  function FsmCount(parts: seq<ManifestPart>, row: Hex, file: string): nat {
    if parts == [] then 0
    else FsmCount(parts[..|parts| - 1], row, file)
         + if parts[|parts| - 1].rowHash == row && parts[|parts| - 1].physHash == file then 1 else 0
  }

  lemma {:induction false} LocalCounted(parts: seq<Mapping>, row: Hex, file: string)
    ensures multiset(LocalContents(parts))[PartContent(row, file)] == LocalCount(parts, row, file)
  {
    if parts != [] {
      var n := |parts| - 1;
      LocalCounted(parts[..n], row, file);
      assert LocalContents(parts) == LocalContents(parts[..n]) + [PartContent(parts[n].rowHash, parts[n].physHash)];
    }
  }

  lemma {:induction false} FsmCounted(parts: seq<ManifestPart>, row: Hex, file: string)
    ensures multiset(FsmContents(parts))[PartContent(row, file)] == FsmCount(parts, row, file)
  {
    if parts != [] {
      var n := |parts| - 1;
      FsmCounted(parts[..n], row, file);
      assert FsmContents(parts) == FsmContents(parts[..n]) + [PartContent(parts[n].rowHash, parts[n].physHash)];
    }
  }

  ghost predicate SameCounts(local: seq<Mapping>, fsm: seq<ManifestPart>) {
    forall row, file :: LocalCount(local, row, file) == FsmCount(fsm, row, file)
  }

  lemma ContentCounts(local: seq<Mapping>, fsm: seq<ManifestPart>)
    ensures multiset(LocalContents(local)) == multiset(FsmContents(fsm)) <==> SameCounts(local, fsm)
  {
    hide LocalContents, FsmContents;
    var a, b := multiset(LocalContents(local)), multiset(FsmContents(fsm));
    if a == b {
      forall row, file ensures LocalCount(local, row, file) == FsmCount(fsm, row, file) {
        LocalCounted(local, row, file);
        FsmCounted(fsm, row, file);
      }
    }
    if SameCounts(local, fsm) {
      forall x: PartContent ensures a[x] == b[x] {
        LocalCounted(local, x.rowHash, x.physHash);
        FsmCounted(fsm, x.rowHash, x.physHash);
        assert x == PartContent(x.rowHash, x.physHash);
      }
      assert a == b;
    }
  }

  /** Compares what two inventories hold, names aside. */
  method SameContent(local: seq<Mapping>, fsm: seq<ManifestPart>) returns (same: bool)
    ensures same <==> multiset(LocalContents(local)) == multiset(FsmContents(fsm))
    ensures same <==> SameCounts(local, fsm)
  {
    ContentCounts(local, fsm);
    same := SameMultiset(LocalContents(local), FsmContents(fsm));
  }

  predicate PartLe(a: AuditPart, b: AuditPart) {
    if a.name != b.name then StringLe(a.name, b.name) else StringLe(a.physHash, b.physHash)
  }

  lemma PartOrder()
    ensures TotalOrder(PartLe)
  {
    StringOrder();
  }

  function SamePartSet(a: seq<AuditPart>, b: seq<AuditPart>): bool {
    |a| == |b| && Sort(a, PartLe) == Sort(b, PartLe)
  }

  /** Comparing the sorted lists compares the multisets of (name, hash). */
  lemma SamePartSetIsMultiset(a: seq<AuditPart>, b: seq<AuditPart>)
    ensures SamePartSet(a, b) <==> multiset(a) == multiset(b)
  {
    PartOrder();
    SortedEqual(a, b, PartLe);
    if multiset(a) == multiset(b) { assert |multiset(a)| == |multiset(b)|; }
  }

  // ---- the choice ------------------------------------------------------------------

  function FsmSeq(ins: Inputs): nat {
    if ins.fsm.Some? then ins.fsm.value.publishSeq else 0
  }

  function FsmInventory(ins: Inputs): seq<AuditPart> {
    if ins.fsm.Some? then FsmParts(ins.fsm.value.safeParts) else []
  }

  /** The arbiter acknowledged a promotion this SNode has not journaled. */
  predicate Ahead(ins: Inputs) {
    ins.fsmAvailable && FsmSeq(ins) > ins.watermark
  }

  predicate Tie(ins: Inputs) {
    ins.local.Some? && ins.fsmAvailable && ins.local.value.promotionSeq == FsmSeq(ins)
  }

  predicate RebuiltTie(ins: Inputs) {
    Tie(ins) && ins.local.value.rebuilt && ins.fsm.Some?
  }

  /** The two inventories of a tie describe the same parts: by name and hash, or
      by row hash and file hash when the local one was rebuilt. */
  predicate Agree(ins: Inputs)
    requires Tie(ins)
  {
    if RebuiltTie(ins) then
      multiset(LocalContents(ins.local.value.parts)) == multiset(FsmContents(ins.fsm.value.safeParts))
    else multiset(LocalParts(ins.local.value.parts)) == multiset(FsmInventory(ins))
  }

  predicate LocalWins(ins: Inputs) {
    ins.local.Some? && (ins.fsmAvailable ==> ins.local.value.promotionSeq >= FsmSeq(ins))
  }

  /** The newer inventory, this SNode's own on a tie. */
  function Newer(ins: Inputs): Reference {
    if LocalWins(ins) then
      Reference(if RebuiltTie(ins) then Rebuilt else Local, ins.local.value.promotionSeq, LocalParts(ins.local.value.parts))
    else Reference(Fsm, FsmSeq(ins), FsmInventory(ins))
  }

  function Choose(ins: Inputs): Choice {
    if Ahead(ins) then Refused(FsmAhead)
    else if Tie(ins) && !Agree(ins) then Refused(FsmDisagrees)
    else if ins.local.None? && !ins.fsmAvailable then NoReference
    else Chosen(Newer(ins))
  }

  /** The reference is one of the inventories it was chosen from, as names and
      file hashes in their order, with its number; a missing arbiter entry is the
      empty one. */
  ghost predicate IsInventory(ins: Inputs, ref: Reference) {
    if ref.source.Fsm? then
      && ins.fsmAvailable && ref.seqno == (if ins.fsm.Some? then ins.fsm.value.publishSeq else 0)
      && |ref.parts| == (if ins.fsm.Some? then |ins.fsm.value.safeParts| else 0)
      && (ins.fsm.Some? ==> forall i :: 0 <= i < |ref.parts| ==>
        ref.parts[i].name == ins.fsm.value.safeParts[i].name && ref.parts[i].physHash == ins.fsm.value.safeParts[i].physHash)
      && (ins.local.Some? ==> ins.local.value.promotionSeq < ref.seqno)
    else
      && ins.local.Some? && ref.seqno == ins.local.value.promotionSeq && |ref.parts| == |ins.local.value.parts|
      && (forall i :: 0 <= i < |ref.parts| ==>
        ref.parts[i].name == ins.local.value.parts[i].safeName && ref.parts[i].physHash == ins.local.value.parts[i].physHash)
      && (ins.fsmAvailable && ins.fsm.Some? ==> ins.fsm.value.publishSeq <= ref.seqno)
      && (ref.source.Rebuilt? <==>
        ins.fsmAvailable && ins.local.value.rebuilt && ins.fsm.Some? && ins.fsm.value.publishSeq == ins.local.value.promotionSeq)
  }

  lemma NewerIsInventory(ins: Inputs)
    requires ins.local.Some? || ins.fsmAvailable
    ensures IsInventory(ins, Newer(ins))
  {}

  method CollectLocal(from: seq<Mapping>) returns (parts: seq<AuditPart>)
    ensures parts == LocalParts(from)
  {
    parts := [];
    for i := 0 to |from|
      invariant parts == LocalParts(from)[..i]
    {
      parts := parts + [AuditPart(from[i].safeName, from[i].physHash)];
    }
  }

  method CollectFsm(from: seq<ManifestPart>) returns (parts: seq<AuditPart>)
    ensures parts == FsmParts(from)
  {
    parts := [];
    for i := 0 to |from|
      invariant parts == FsmParts(from)[..i]
    {
      parts := parts + [AuditPart(from[i].name, from[i].physHash)];
    }
  }

  method ReferenceFor(ins: Inputs) returns (out: Choice)
    ensures out == Choose(ins)
    ensures out == Refused(FsmAhead) <==> Ahead(ins)
    ensures out == Refused(FsmDisagrees) <==> !Ahead(ins) && Tie(ins) && !Agree(ins)
    ensures out.NoReference? <==> ins.local.None? && !ins.fsmAvailable
    ensures out.Refused? ==> out.reason in {FsmAhead, FsmDisagrees}
    ensures out.Chosen? ==> out.ref == Newer(ins)
    ensures out.Chosen? && ins.local.Some? ==> ins.local.value.promotionSeq <= out.ref.seqno
    ensures out.Chosen? && ins.fsmAvailable ==> FsmSeq(ins) <= ins.watermark && FsmSeq(ins) <= out.ref.seqno
    ensures out == Refused(FsmAhead) <==> ins.fsmAvailable && ins.fsm.Some? && ins.fsm.value.publishSeq > ins.watermark
    ensures out.Chosen? ==> IsInventory(ins, out.ref)
  {
    hide LocalContents, FsmContents, LocalParts, FsmParts, Sort, IsInventory;
    if ins.local.Some? || ins.fsmAvailable { NewerIsInventory(ins); }
    var local: Option<Reference> := None;
    var fsm: Option<Reference> := None;
    if ins.local.Some? {
      var parts := CollectLocal(ins.local.value.parts);
      local := Some(Reference(Local, ins.local.value.promotionSeq, parts));
    }
    if ins.fsmAvailable {
      if ins.fsm.Some? {
        if ins.fsm.value.publishSeq > ins.watermark {
          return Refused(FsmAhead);
        }
        var parts := CollectFsm(ins.fsm.value.safeParts);
        fsm := Some(Reference(Fsm, ins.fsm.value.publishSeq, parts));
      } else {
        fsm := Some(Reference(Fsm, 0, []));
      }
    }
    if local.Some? && fsm.Some? && ins.local.value.rebuilt && ins.fsm.Some? && ins.fsm.value.publishSeq == ins.local.value.promotionSeq {
      var same := SameContent(ins.local.value.parts, ins.fsm.value.safeParts);
      if !same {
        return Refused(FsmDisagrees);
      }
      return Chosen(local.value.(source := Rebuilt));
    }
    if local.None? && fsm.None? {
      return NoReference;
    } else if fsm.None? {
      return Chosen(local.value);
    } else if local.None? {
      return Chosen(fsm.value);
    } else if fsm.value.seqno > local.value.seqno {
      return Chosen(fsm.value);
    } else if local.value.seqno > fsm.value.seqno {
      return Chosen(local.value);
    }
    SamePartSetIsMultiset(local.value.parts, fsm.value.parts);
    if SamePartSet(local.value.parts, fsm.value.parts) {
      return Chosen(local.value);
    }
    return Refused(FsmDisagrees);
  }
}
