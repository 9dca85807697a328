/** What the owner audit holds hg_safe to after a rebuild restored it under new
    part names: until the next promotion is applied, the restored parts. */
module RebuiltInventory {
  import opened LtHash
  import opened Ledger
  import opened Options
  import opened AuditReference
  import opened AuditPlan
  import opened AuditRepair

  /** The ledger writes that journal an acknowledgement without applying a
      promotion. */
  datatype AckWrite =
    | Refuse(ack: PromotionAck)          // a base mismatch
    | Settle(ack: PromotionAck)          // a settle's not-applied answer
    | Refresh(ack: PromotionAck)         // a stored acknowledgement completed

  function RowHashes(parts: seq<Mapping>): seq<Hex> {
    seq(|parts|, i requires 0 <= i < |parts| => parts[i].rowHash)
  }

  /** resendStoredAck completes the stored acknowledgement: it is applied and
      has no inventory, and hg_safe closes at its post root. */
  predicate Completes(e: Entry, safe: seq<Mapping>) {
    && e.lastAck.Some? && e.lastAck.value.applied && e.lastAck.value.safePartitionParts == []
    && e.lastAck.value.promotionSeq == e.watermark
    && Sum(Values(RowHashes(safe))) == Parse(e.lastAck.value.post)
  }

  /** The handlers make the write while hg_safe holds `safe`. */
  predicate Accepted(e: Entry, safe: seq<Mapping>, w: AckWrite) {
    match w
    case Refuse(ack) => !ack.applied && ack.promotionSeq > e.watermark
    case Settle(ack) => !ack.applied && ack.promotionSeq > e.watermark
    case Refresh(ack) =>
      && Completes(e, safe) && multiset(ack.safePartitionParts) == multiset(safe)
      && ack == e.lastAck.value.(parts := ack.parts, safePartitionParts := ack.safePartitionParts)
  }

  function Write(e: Entry, safe: seq<Mapping>, w: AckWrite): Entry
    requires Accepted(e, safe, w)
  {
    match w
    case Refuse(ack) => RecordAck(e, ack.promotionSeq, ack, e.base, e.baseSnapshot)
    case Settle(ack) => RecordSettledNotApplied(e, ack.promotionSeq, ack, e.base, e.baseSnapshot)
    case Refresh(ack) => RecordRefreshedAck(e, ack).value
  }

  predicate AllAccepted(e: Entry, safe: seq<Mapping>, ws: seq<AckWrite>)
    decreases |ws|
  {
    ws == [] || (Accepted(e, safe, ws[0]) && AllAccepted(Write(e, safe, ws[0]), safe, ws[1..]))
  }

  function WriteAll(e: Entry, safe: seq<Mapping>, ws: seq<AckWrite>): Entry
    requires AllAccepted(e, safe, ws)
    decreases |ws|
  {
    if ws == [] then e else WriteAll(Write(e, safe, ws[0]), safe, ws[1..])
  }

  // ---- the reference after a rebuild -------------------------------------------------

  /** The acknowledged inventory is the rebuilt one, or a newer one of the same
      parts; an empty one may have been forgotten. */
  ghost predicate Describes(e: Entry, inv: AckedInventory) {
    && inv.promotionSeq <= e.watermark
    && (|| e.acked == Some(inv)
        || (&& e.acked.Some? && !e.acked.value.rebuilt && inv.promotionSeq < e.acked.value.promotionSeq
            && multiset(e.acked.value.parts) == multiset(inv.parts))
        || (AckedInventoryOf(e).None? && inv.parts == []))
  }

  lemma EmptyMultiset<T>(s: seq<T>)
    ensures |multiset(s)| == |s|
  {}

  lemma WriteKeepsDescribes(e: Entry, inv: AckedInventory, w: AckWrite)
    requires Describes(e, inv) && Accepted(e, inv.parts, w)
    ensures Describes(Write(e, inv.parts, w), inv)
  {
    if w.Refresh? {
      EmptyMultiset(w.ack.safePartitionParts);
      EmptyMultiset(inv.parts);
    }
  }

  lemma {:induction false} WritesKeepDescribes(e: Entry, inv: AckedInventory, ws: seq<AckWrite>)
    requires Describes(e, inv) && AllAccepted(e, inv.parts, ws)
    ensures Describes(WriteAll(e, inv.parts, ws), inv)
    decreases |ws|
  {
    hide Describes, Accepted, Write;
    if ws != [] {
      WriteKeepsDescribes(e, inv, ws[0]);
      WritesKeepDescribes(Write(e, inv.parts, ws[0]), inv, ws[1..]);
    }
  }

  lemma {:induction false} MappedParts(a: seq<Mapping>, p: AuditPart)
    ensures p in LocalParts(a) <==> exists m :: m in multiset(a) && p == AuditPart(m.safeName, m.physHash)
  {
    if p in LocalParts(a) {
      var i :| 0 <= i < |a| && LocalParts(a)[i] == p;
      assert a[i] in multiset(a);
    }
    if m :| m in multiset(a) && p == AuditPart(m.safeName, m.physHash) {
      var i :| 0 <= i < |a| && a[i] == m;
      assert LocalParts(a)[i] == p;
    }
  }

  lemma SameParts(a: seq<Mapping>, b: seq<Mapping>)
    requires multiset(a) == multiset(b)
    ensures PartSet(LocalParts(a)) == PartSet(LocalParts(b))
  {
    forall p ensures p in PartSet(LocalParts(a)) <==> p in PartSet(LocalParts(b)) {
      MappedParts(a, p);
      MappedParts(b, p);
    }
  }

  /** The arbiter's state at the rebuild: its SafeParts are the restored parts
      by content. */
  ghost predicate Restored(inv: AckedInventory, state: PartitionState) {
    && inv.rebuilt && inv.promotionSeq == state.publishSeq
    && multiset(LocalContents(inv.parts)) == multiset(FsmContents(state.safeParts))
  }

  function ReferenceOf(choice: Choice): Option<Reference> {
    if choice.Chosen? then Some(choice.ref) else None
  }

  lemma DescribedIsClean(e: Entry, inv: AckedInventory, state: PartitionState, available: bool)
    requires Describes(e, inv) && Restored(inv, state)
    ensures var choice := Choose(Inputs(e.watermark, AckedInventoryOf(e), available, Some(state)));
      && !choice.Refused? && Verdict(ReferenceOf(choice), LocalParts(inv.parts)) == Clean
  {
    hide Verdict, LocalContents, FsmContents;
    var ins := Inputs(e.watermark, AckedInventoryOf(e), available, Some(state));
    var active := LocalParts(inv.parts);
    CleanHasNoLists(ReferenceOf(Choose(ins)), active);
    if AckedInventoryOf(e).Some? {
      SameParts(AckedInventoryOf(e).value.parts, inv.parts);
      CleanIffReference(Newer(ins), active);
    } else {
      NothingRestored(inv, state);
      CleanIffReference(Newer(ins), active);
      EmptyIsClean();
    }
  }

  lemma NothingRestored(inv: AckedInventory, state: PartitionState)
    requires Restored(inv, state) && inv.parts == []
    ensures state.safeParts == []
  {
    EmptyMultiset(LocalContents(inv.parts));
    EmptyMultiset(FsmContents(state.safeParts));
  }

  lemma EmptyIsClean()
    ensures Verdict(None, []).reason.None?
  {}

  /** After a rebuild whose check passed, through every refusal, settle and
      completed acknowledgement, whether or not the arbiter can be read, the
      audit judges the restored hg_safe clean and drops nothing. The arbiter's
      state is the one at the rebuild: a rebuild is refused while a promotion is
      unacknowledged, and only an applied acknowledgement changes it. */
  lemma RebuiltStaysClean(e: Entry, inv: AckedInventory, state: PartitionState, ws: seq<AckWrite>, available: bool)
    requires inv.promotionSeq <= e.watermark && Restored(inv, state)
    requires AllAccepted(WithRebuilt(e, Some(inv)), inv.parts, ws)
    ensures var after := WriteAll(WithRebuilt(e, Some(inv)), inv.parts, ws);
      var choice := Choose(Inputs(after.watermark, AckedInventoryOf(after), available, Some(state)));
      && !choice.Refused? && Verdict(ReferenceOf(choice), LocalParts(inv.parts)) == Clean
  {
    hide Restored, Verdict, Accepted, Write;
    var start := WithRebuilt(e, Some(inv));
    WritesKeepDescribes(start, inv, ws);
    DescribedIsClean(WriteAll(start, inv.parts, ws), inv, state, available);
  }

  /** A completed acknowledgement lists parts that add up to its post root. */
  lemma RefreshCloses(e: Entry, safe: seq<Mapping>, ack: PromotionAck)
    requires Accepted(e, safe, Refresh(ack))
    ensures Sum(Values(RowHashes(ack.safePartitionParts))) == Parse(ack.post)
  {
    hide Sum;
    SameTotal(ack.safePartitionParts, safe);
  }

  ghost function Total(parts: seq<Mapping>): Hash {
    Sum(Values(RowHashes(parts)))
  }

  lemma TotalPick(s: seq<Mapping>, i: nat)
    requires i < |s|
    ensures Total(s) == Add(Parse(s[i].rowHash), Total(s[..i] + s[i + 1..]))
  {
    hide Add, Sum;
    var h := Values(RowHashes(s));
    SumPick(h, i);
    assert Values(RowHashes(s[..i] + s[i + 1..])) == h[..i] + h[i + 1..];
  }

  lemma TakenOut(s: seq<Mapping>, i: nat)
    requires i < |s|
    ensures multiset(s[..i] + s[i + 1..]) == multiset(s) - multiset{s[i]}
  {
    assert s == s[..i] + [s[i]] + s[i + 1..];
  }

  lemma OneLess(a: seq<Mapping>, b: seq<Mapping>) returns (i: nat)
    requires multiset(a) == multiset(b) && a != []
    ensures i < |b| && b[i] == a[0] && multiset(a[..0] + a[1..]) == multiset(b[..i] + b[i + 1..])
  {
    assert a[0] in multiset(b);
    i :| i < |b| && b[i] == a[0];
    TakenOut(a, 0);
    TakenOut(b, i);
  }

  lemma {:induction false} SameTotal(a: seq<Mapping>, b: seq<Mapping>)
    requires multiset(a) == multiset(b)
    ensures Total(a) == Total(b)
    decreases |a|
  {
    hide Total, Add;
    if a == [] {
      EmptyMultiset(b);
    } else {
      var i := OneLess(a, b);
      TotalPick(a, 0);
      TotalPick(b, i);
      SameTotal(a[..0] + a[1..], b[..i] + b[i + 1..]);
    }
  }

  // ---- the record itself ------------------------------------------------------------------

  /** Every such history leaves the rebuilt record as it is. */
  ghost predicate Keeps(e: Entry, inv: AckedInventory, ws: seq<AckWrite>) {
    AllAccepted(e, inv.parts, ws) ==> WriteAll(e, inv.parts, ws).acked == Some(inv)
  }

  /** The stored acknowledgement can be completed, and is of a promotion after
      the rebuilt one. */
  ghost predicate Outrun(e: Entry, inv: AckedInventory) {
    Completes(e, inv.parts) && e.watermark > inv.promotionSeq
  }

  lemma {:induction false} RecordStays(e: Entry, inv: AckedInventory, ws: seq<AckWrite>)
    requires e.acked == Some(inv) && !Outrun(e, inv) && AllAccepted(e, inv.parts, ws)
    ensures WriteAll(e, inv.parts, ws).acked == Some(inv)
    decreases |ws|
  {
    hide Sum;
    if ws != [] {
      RecordStays(Write(e, inv.parts, ws[0]), inv, ws[1..]);
    }
  }

  /** The rebuilt record stays exactly unless the stored acknowledgement outruns
      it; completing that one writes the same parts at its own number. */
  lemma RecordStaysExactly(e: Entry, inv: AckedInventory)
    requires e.acked == Some(inv) && inv.rebuilt
    ensures (forall ws :: Keeps(e, inv, ws)) <==> !Outrun(e, inv)
  {
    hide Sum;
    if Outrun(e, inv) {
      var ack := e.lastAck.value.(safePartitionParts := inv.parts);
      var ws := [Refresh(ack)];
      assert ws[1..] == [];
      assert AllAccepted(Write(e, inv.parts, ws[0]), inv.parts, []);
      assert WriteAll(e, inv.parts, ws).acked == KeepInventory(e.acked, ack);
      assert !Keeps(e, inv, ws);
    } else {
      forall ws ensures Keeps(e, inv, ws) {
        if AllAccepted(e, inv.parts, ws) { RecordStays(e, inv, ws); }
      }
    }
  }
}
