/** What each ledger write is for, said about the entry before and after it. */
module LedgerEffects {
  import opened LtHash
  import opened Ledger
  import opened Options

  /** A new intent is journaled, and the same command's is refreshed: only the
      parts of hg_safe it saw may differ. */
  lemma BeginEffect(e: Entry, i: Intent)
    ensures Begin(e, i).None? <==>
      && e.intent.Some?
      && var was := e.intent.value;
      || was.promotionSeq != i.promotionSeq || was.base != i.base || was.post != i.post || was.baseSnapshot != i.baseSnapshot
      || was.candidateHashes != i.candidateHashes || was.unsafeNames != i.unsafeNames
    ensures Begin(e, i).Some? ==> Begin(e, i).value == e.(intent := Some(i))
  {}

  /** Which inventory the entry holds hg_safe to: the recorded one, or the one
      an applied last acknowledgement lists. */
  ghost predicate Acknowledges(e: Entry, ps: nat, parts: seq<Mapping>, rebuilt: bool) {
    || e.acked == Some(AckedInventory(ps, parts, rebuilt))
    || (&& e.acked.None? && e.lastAck.Some? && e.lastAck.value.applied && !rebuilt && parts != []
        && e.lastAck.value.promotionSeq == ps && e.lastAck.value.safePartitionParts == parts)
  }

  lemma AcknowledgesIs(e: Entry, ps: nat, parts: seq<Mapping>, rebuilt: bool)
    ensures AckedInventoryOf(e) == Some(AckedInventory(ps, parts, rebuilt)) <==> Acknowledges(e, ps, parts, rebuilt)
  {}

  /** A refusal is the last acknowledgement, and the inventory known before is
      still known, and written down. */
  lemma AckEffect(e: Entry, seqno: nat, ack: PromotionAck, base: Hex, snapshot: string, ps: nat, parts: seq<Mapping>, rebuilt: bool)
    ensures var e' := RecordAck(e, seqno, ack, base, snapshot);
      && e' == e.(watermark := seqno, lastAck := Some(ack), base := base, baseSnapshot := snapshot, acked := e'.acked)
      && (Acknowledges(e, ps, parts, rebuilt) <==> e'.acked == Some(AckedInventory(ps, parts, rebuilt)))
  {}

  lemma SettleEffect(e: Entry, seqno: nat, ack: PromotionAck, base: Hex, snapshot: string)
    ensures var e' := RecordSettledNotApplied(e, seqno, ack, base, snapshot);
      && e'.intent == (if e.intent.Some? && e.intent.value.promotionSeq == seqno then None else e.intent)
      && e' == RecordAck(e, seqno, ack, base, snapshot).(intent := e'.intent)
  {}

  /** Only the stored acknowledgement is refreshed, and it completes the
      inventory exactly if none as new is known. */
  lemma RefreshEffect(e: Entry, ack: PromotionAck)
    ensures RecordRefreshedAck(e, ack).Some? <==>
      && e.watermark == ack.promotionSeq && e.lastAck.Some?
      && e.lastAck.value == ack.(parts := e.lastAck.value.parts, safePartitionParts := e.lastAck.value.safePartitionParts)
    ensures RecordRefreshedAck(e, ack).Some? ==>
      && var e' := RecordRefreshedAck(e, ack).value;
      && e' == e.(lastAck := Some(ack), acked := e'.acked)
      && (!ack.applied ==> e'.acked == e.acked)
      && ((exists ps: nat, parts, rebuilt :: Acknowledges(e, ps, parts, rebuilt) && ps >= ack.promotionSeq) ==> e'.acked == e.acked)
      && (ack.applied && (forall ps: nat, parts, rebuilt :: Acknowledges(e, ps, parts, rebuilt) ==> ps < ack.promotionSeq) ==>
        e'.acked == if ack.safePartitionParts == [] then None else Some(AckedInventory(ack.promotionSeq, ack.safePartitionParts, false)))
  {
    var inv := AckedInventoryOf(e);
    if inv.Some? { AcknowledgesIs(e, inv.value.promotionSeq, inv.value.parts, inv.value.rebuilt); }
    forall ps: nat, parts, rebuilt | Acknowledges(e, ps, parts, rebuilt) ensures inv == Some(AckedInventory(ps, parts, rebuilt)) {
      AcknowledgesIs(e, ps, parts, rebuilt);
    }
  }

  /** An applied promotion's complete partition becomes the inventory; its
      hashes leave the sum and its names join the exclusion. */
  lemma AppliedEffect(e: Entry, seqno: nat, ack: PromotionAck, base: Hex, snapshot: string, hs: seq<Hex>, names: seq<string>)
    ensures var e' := RecordApplied(e, seqno, ack, base, snapshot, hs, names);
      && e' == e.(watermark := seqno, lastAck := Some(ack), base := base, baseSnapshot := snapshot, intent := None,
                  unpromotedSum := e'.unpromotedSum, promotedUnsafe := e'.promotedUnsafe, acked := e'.acked)
      && (ack.applied ==>
        e'.acked == if ack.safePartitionParts == [] then None else Some(AckedInventory(ack.promotionSeq, ack.safePartitionParts, false)))
      && Add(Parse(e'.unpromotedSum), Sum(Values(hs))) == Parse(e.unpromotedSum)
      && e.promotedUnsafe <= e'.promotedUnsafe
      && (forall n :: n in e'.promotedUnsafe <==> n in e.promotedUnsafe || (n in names && n != ""))
      && (Once(e.promotedUnsafe) ==> Once(e'.promotedUnsafe))
  {
    hide Add, Sub, Sum, SubtractAll, MergeNames;
    Drained(Parse(e.unpromotedSum), hs);
    forall n ensures n in MergeNames(e.promotedUnsafe, names) <==> n in e.promotedUnsafe || (n in names && n != "") {
      MergeNamesMembers(e.promotedUnsafe, names, n);
    }
    MergedOnce(e.promotedUnsafe, names);
  }

  lemma {:induction false} Drained(x: Hash, hs: seq<Hex>)
    ensures Add(SubtractAll(x, hs), Sum(Values(hs))) == x
    decreases |hs|
  {
    if hs == [] {
      AddZero(x);
    } else {
      var h, rest := Parse(hs[0]), Sum(Values(hs[1..]));
      assert Values(hs)[1..] == Values(hs[1..]);
      Drained(Sub(x, h), hs[1..]);
      AddCommutes(h, rest);
      AddAssociates(SubtractAll(Sub(x, h), hs[1..]), rest, h);
      AddSub(x, h);
    }
  }

  ghost predicate Once(names: seq<string>) {
    forall i, j :: 0 <= i < j < |names| ==> names[i] != names[j]
  }

  lemma {:induction false} MergedOnce(existing: seq<string>, names: seq<string>)
    ensures existing <= MergeNames(existing, names) && (Once(existing) ==> Once(MergeNames(existing, names)))
    decreases |names|
  {
    if names != [] {
      MergedOnce(if names[0] == "" || names[0] in existing then existing else existing + [names[0]], names[1..]);
    }
  }

  /** A part is counted once; the same part again changes nothing, and another
      hash under its name is refused, as is any hash after it was removed. */
  lemma AddEffect(e: Entry, name: string, h: Hash)
    ensures name !in e.intakeParts ==>
      AddUnpromotedPart(e, name, h)
      == Some(e.(unpromotedSum := Value(Add(Parse(e.unpromotedSum), h)), intakeParts := e.intakeParts[name := Value(h)]))
    ensures name in e.intakeParts ==> AddUnpromotedPart(e, name, h) == if e.intakeParts[name] == Value(h) then Some(e) else None
  {}

  /** A recorded part leaves the sum once; another hash is refused. */
  lemma RemoveEffect(e: Entry, name: string, h: Hash)
    ensures var r := RemoveUnpromotedPart(e, name, h);
      && (r.None? <==> name in e.intakeParts && e.intakeParts[name] !in {Unset, Value(h)})
      && (r.Some? ==>
        && r.value == e.(unpromotedSum := r.value.unpromotedSum, intakeParts := e.intakeParts[name := Unset])
        && if name in e.intakeParts && e.intakeParts[name] == Unset then r.value == e
           else Add(Parse(r.value.unpromotedSum), h) == Parse(e.unpromotedSum))
  {
    hide Add, Sub;
    AddSub(Parse(e.unpromotedSum), h);
    if name in e.intakeParts && e.intakeParts[name] == Unset { assert e.intakeParts[name := Unset] == e.intakeParts; }
  }

  /** An executed cleanup takes its parts out of the exclusion and is owed; a
      rejected-part cleanup marks the recorded ones as removed. */
  lemma CleanupWrites(e: Entry, k: PartitionKey, c: Cleanup, ack: CleanupAck)
    ensures RecordExecutedCleanup(e, k, c, ack).Some? <==>
      && ack.id.promotionSeq == c.promotionSeq && ack.id.rejectedBlockSeq == c.rejectedBlockSeq
      && (c.rejectedBlockSeq != 0 ==>
        && c.promotionSeq == 0
        && forall p :: p in c.parts ==>
          p.at == k && p.name != "" && (p.name in e.intakeParts ==> e.intakeParts[p.name] in {Unset, p.rowHash}))
    ensures RecordExecutedCleanup(e, k, c, ack).Some? ==>
      && var e' := RecordExecutedCleanup(e, k, c, ack).value;
      && e' == e.(owed := e.owed[ack.id := ack], promotedUnsafe := e'.promotedUnsafe,
                  unpromotedSum := e'.unpromotedSum, intakeParts := e'.intakeParts)
      && (forall n :: n in e'.promotedUnsafe <==> n in e.promotedUnsafe && forall p :: p in c.parts ==> p.name != n)
      && (c.rejectedBlockSeq == 0 ==> e'.unpromotedSum == e.unpromotedSum && e'.intakeParts == e.intakeParts)
      && (c.rejectedBlockSeq != 0 ==>
        && e'.intakeParts.Keys == e.intakeParts.Keys
        && forall n :: n in e.intakeParts ==> e'.intakeParts[n] == if exists p :: p in c.parts && p.name == n then Unset else e.intakeParts[n])
  {
    hide Without, RemoveRejected;
    PartsOkOverList(e, k, c.promotionSeq, c.parts);
    RemovedMarks(e, c.parts);
    forall n ensures n in Names(c.parts) <==> exists p :: p in c.parts && p.name == n { NamesOfParts(c.parts, n); }
    var left := RemoveRejected(e, c.parts);
    var e1 := if c.rejectedBlockSeq != 0 then left else e;
    forall n ensures n in Without(e1.promotedUnsafe, Names(c.parts)) <==> n in e1.promotedUnsafe && n !in Names(c.parts) {
      WithoutMembers(e1.promotedUnsafe, Names(c.parts), n);
    }
  }

  lemma NamesOfParts(parts: seq<PartRef>, n: string)
    ensures n in Names(parts) <==> exists p :: p in parts && p.name == n
  {
    if n in Names(parts) {
      var i :| 0 <= i < |parts| && Names(parts)[i] == n;
      assert parts[i] in parts;
    }
    if p :| p in parts && p.name == n {
      var i :| 0 <= i < |parts| && parts[i] == p;
      assert Names(parts)[i] == n;
    }
  }

  lemma PartsOkOverList(e: Entry, k: PartitionKey, promotionSeq: nat, parts: seq<PartRef>)
    ensures RejectedPartsOk(e, k, promotionSeq, parts) <==>
      && promotionSeq == 0
      && forall p :: p in parts ==>
        p.at == k && p.name != "" && (p.name in e.intakeParts ==> e.intakeParts[p.name] in {Unset, p.rowHash})
  {
    if forall p :: p in parts ==>
        p.at == k && p.name != "" && (p.name in e.intakeParts ==> e.intakeParts[p.name] in {Unset, p.rowHash}) {
      forall i | 0 <= i < |parts| ensures parts[i] in parts {}
    }
  }

  lemma {:induction false} RemovedMarks(e: Entry, parts: seq<PartRef>)
    ensures var e' := RemoveRejected(e, parts);
      && e' == e.(unpromotedSum := e'.unpromotedSum, intakeParts := e'.intakeParts) && e'.intakeParts.Keys == e.intakeParts.Keys
      && forall n :: n in e.intakeParts ==> e'.intakeParts[n] == if exists p :: p in parts && p.name == n then Unset else e.intakeParts[n]
    decreases |parts|
  {
    if parts != [] {
      var p := parts[0];
      var e1 := if p.name !in e.intakeParts || e.intakeParts[p.name] == Unset then e
                else e.(unpromotedSum := Value(Sub(Parse(e.unpromotedSum), Parse(p.rowHash))), intakeParts := e.intakeParts[p.name := Unset]);
      RemovedMarks(e1, parts[1..]);
      assert forall q :: q in parts <==> q == p || q in parts[1..];
    }
  }

  /** Exactly the matching owed entry goes. */
  lemma ClearEffect(e: Entry, ack: CleanupAck)
    ensures var e' := ClearOwed(e, ack);
      && e' == e.(owed := e'.owed)
      && (forall id :: id in e'.owed <==> id in e.owed && !(id == ack.id && e.owed[id] == ack))
      && forall id :: id in e'.owed ==> e'.owed[id] == e.owed[id]
  {}

  /** Of a quiescent partition only the watermark is left. */
  lemma ForgottenIsEmpty(e: Entry)
    requires Quiescent(e)
    ensures Forgotten(e) == EmptyEntry.(watermark := e.watermark)
  {}
}
