/** One partition's share of the durable ledger, and what each ledger write
    does to it. The StateStore class keeps the shares of all partitions in flat
    maps; these functions are its specification. */
module Ledger {
  import opened LtHash
  import opened Options

  /** Hash text: empty, or an accumulator in its canonical form. */
  datatype Hex = Unset | Value(hash: Hash)

  function Parse(x: Hex): Hash {
    match x
    case Unset => Zero
    case Value(h) => h
  }

  datatype PartitionKey = PartitionKey(table: string, partition: string)

  datatype PartRef = PartRef(at: PartitionKey, name: string, rowHash: Hex)

  datatype Promotion = Promotion(promotionSeq: nat, baseSnapshot: string, base: Hex, candidates: seq<PartRef>)

  datatype Cleanup = Cleanup(promotionSeq: nat, rejectedBlockSeq: nat, parts: seq<PartRef>)

  /** The identity of one cleanup within its partition. */
  datatype CleanupId = CleanupId(promotionSeq: nat, rejectedBlockSeq: nat)

  datatype CleanupAck = CleanupAck(node: string, id: CleanupId)

  /** Where one part landed in hg_safe. */
  datatype Mapping = Mapping(rowHash: Hex, safeName: string, physHash: string)

  datatype PromotionAck = PromotionAck(
    promotionSeq: nat, post: Hex, parts: seq<Mapping>, safePartitionParts: seq<Mapping>, applied: bool)

  datatype AckedInventory = AckedInventory(promotionSeq: nat, parts: seq<Mapping>, rebuilt: bool)

  datatype SafePart = SafePart(name: string, physHash: string)

  /** The write-ahead record of a safe publication. */
  datatype Intent = Intent(
    promotionSeq: nat, base: Hex, post: Hash, baseSnapshot: string,
    candidateHashes: seq<Hex>, unsafeNames: seq<string>, safeBefore: seq<SafePart>)

  datatype Entry = Entry(
    watermark: nat,
    lastAck: Option<PromotionAck>,
    base: Hex,
    baseSnapshot: string,
    unpromotedSum: Hex,
    intakeParts: map<string, Hex>,
    promotedUnsafe: seq<string>,
    intent: Option<Intent>,
    owed: map<CleanupId, CleanupAck>,
    acked: Option<AckedInventory>)

  const EmptyEntry: Entry := Entry(0, None, Unset, "", Unset, map[], [], None, map[], None)

  // ---- promotion ------------------------------------------------------

  function SameCommand(a: Intent, b: Intent): bool {
    a.(safeBefore := b.safeBefore) == b
  }

  /** BeginPromotion; None is its refusal. */
  function Begin(e: Entry, i: Intent): Option<Entry> {
    if e.intent.Some? && !SameCommand(e.intent.value, i) then None
    else Some(e.(intent := Some(i)))
  }

  /** The recorded inventory, else the one an applied last ack carries. */
  function AckedInventoryOf(e: Entry): Option<AckedInventory> {
    if e.acked.Some? then e.acked
    else if e.lastAck.Some? && e.lastAck.value.applied && e.lastAck.value.safePartitionParts != [] then
      Some(AckedInventory(e.lastAck.value.promotionSeq, e.lastAck.value.safePartitionParts, false))
    else None
  }

  function KeepInventory(acked: Option<AckedInventory>, ack: PromotionAck): Option<AckedInventory> {
    if !ack.applied then acked
    else if ack.safePartitionParts == [] then None
    else Some(AckedInventory(ack.promotionSeq, ack.safePartitionParts, false))
  }

  function RecordAck(e: Entry, ps: nat, ack: PromotionAck, base: Hex, snapshot: string): Entry {
    e.(acked := AckedInventoryOf(e), watermark := ps, lastAck := Some(ack), base := base, baseSnapshot := snapshot)
  }

  function RecordSettledNotApplied(e: Entry, ps: nat, ack: PromotionAck, base: Hex, snapshot: string): Entry {
    var next := RecordAck(e, ps, ack, base, snapshot);
    if e.intent.Some? && e.intent.value.promotionSeq == ps then next.(intent := None) else next
  }

  function RecordRefreshedAck(e: Entry, ack: PromotionAck): Option<Entry> {
    if e.lastAck.None? || e.lastAck.value.promotionSeq != ack.promotionSeq || e.watermark != ack.promotionSeq
       || e.lastAck.value.post != ack.post || e.lastAck.value.applied != ack.applied
    then None
    else
      var inv := AckedInventoryOf(e);
      var acked := if inv.None? || inv.value.promotionSeq < ack.promotionSeq then KeepInventory(e.acked, ack) else e.acked;
      Some(e.(lastAck := Some(ack), acked := acked))
  }

  function SubtractAll(sum: Hash, hs: seq<Hex>): Hash
    decreases |hs|
  {
    if hs == [] then sum else SubtractAll(Sub(sum, Parse(hs[0])), hs[1..])
  }

  function MergeNames(existing: seq<string>, names: seq<string>): seq<string>
    decreases |names|
  {
    if names == [] then existing
    else MergeNames(if names[0] == "" || names[0] in existing then existing else existing + [names[0]], names[1..])
  }

  function RecordApplied(e: Entry, ps: nat, ack: PromotionAck, base: Hex, snapshot: string,
                         hs: seq<Hex>, names: seq<string>): Entry
  {
    e.(unpromotedSum := Value(SubtractAll(Parse(e.unpromotedSum), hs)),
       watermark := ps, lastAck := Some(ack), acked := KeepInventory(e.acked, ack),
       base := base, baseSnapshot := snapshot,
       promotedUnsafe := MergeNames(e.promotedUnsafe, names),
       intent := None)
  }

  // ---- intake accounting ----------------------------------------------

  function AddUnpromotedPart(e: Entry, name: string, h: Hash): Option<Entry> {
    if name in e.intakeParts then
      if e.intakeParts[name] == Value(h) then Some(e) else None
    else Some(e.(unpromotedSum := Value(Add(Parse(e.unpromotedSum), h)), intakeParts := e.intakeParts[name := Value(h)]))
  }

  function RemoveUnpromotedPart(e: Entry, name: string, h: Hash): Option<Entry> {
    if name in e.intakeParts && e.intakeParts[name] == Unset then Some(e)
    else if name in e.intakeParts && e.intakeParts[name] != Value(h) then None
    else Some(e.(unpromotedSum := Value(Sub(Parse(e.unpromotedSum), h)), intakeParts := e.intakeParts[name := Unset]))
  }

  // ---- cleanup ----------------------------------------------------------

  predicate RejectedPartsOk(e: Entry, k: PartitionKey, promotionSeq: nat, parts: seq<PartRef>) {
    && promotionSeq == 0
    && forall i :: 0 <= i < |parts| ==>
      && parts[i].at == k
      && parts[i].name != ""
      && (parts[i].name in e.intakeParts ==> e.intakeParts[parts[i].name] in {Unset, parts[i].rowHash})
  }

  function RemoveRejected(e: Entry, parts: seq<PartRef>): Entry
    decreases |parts|
  {
    if parts == [] then e
    else
      var p := parts[0];
      var e1 := if p.name !in e.intakeParts || e.intakeParts[p.name] == Unset then e
                else e.(unpromotedSum := Value(Sub(Parse(e.unpromotedSum), Parse(p.rowHash))),
                        intakeParts := e.intakeParts[p.name := Unset]);
      RemoveRejected(e1, parts[1..])
  }

  function Without(existing: seq<string>, names: seq<string>): seq<string> {
    if existing == [] then []
    else if existing[0] in names then Without(existing[1..], names)
    else [existing[0]] + Without(existing[1..], names)
  }

  function Names(parts: seq<PartRef>): seq<string> {
    seq(|parts|, i requires 0 <= i < |parts| => parts[i].name)
  }

  /** RecordExecutedCleanup; None is its refusal. */
  function RecordExecutedCleanup(e: Entry, k: PartitionKey, c: Cleanup, ack: CleanupAck): Option<Entry> {
    if ack.id != CleanupId(c.promotionSeq, c.rejectedBlockSeq) then None
    else if c.rejectedBlockSeq != 0 && !RejectedPartsOk(e, k, c.promotionSeq, c.parts) then None
    else
      var e1 := if c.rejectedBlockSeq != 0 then RemoveRejected(e, c.parts) else e;
      Some(e1.(promotedUnsafe := Without(e1.promotedUnsafe, Names(c.parts)), owed := e1.owed[ack.id := ack]))
  }

  function ClearOwed(e: Entry, ack: CleanupAck): Entry {
    if ack.id in e.owed && e.owed[ack.id] == ack then e.(owed := e.owed - {ack.id}) else e
  }

  /** No promotion or cleanup work of this partition is left. */
  predicate Quiescent(e: Entry) {
    e.intent.None? && e.promotedUnsafe == [] && Parse(e.unpromotedSum) == Zero && e.owed == map[]
  }

  /** What ForgetTable leaves of a partition of the forgotten table. */
  function Forgotten(e: Entry): Entry {
    EmptyEntry.(watermark := e.watermark, intent := e.intent, owed := e.owed)
  }

  /** What RecordRebuiltSafeInventories writes to a partition it has an
      inventory of. */
  function WithRebuilt(e: Entry, inv: Option<AckedInventory>): Entry {
    if inv.Some? then e.(acked := inv) else e
  }

  // ---- facts about the specification functions ----------------------------

  function Hashes(refs: seq<PartRef>): seq<Hex> {
    seq(|refs|, i requires 0 <= i < |refs| => refs[i].rowHash)
  }

  function Values(hs: seq<Hex>): seq<Hash> {
    seq(|hs|, i requires 0 <= i < |hs| => Parse(hs[i]))
  }

  lemma {:induction false} SubtractAllSum(x: Hash, hs: seq<Hex>)
    ensures SubtractAll(Add(x, Sum(Values(hs))), hs) == x
  {
    if hs == [] {
      AddZero(x);
    } else {
      var h, rest := Parse(hs[0]), Sum(Values(hs[1..]));
      assert Values(hs)[1..] == Values(hs[1..]);
      AddCommutes(h, rest);
      AddAssociates(x, rest, h);
      SubAdd(Add(x, rest), h);
      SubtractAllSum(x, hs[1..]);
    }
  }

  lemma {:induction false} MergeNamesMembers(existing: seq<string>, names: seq<string>, n: string)
    ensures n in MergeNames(existing, names) <==> n in existing || (n in names && n != "")
    decreases |names|
  {
    if names != [] {
      MergeNamesMembers(if names[0] == "" || names[0] in existing then existing else existing + [names[0]], names[1..], n);
    }
  }

  lemma {:induction false} WithoutMembers(existing: seq<string>, names: seq<string>, n: string)
    ensures n in Without(existing, names) <==> n in existing && n !in names
  {
    if existing != [] {
      WithoutMembers(existing[1..], names, n);
    }
  }
}
