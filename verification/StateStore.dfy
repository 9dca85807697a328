/** The durable ledger of all partitions: flat maps behind one lock, replaced as
    a whole by each durable write. Every operation is specified by what it does
    to one partition's entry; the others keep theirs. */
module StateStore {
  import opened LtHash
  import opened Ledger
  import opened LedgerEffects
  import opened Options
  import opened Keys
  import opened Sorting

  datatype OwedKey = OwedKey(at: PartitionKey, id: CleanupId)

  datatype LocalState = LocalState(
    watermarks: map<string, nat>,
    lastAcks: map<string, PromotionAck>,
    baseRoots: map<string, Hex>,
    baseSnapshots: map<string, string>,
    unpromotedSums: map<string, Hex>,
    intakeParts: map<string, Hex>,
    promotedUnsafe: map<string, seq<string>>,
    intents: map<string, Intent>,
    owed: map<OwedKey, CleanupAck>,
    ackedInventories: map<string, AckedInventory>)

  const NewState: LocalState := LocalState(map[], map[], map[], map[], map[], map[], map[], map[], map[], map[])

  function Get<T>(m: map<string, T>, key: string, absent: T): T {
    if key in m then m[key] else absent
  }

  function Find<T>(m: map<string, T>, key: string): Option<T> {
    if key in m then Some(m[key]) else None
  }

  ghost function NamesUnder(m: map<string, Hex>, k: PartitionKey): set<string> {
    set key | key in m && PartKeyOf(k, "") <= key :: key[|PartKeyOf(k, "")|..]
  }

  ghost function IntakeFor(m: map<string, Hex>, k: PartitionKey): map<string, Hex> {
    map n | n in NamesUnder(m, k) :: Get(m, PartKeyOf(k, n), Unset)
  }

  ghost function OwedFor(m: map<OwedKey, CleanupAck>, k: PartitionKey): map<CleanupId, CleanupAck> {
    map id | id in (set o | o in m && o.at == k :: o.id) :: m[OwedKey(k, id)]
  }

  /** One partition's share of the state. */
  ghost function EntryOf(s: LocalState, k: PartitionKey): Entry {
    var key := KeyOf(k);
    Entry(Get(s.watermarks, key, 0), Find(s.lastAcks, key), Get(s.baseRoots, key, Unset), Get(s.baseSnapshots, key, ""),
          Get(s.unpromotedSums, key, Unset), IntakeFor(s.intakeParts, k), Get(s.promotedUnsafe, key, []),
          Find(s.intents, key), OwedFor(s.owed, k), Find(s.ackedInventories, key))
  }

  lemma NamesUnderMembers(m: map<string, Hex>, k: PartitionKey, n: string)
    ensures n in NamesUnder(m, k) <==> PartKeyOf(k, n) in m
  {
    var prefix := PartKeyOf(k, "");
    assert PartKeyOf(k, n) == prefix + n;
    if n in NamesUnder(m, k) {
      var key :| key in m && prefix <= key && key[|prefix|..] == n;
      assert key == prefix + n;
    }
    if PartKeyOf(k, n) in m {
      assert prefix <= PartKeyOf(k, n) && PartKeyOf(k, n)[|prefix|..] == n;
    }
  }

  lemma IntakeValue(m: map<string, Hex>, k: PartitionKey, n: string)
    ensures n in IntakeFor(m, k) <==> PartKeyOf(k, n) in m
    ensures PartKeyOf(k, n) in m ==> IntakeFor(m, k)[n] == m[PartKeyOf(k, n)]
  {
    hide PartKeyOf;
    NamesUnderMembers(m, k, n);
  }

  /** Writing one part's record changes one name of one partition. */
  lemma IntakeUpdated(m: map<string, Hex>, k: PartitionKey, name: string, h: Hex, k': PartitionKey)
    requires Plain(k) && Plain(k')
    ensures IntakeFor(m[PartKeyOf(k, name) := h], k') == if k' == k then IntakeFor(m, k)[name := h] else IntakeFor(m, k')
  {
    hide PartKeyOf, NamesUnder, Plain;
    var m' := m[PartKeyOf(k, name) := h];
    forall n ensures n in NamesUnder(m', k') <==> n in NamesUnder(m, k') || (k' == k && n == name) {
      NamesUnderMembers(m', k', n);
      NamesUnderMembers(m, k', n);
      if PartKeyOf(k', n) == PartKeyOf(k, name) { PartKeyInjective(k', n, k, name); }
    }
    forall n | n in NamesUnder(m', k') ensures Get(m', PartKeyOf(k', n), Unset) == if k' == k && n == name then h else Get(m, PartKeyOf(k', n), Unset) {
      if PartKeyOf(k', n) == PartKeyOf(k, name) { PartKeyInjective(k', n, k, name); }
    }
  }

  lemma OwedUpdated(m: map<OwedKey, CleanupAck>, k: PartitionKey, id: CleanupId, ack: CleanupAck, k': PartitionKey)
    ensures OwedFor(m[OwedKey(k, id) := ack], k') == if k' == k then OwedFor(m, k)[id := ack] else OwedFor(m, k')
  {
    var m' := m[OwedKey(k, id) := ack];
    forall x ensures x in OwedFor(m', k') <==> x in OwedFor(m, k') || (k' == k && x == id) {
      OwedMembers(m', k', x);
      OwedMembers(m, k', x);
    }
  }

  lemma OwedMembers(m: map<OwedKey, CleanupAck>, k: PartitionKey, id: CleanupId)
    ensures id in OwedFor(m, k) <==> OwedKey(k, id) in m
  {
    if OwedKey(k, id) in m { assert OwedKey(k, id).id in (set o | o in m && o.at == k :: o.id); }
  }

  lemma OwedRemoved(m: map<OwedKey, CleanupAck>, k: PartitionKey, id: CleanupId, k': PartitionKey)
    ensures OwedFor(m - {OwedKey(k, id)}, k') == if k' == k then OwedFor(m, k) - {id} else OwedFor(m, k')
  {
    var m' := m - {OwedKey(k, id)};
    forall x ensures x in OwedFor(m', k') <==> x in OwedFor(m, k') && !(k' == k && x == id) {
      OwedMembers(m', k', x);
      OwedMembers(m, k', x);
    }
  }

  /** The state differs from `s` only in partition `k`, whose entry is `e`. */
  ghost predicate Only(s: LocalState, s': LocalState, k: PartitionKey, e: Entry) {
    EntryOf(s', k) == e && OthersKept(s, s', k)
  }

  ghost predicate OthersKept(s: LocalState, s': LocalState, k: PartitionKey) {
    forall k' :: Plain(k') && k' != k ==> EntryOf(s', k') == EntryOf(s, k')
  }

  // ---- well-formed keys -------------------------------------------------------------------------------

  ghost predicate IsKey(key: string) {
    exists k :: Plain(k) && KeyOf(k) == key
  }

  ghost predicate IsPartKey(key: string) {
    exists k, n :: Plain(k) && PartKeyOf(k, n) == key
  }

  ghost predicate Keyed<T>(m: map<string, T>) {
    forall key :: key in m ==> IsKey(key)
  }

  ghost predicate PartKeyed(m: map<string, Hex>) {
    forall key :: key in m ==> IsPartKey(key)
  }

  ghost predicate OwedPlain(m: map<OwedKey, CleanupAck>) {
    forall o :: o in m ==> Plain(o.at)
  }

  /** Every key belongs to a partition whose ids hold no NUL. */
  ghost predicate WellKeyed(s: LocalState) {
    && Keyed(s.lastAcks) && Keyed(s.baseRoots) && Keyed(s.baseSnapshots) && Keyed(s.unpromotedSums) && Keyed(s.promotedUnsafe)
    && Keyed(s.intents) && Keyed(s.ackedInventories)
    && PartKeyed(s.intakeParts) && OwedPlain(s.owed)
  }

  // ---- writing one field of one partition ----------------------------------------------------------------

  lemma EntryReads(s: LocalState, k: PartitionKey)
    ensures var e, key := EntryOf(s, k), KeyOf(k);
      && e.watermark == Get(s.watermarks, key, 0) && e.lastAck == Find(s.lastAcks, key) && e.base == Get(s.baseRoots, key, Unset)
      && e.baseSnapshot == Get(s.baseSnapshots, key, "") && e.unpromotedSum == Get(s.unpromotedSums, key, Unset)
      && e.intakeParts == IntakeFor(s.intakeParts, k) && e.promotedUnsafe == Get(s.promotedUnsafe, key, [])
      && e.intent == Find(s.intents, key) && e.owed == OwedFor(s.owed, k) && e.acked == Find(s.ackedInventories, key)
  {}

  lemma NothingWritten(s: LocalState, k: PartitionKey)
    ensures OthersKept(s, s, k)
  {}

  /** A write to one field of one partition's entry. */
  datatype FieldWrite =
    | SetWatermark(watermark: nat)
    | SetLastAck(lastAck: PromotionAck)
    | SetBase(base: Hex)
    | SetSnapshot(snapshot: string)
    | SetSum(sum: Hex)
    | SetPromoted(names: seq<string>)
    | SetIntent(intent: Intent)
    | SetAcked(inventory: AckedInventory)
    | ClearPromoted
    | ClearIntent
    | ClearAcked
    | SetPart(name: string, hash: Hex)
    | SetOwed(ack: CleanupAck)
    | ClearOwedAck(id: CleanupId)

  /** The write to the flat maps. */
  function Put(s: LocalState, k: PartitionKey, f: FieldWrite): LocalState {
    match f
    case SetWatermark(v) => s.(watermarks := s.watermarks[KeyOf(k) := v])
    case SetLastAck(v) => s.(lastAcks := s.lastAcks[KeyOf(k) := v])
    case SetBase(v) => s.(baseRoots := s.baseRoots[KeyOf(k) := v])
    case SetSnapshot(v) => s.(baseSnapshots := s.baseSnapshots[KeyOf(k) := v])
    case SetSum(v) => s.(unpromotedSums := s.unpromotedSums[KeyOf(k) := v])
    case SetPromoted(v) => s.(promotedUnsafe := s.promotedUnsafe[KeyOf(k) := v])
    case SetIntent(v) => s.(intents := s.intents[KeyOf(k) := v])
    case SetAcked(v) => s.(ackedInventories := s.ackedInventories[KeyOf(k) := v])
    case ClearPromoted => s.(promotedUnsafe := s.promotedUnsafe - {KeyOf(k)})
    case ClearIntent => s.(intents := s.intents - {KeyOf(k)})
    case ClearAcked => s.(ackedInventories := s.ackedInventories - {KeyOf(k)})
    case SetPart(n, h) => s.(intakeParts := s.intakeParts[PartKeyOf(k, n) := h])
    case SetOwed(ack) => s.(owed := s.owed[OwedKey(k, ack.id) := ack])
    case ClearOwedAck(id) => s.(owed := s.owed - {OwedKey(k, id)})
  }

  /** The write to the entry. */
  function SetField(e: Entry, f: FieldWrite): Entry {
    match f
    case SetWatermark(v) => e.(watermark := v)
    case SetLastAck(v) => e.(lastAck := Some(v))
    case SetBase(v) => e.(base := v)
    case SetSnapshot(v) => e.(baseSnapshot := v)
    case SetSum(v) => e.(unpromotedSum := v)
    case SetPromoted(v) => e.(promotedUnsafe := v)
    case SetIntent(v) => e.(intent := Some(v))
    case SetAcked(v) => e.(acked := Some(v))
    case ClearPromoted => e.(promotedUnsafe := [])
    case ClearIntent => e.(intent := None)
    case ClearAcked => e.(acked := None)
    case SetPart(n, h) => e.(intakeParts := e.intakeParts[n := h])
    case SetOwed(ack) => e.(owed := e.owed[ack.id := ack])
    case ClearOwedAck(id) => e.(owed := e.owed - {id})
  }

  lemma PutPartEntry(s: LocalState, k: PartitionKey, n: string, h: Hex, k': PartitionKey)
    requires Plain(k) && Plain(k')
    ensures EntryOf(Put(s, k, SetPart(n, h)), k') == if k' == k then SetField(EntryOf(s, k), SetPart(n, h)) else EntryOf(s, k')
  {
    hide KeyOf, PartKeyOf, IntakeFor, OwedFor;
    IntakeUpdated(s.intakeParts, k, n, h, k');
  }

  lemma PutOwedEntry(s: LocalState, k: PartitionKey, f: FieldWrite, k': PartitionKey)
    requires f.SetOwed? || f.ClearOwedAck?
    ensures EntryOf(Put(s, k, f), k') == if k' == k then SetField(EntryOf(s, k), f) else EntryOf(s, k')
  {
    hide KeyOf, PartKeyOf, IntakeFor, OwedFor;
    if f.SetOwed? { OwedUpdated(s.owed, k, f.ack.id, f.ack, k'); } else { OwedRemoved(s.owed, k, f.id, k'); }
  }

  /** The writes under the partition's own key. */
  predicate UnderKey(f: FieldWrite) {
    !f.SetPart? && !f.SetOwed? && !f.ClearOwedAck?
  }

  lemma PutKeyEntry(s: LocalState, k: PartitionKey, f: FieldWrite, k': PartitionKey)
    requires UnderKey(f) && (k' != k ==> KeyOf(k') != KeyOf(k))
    ensures EntryOf(Put(s, k, f), k') == if k' == k then SetField(EntryOf(s, k), f) else EntryOf(s, k')
  {
    hide KeyOf, PartKeyOf, IntakeFor, OwedFor;
  }

  lemma PutEntry(s: LocalState, k: PartitionKey, f: FieldWrite, k': PartitionKey)
    requires Plain(k) && Plain(k')
    ensures EntryOf(Put(s, k, f), k') == if k' == k then SetField(EntryOf(s, k), f) else EntryOf(s, k')
  {
    hide KeyOf, EntryOf, Put, SetField;
    if UnderKey(f) {
      if k' != k && KeyOf(k') == KeyOf(k) { KeyInjective(k, k'); }
      PutKeyEntry(s, k, f, k');
    } else if f.SetPart? {
      PutPartEntry(s, k, f.name, f.hash, k');
    } else {
      PutOwedEntry(s, k, f, k');
    }
  }

  /** A write to a partition is the write to its entry and to no other's. */
  lemma PutOnly(s0: LocalState, s: LocalState, k: PartitionKey, f: FieldWrite)
    requires Plain(k) && OthersKept(s0, s, k)
    ensures OthersKept(s0, Put(s, k, f), k) && EntryOf(Put(s, k, f), k) == SetField(EntryOf(s, k), f)
  {
    hide EntryOf, Put, SetField;
    forall k' | Plain(k') ensures EntryOf(Put(s, k, f), k') == if k' == k then SetField(EntryOf(s, k), f) else EntryOf(s, k') {
      PutEntry(s, k, f, k');
    }
  }

  /** Writes keep the keys well formed. */
  lemma PutKeyed(s: LocalState, k: PartitionKey, f: FieldWrite)
    requires Plain(k) && WellKeyed(s)
    ensures WellKeyed(Put(s, k, f))
  {
    hide KeyOf, PartKeyOf, IsPartKey, IsKey;
    KeyIsKey(k);
    if f.SetPart? { PartKeyIsPartKey(k, f.name); }
  }

  lemma KeyIsKey(k: PartitionKey)
    requires Plain(k)
    ensures IsKey(KeyOf(k))
  {}

  lemma PartKeyIsPartKey(k: PartitionKey, n: string)
    requires Plain(k)
    ensures IsPartKey(PartKeyOf(k, n))
  {}

  // ---- loops over a command's lists ---------------------------------------------------------------------

  method SubtractHashes(sum: Hash, hs: seq<Hex>) returns (acc: Hash)
    ensures acc == SubtractAll(sum, hs)
  {
    acc := sum;
    assert hs[0..] == hs;
    for i := 0 to |hs|
      invariant SubtractAll(acc, hs[i..]) == SubtractAll(sum, hs)
    {
      assert hs[i..][1..] == hs[i + 1..];
      acc := Sub(acc, Parse(hs[i]));
    }
    assert hs[|hs|..] == [];
  }

  method MergePartNames(existing: seq<string>, names: seq<string>) returns (out: seq<string>)
    ensures out == MergeNames(existing, names)
  {
    out := existing;
    var seen: set<string> := set p | p in existing;
    assert names[0..] == names;
    for i := 0 to |names|
      invariant MergeNames(out, names[i..]) == MergeNames(existing, names)
      invariant forall p :: p in seen <==> p in out
    {
      assert names[i..][1..] == names[i + 1..];
      if names[i] != "" && names[i] !in seen {
        seen := seen + {names[i]};
        out := out + [names[i]];
      }
    }
    assert names[|names|..] == [];
  }

  method CheckRejectedParts(s: LocalState, k: PartitionKey, promotionSeq: nat, parts: seq<PartRef>) returns (ok: bool)
    requires Plain(k)
    ensures ok <==> RejectedPartsOk(EntryOf(s, k), k, promotionSeq, parts)
    ensures ok <==>
      && promotionSeq == 0
      && forall p :: p in parts ==>
        && p.at == k && p.name != ""
        && (p.name in EntryOf(s, k).intakeParts ==> EntryOf(s, k).intakeParts[p.name] in {Unset, p.rowHash})
  {
    hide IntakeFor, PartKeyOf, OwedFor, KeyOf;
    PartsOkOverList(EntryOf(s, k), k, promotionSeq, parts);
    if promotionSeq != 0 {
      return false;
    }
    for i := 0 to |parts|
      invariant forall j :: 0 <= j < i ==> PartOk(IntakeFor(s.intakeParts, k), k, parts[j])
    {
      var p := parts[i];
      IntakeValue(s.intakeParts, k, p.name);
      var key := PartKeyOf(k, p.name);
      if p.at != k || p.name == "" || (key in s.intakeParts && s.intakeParts[key] != Unset && s.intakeParts[key] != p.rowHash) {
        assert !PartOk(IntakeFor(s.intakeParts, k), k, parts[i]);
        return false;
      }
    }
    return true;
  }

  predicate PartOk(intake: map<string, Hex>, k: PartitionKey, p: PartRef) {
    p.at == k && p.name != "" && (p.name in intake ==> intake[p.name] in {Unset, p.rowHash})
  }

  /** removeRejectedParts on a copy of the state. */
  method RemoveRejectedParts(s: LocalState, k: PartitionKey, parts: seq<PartRef>) returns (next: LocalState, changed: bool)
    requires Plain(k)
    ensures Only(s, next, k, RemoveRejected(EntryOf(s, k), parts))
    ensures !changed ==> next == s
    ensures WellKeyed(s) ==> WellKeyed(next)
  {
    hide WellKeyed, PartKeyOf, Sub, EntryOf, RemoveRejected, KeyOf, OthersKept, Put;
    next, changed := s, false;
    assert parts[0..] == parts;
    NothingWritten(s, k);
    for i := 0 to |parts|
      invariant RemoveRejected(EntryOf(next, k), parts[i..]) == RemoveRejected(EntryOf(s, k), parts)
      invariant OthersKept(s, next, k) && (WellKeyed(s) ==> WellKeyed(next))
      invariant !changed ==> next == s
    {
      var p := parts[i];
      var key := PartKeyOf(k, p.name);
      EntryReads(next, k);
      IntakeValue(next.intakeParts, k, p.name);
      RemoveRejectedStep(EntryOf(next, k), parts[i..]);
      assert parts[i..][1..] == parts[i + 1..];
      if key in next.intakeParts && next.intakeParts[key] != Unset {
        var sum := Value(Sub(Parse(Get(next.unpromotedSums, KeyOf(k), Unset)), Parse(p.rowHash)));
        RemovePartOnly(s, next, k, p.name, sum);
        next := Put(Put(next, k, SetSum(sum)), k, SetPart(p.name, Unset));
        changed := true;
      }
    }
    assert parts[|parts|..] == [];
    RemoveRejectedNone(EntryOf(next, k));
  }

  /** Taking one part out writes its sum and its record, nothing else. */
  lemma RemovePartOnly(s0: LocalState, s: LocalState, k: PartitionKey, name: string, sum: Hex)
    requires Plain(k) && OthersKept(s0, s, k)
    ensures var next := Put(Put(s, k, SetSum(sum)), k, SetPart(name, Unset));
      && OthersKept(s0, next, k) && (WellKeyed(s) ==> WellKeyed(next))
      && EntryOf(next, k) == EntryOf(s, k).(unpromotedSum := sum, intakeParts := EntryOf(s, k).intakeParts[name := Unset])
  {
    hide WellKeyed, EntryOf, OthersKept, Put;
    PutOnly(s0, s, k, SetSum(sum));
    PutOnly(s0, Put(s, k, SetSum(sum)), k, SetPart(name, Unset));
    if WellKeyed(s) {
      PutKeyed(s, k, SetSum(sum));
      PutKeyed(Put(s, k, SetSum(sum)), k, SetPart(name, Unset));
    }
  }

  lemma RemoveRejectedNone(e: Entry)
    ensures RemoveRejected(e, []) == e
  {}

  lemma RemoveRejectedStep(e: Entry, parts: seq<PartRef>)
    requires parts != []
    ensures var p := parts[0];
      RemoveRejected(e, parts) == RemoveRejected(
        if p.name !in e.intakeParts || e.intakeParts[p.name] == Unset then e
        else e.(unpromotedSum := Value(Sub(Parse(e.unpromotedSum), Parse(p.rowHash))), intakeParts := e.intakeParts[p.name := Unset]),
        parts[1..])
  {}

  function AckedOf(s: LocalState, k: PartitionKey): Option<AckedInventory> {
    var key := KeyOf(k);
    if key in s.ackedInventories then Some(s.ackedInventories[key])
    else if key in s.lastAcks && s.lastAcks[key].applied && s.lastAcks[key].safePartitionParts != [] then
      Some(AckedInventory(s.lastAcks[key].promotionSeq, s.lastAcks[key].safePartitionParts, false))
    else None
  }

  /** recordAckedSafeInventory. */
  function KeepInventoryIn(s: LocalState, k: PartitionKey, ack: PromotionAck): LocalState {
    if !ack.applied then s
    else if ack.safePartitionParts == [] then Put(s, k, ClearAcked)
    else Put(s, k, SetAcked(AckedInventory(ack.promotionSeq, ack.safePartitionParts, false)))
  }

  lemma KeepInventoryOnly(s0: LocalState, s: LocalState, k: PartitionKey, ack: PromotionAck)
    requires Plain(k) && OthersKept(s0, s, k)
    ensures OthersKept(s0, KeepInventoryIn(s, k, ack), k)
    ensures EntryOf(KeepInventoryIn(s, k, ack), k) == EntryOf(s, k).(acked := KeepInventory(EntryOf(s, k).acked, ack))
  {
    hide EntryOf, OthersKept, Put;
    if ack.applied {
      if ack.safePartitionParts == [] {
        PutOnly(s0, s, k, ClearAcked);
      } else {
        PutOnly(s0, s, k, SetAcked(AckedInventory(ack.promotionSeq, ack.safePartitionParts, false)));
      }
    }
  }

  /** What RecordAck and RecordSettledNotApplied write in common. */
  function Acknowledged(s: LocalState, k: PartitionKey, ps: nat, ack: PromotionAck, base: Hex, snapshot: string): LocalState {
    var inv := AckedOf(s, k);
    var kept := if inv.Some? then Put(s, k, SetAcked(inv.value)) else s;
    Put(Put(Put(Put(kept, k, SetWatermark(ps)), k, SetLastAck(ack)), k, SetBase(base)), k, SetSnapshot(snapshot))
  }

  lemma AcknowledgedOnly(s: LocalState, k: PartitionKey, ps: nat, ack: PromotionAck, base: Hex, snapshot: string)
    requires Plain(k)
    ensures Only(s, Acknowledged(s, k, ps, ack, base, snapshot), k, RecordAck(EntryOf(s, k), ps, ack, base, snapshot))
    ensures Acknowledged(s, k, ps, ack, base, snapshot).intents == s.intents
  {
    hide EntryOf, OthersKept, Put, AckedOf, AckedInventoryOf;
    var inv := AckedOf(s, k);
    var kept := if inv.Some? then Put(s, k, SetAcked(inv.value)) else s;
    var s1 := Put(kept, k, SetWatermark(ps));
    var s2 := Put(s1, k, SetLastAck(ack));
    var s3 := Put(s2, k, SetBase(base));
    AckedReads(s, k);
    AckedIfNone(EntryOf(s, k));
    NothingWritten(s, k);
    if inv.Some? { PutKeepsIntents(s, k, SetAcked(inv.value)); }
    PutKeepsIntents(kept, k, SetWatermark(ps));
    PutKeepsIntents(s1, k, SetLastAck(ack));
    PutKeepsIntents(s2, k, SetBase(base));
    PutKeepsIntents(s3, k, SetSnapshot(snapshot));
    if inv.Some? { PutOnly(s, s, k, SetAcked(inv.value)); }
    PutOnly(s, kept, k, SetWatermark(ps));
    PutOnly(s, s1, k, SetLastAck(ack));
    PutOnly(s, s2, k, SetBase(base));
    PutOnly(s, s3, k, SetSnapshot(snapshot));
  }

  lemma PutKeepsIntents(s: LocalState, k: PartitionKey, f: FieldWrite)
    ensures !f.SetIntent? && !f.ClearIntent? ==> Put(s, k, f).intents == s.intents
  {
    hide KeyOf, PartKeyOf;
  }

  lemma AckedIfNone(e: Entry)
    ensures AckedInventoryOf(e).None? ==> e.acked.None?
  {}

  /** forgetPromotedParts. */
  function ForgetPromoted(s: LocalState, k: PartitionKey, names: seq<string>): LocalState {
    var existing := Get(s.promotedUnsafe, KeyOf(k), []);
    var kept := Without(existing, names);
    if |kept| == |existing| then s else if kept == [] then Put(s, k, ClearPromoted) else Put(s, k, SetPromoted(kept))
  }

  lemma ForgetPromotedOnly(s0: LocalState, s: LocalState, k: PartitionKey, names: seq<string>)
    requires Plain(k) && OthersKept(s0, s, k)
    ensures OthersKept(s0, ForgetPromoted(s, k, names), k)
    ensures EntryOf(ForgetPromoted(s, k, names), k) == EntryOf(s, k).(promotedUnsafe := Without(EntryOf(s, k).promotedUnsafe, names))
  {
    hide EntryOf, OthersKept, Put, Without, KeyOf, IntakeFor, OwedFor;
    EntryReads(s, k);
    var existing := Get(s.promotedUnsafe, KeyOf(k), []);
    WithoutSameLength(existing, names);
    if |Without(existing, names)| != |existing| {
      if Without(existing, names) == [] {
        PutOnly(s0, s, k, ClearPromoted);
      } else {
        PutOnly(s0, s, k, SetPromoted(Without(existing, names)));
      }
    }
  }

  lemma {:induction false} WithoutSameLength(existing: seq<string>, names: seq<string>)
    ensures |Without(existing, names)| <= |existing| && (|Without(existing, names)| == |existing| ==> Without(existing, names) == existing)
  {
    if existing != [] { WithoutSameLength(existing[1..], names); }
  }

  lemma OwedValue(m: map<OwedKey, CleanupAck>, k: PartitionKey, id: CleanupId)
    ensures id in OwedFor(m, k) <==> OwedKey(k, id) in m
    ensures OwedKey(k, id) in m ==> OwedFor(m, k)[id] == m[OwedKey(k, id)]
  {
    OwedMembers(m, k, id);
  }

  /** What RecordAppliedPromotion writes, given the drained sum and merged names. */
  function Applied(s: LocalState, k: PartitionKey, ps: nat, ack: PromotionAck, base: Hex, snapshot: string,
                   sum: Hash, names: seq<string>, merged: seq<string>): LocalState
  {
    var s1 := KeepInventoryIn(Put(Put(Put(s, k, SetSum(Value(sum))), k, SetWatermark(ps)), k, SetLastAck(ack)), k, ack);
    var s2 := Put(Put(s1, k, SetBase(base)), k, SetSnapshot(snapshot));
    Put(if |names| > 0 then Put(s2, k, SetPromoted(merged)) else s2, k, ClearIntent)
  }

  lemma AppliedOnly(s: LocalState, k: PartitionKey, ps: nat, ack: PromotionAck, base: Hex, snapshot: string,
                    sum: Hash, names: seq<string>, merged: seq<string>)
    requires Plain(k) && (names == [] ==> merged == EntryOf(s, k).promotedUnsafe)
    ensures Only(s, Applied(s, k, ps, ack, base, snapshot, sum, names, merged), k,
                 EntryOf(s, k).(unpromotedSum := Value(sum), watermark := ps, lastAck := Some(ack),
                                acked := KeepInventory(EntryOf(s, k).acked, ack), base := base, baseSnapshot := snapshot,
                                promotedUnsafe := merged, intent := None))
  {
    hide EntryOf, OthersKept, Put, KeepInventoryIn;
    var a := Put(s, k, SetSum(Value(sum)));
    var b := Put(a, k, SetWatermark(ps));
    var c := Put(b, k, SetLastAck(ack));
    var d := KeepInventoryIn(c, k, ack);
    var e := Put(d, k, SetBase(base));
    var f := Put(e, k, SetSnapshot(snapshot));
    var g := if |names| > 0 then Put(f, k, SetPromoted(merged)) else f;
    NothingWritten(s, k);
    PutOnly(s, s, k, SetSum(Value(sum)));
    PutOnly(s, a, k, SetWatermark(ps));
    PutOnly(s, b, k, SetLastAck(ack));
    KeepInventoryOnly(s, c, k, ack);
    PutOnly(s, d, k, SetBase(base));
    PutOnly(s, e, k, SetSnapshot(snapshot));
    if |names| > 0 { PutOnly(s, f, k, SetPromoted(merged)); }
    PutOnly(s, g, k, ClearIntent);
  }

  lemma AppliedIs(e: Entry, ps: nat, ack: PromotionAck, base: Hex, snapshot: string, hs: seq<Hex>, names: seq<string>)
    ensures RecordApplied(e, ps, ack, base, snapshot, hs, names) ==
            e.(unpromotedSum := Value(SubtractAll(Parse(e.unpromotedSum), hs)), watermark := ps, lastAck := Some(ack),
               acked := KeepInventory(e.acked, ack), base := base, baseSnapshot := snapshot,
               promotedUnsafe := MergeNames(e.promotedUnsafe, names), intent := None)
  {}

  lemma MergeNothing(existing: seq<string>, names: seq<string>)
    requires names == []
    ensures MergeNames(existing, names) == existing
  {}

  /** The acknowledgement repeats the stored one. */
  predicate Repeats(s: LocalState, k: PartitionKey, ack: PromotionAck) {
    var key := KeyOf(k);
    && key in s.lastAcks && s.lastAcks[key].promotionSeq == ack.promotionSeq && Get(s.watermarks, key, 0) == ack.promotionSeq
    && s.lastAcks[key].post == ack.post && s.lastAcks[key].applied == ack.applied
  }

  /** What RecordRefreshedAck writes. */
  function Refreshed(s: LocalState, k: PartitionKey, ack: PromotionAck): LocalState {
    var inv := AckedOf(s, k);
    var next := Put(s, k, SetLastAck(ack));
    if inv.None? || inv.value.promotionSeq < ack.promotionSeq then KeepInventoryIn(next, k, ack) else next
  }

  lemma RefreshedOnly(s: LocalState, k: PartitionKey, ack: PromotionAck)
    requires Plain(k)
    ensures var e := RecordRefreshedAck(EntryOf(s, k), ack);
      (e.Some? <==> Repeats(s, k, ack)) && (e.Some? ==> Only(s, Refreshed(s, k, ack), k, e.value))
  {
    hide KeyOf, IntakeFor, OwedFor, EntryOf, OthersKept, Put, KeepInventoryIn, KeepInventory;
    EntryReads(s, k);
    if Repeats(s, k, ack) {
      NothingWritten(s, k);
      PutOnly(s, s, k, SetLastAck(ack));
      KeepInventoryOnly(s, Put(s, k, SetLastAck(ack)), k, ack);
      AckedReads(s, k);
    }
  }

  lemma AckedReads(s: LocalState, k: PartitionKey)
    ensures AckedOf(s, k) == AckedInventoryOf(EntryOf(s, k))
  {
    hide KeyOf, IntakeFor, OwedFor;
  }

  lemma KeepInventoryKeyed(s: LocalState, k: PartitionKey, ack: PromotionAck)
    requires Plain(k) && WellKeyed(s)
    ensures WellKeyed(KeepInventoryIn(s, k, ack))
  {
    hide WellKeyed, Put;
    PutKeyed(s, k, ClearAcked);
    PutKeyed(s, k, SetAcked(AckedInventory(ack.promotionSeq, ack.safePartitionParts, false)));
  }

  lemma AcknowledgedKeyed(s: LocalState, k: PartitionKey, ps: nat, ack: PromotionAck, base: Hex, snapshot: string)
    requires Plain(k) && WellKeyed(s)
    ensures WellKeyed(Acknowledged(s, k, ps, ack, base, snapshot))
  {
    hide WellKeyed, Put, AckedOf;
    var inv := AckedOf(s, k);
    var kept := if inv.Some? then Put(s, k, SetAcked(inv.value)) else s;
    if inv.Some? { PutKeyed(s, k, SetAcked(inv.value)); }
    var s1 := Put(kept, k, SetWatermark(ps));
    PutKeyed(kept, k, SetWatermark(ps));
    PutKeyed(s1, k, SetLastAck(ack));
    PutKeyed(Put(s1, k, SetLastAck(ack)), k, SetBase(base));
    PutKeyed(Put(Put(s1, k, SetLastAck(ack)), k, SetBase(base)), k, SetSnapshot(snapshot));
  }

  lemma ForgetPromotedKeyed(s: LocalState, k: PartitionKey, names: seq<string>)
    requires Plain(k) && WellKeyed(s)
    ensures WellKeyed(ForgetPromoted(s, k, names))
  {
    hide WellKeyed, Put, Without;
    PutKeyed(s, k, ClearPromoted);
    PutKeyed(s, k, SetPromoted(Without(Get(s.promotedUnsafe, KeyOf(k), []), names)));
  }

  lemma AppliedKeyed(s: LocalState, k: PartitionKey, ps: nat, ack: PromotionAck, base: Hex, snapshot: string,
                     sum: Hash, names: seq<string>, merged: seq<string>)
    requires Plain(k) && WellKeyed(s)
    ensures WellKeyed(Applied(s, k, ps, ack, base, snapshot, sum, names, merged))
  {
    hide WellKeyed, Put, KeepInventoryIn;
    var a := Put(s, k, SetSum(Value(sum)));
    var b := Put(a, k, SetWatermark(ps));
    var c := Put(b, k, SetLastAck(ack));
    var d := KeepInventoryIn(c, k, ack);
    var e := Put(d, k, SetBase(base));
    var f := Put(e, k, SetSnapshot(snapshot));
    var g := if |names| > 0 then Put(f, k, SetPromoted(merged)) else f;
    PutKeyed(s, k, SetSum(Value(sum)));
    PutKeyed(a, k, SetWatermark(ps));
    PutKeyed(b, k, SetLastAck(ack));
    KeepInventoryKeyed(c, k, ack);
    PutKeyed(d, k, SetBase(base));
    PutKeyed(e, k, SetSnapshot(snapshot));
    PutKeyed(f, k, SetPromoted(merged));
    PutKeyed(g, k, ClearIntent);
  }

  lemma RefreshedKeyed(s: LocalState, k: PartitionKey, ack: PromotionAck)
    requires Plain(k) && WellKeyed(s)
    ensures WellKeyed(Refreshed(s, k, ack))
  {
    hide WellKeyed, Put, KeepInventoryIn;
    PutKeyed(s, k, SetLastAck(ack));
    KeepInventoryKeyed(Put(s, k, SetLastAck(ack)), k, ack);
  }

  // ---- the partitions of one table ------------------------------------------------------------------------

  ghost predicate TableQuiescent(s: LocalState, table: string) {
    forall k :: Plain(k) && k.table == table ==> Quiescent(EntryOf(s, k))
  }

  method AnyKey<T(!new)>(m: map<string, T>, prefix: string, bad: T -> bool) returns (found: bool)
    ensures found <==> exists key :: key in m && prefix <= key && bad(m[key])
  {
    var left := m.Keys;
    while left != {}
      invariant left <= m.Keys
      invariant forall key :: key in m && key !in left ==> !(prefix <= key && bad(m[key]))
      decreases |left|
    {
      var key :| key in left;
      if prefix <= key && bad(m[key]) {
        return true;
      }
      left := left - {key};
    }
    return false;
  }

  method AnyOwed(owed: map<OwedKey, CleanupAck>, table: string) returns (found: bool)
    ensures found <==> exists o :: o in owed && o.at.table == table
  {
    var left := owed.Keys;
    while left != {}
      invariant left <= owed.Keys
      invariant forall o :: o in owed && o !in left ==> o.at.table != table
      decreases |left|
    {
      var o :| o in left;
      if o.at.table == table {
        return true;
      }
      left := left - {o};
    }
    return false;
  }

  /** Some key of the table has such a value exactly when some partition does. */
  lemma KeysOfTable<T(!new)>(m: map<string, T>, table: string, bad: T -> bool)
    requires NulFree(table) && Keyed(m)
    ensures (exists key :: key in m && TablePrefix(table) <= key && bad(m[key]))
       <==> exists k :: Plain(k) && k.table == table && KeyOf(k) in m && bad(m[KeyOf(k)])
  {
    hide KeyOf, TablePrefix;
    if key :| key in m && TablePrefix(table) <= key && bad(m[key]) {
      assert IsKey(key);
      var k :| Plain(k) && KeyOf(k) == key;
      PrefixIsTable(k, table);
    }
    if k :| Plain(k) && k.table == table && KeyOf(k) in m && bad(m[KeyOf(k)]) {
      PrefixIsTable(k, table);
    }
  }

  ghost predicate Pending(s: LocalState, k: PartitionKey) {
    KeyOf(k) in s.intents
  }

  /** The four reasons a partition is not quiescent. */
  lemma QuiescentReads(s: LocalState, k: PartitionKey)
    ensures Quiescent(EntryOf(s, k)) <==>
      && KeyOf(k) !in s.intents && !(KeyOf(k) in s.promotedUnsafe && s.promotedUnsafe[KeyOf(k)] != [])
      && !(KeyOf(k) in s.unpromotedSums && Parse(s.unpromotedSums[KeyOf(k)]) != Zero)
      && forall id :: OwedKey(k, id) !in s.owed
  {
    hide KeyOf, IntakeFor, OwedFor;
    EntryReads(s, k);
    forall id ensures id in OwedFor(s.owed, k) <==> OwedKey(k, id) in s.owed { OwedMembers(s.owed, k, id); }
    if forall id :: OwedKey(k, id) !in s.owed {
      assert OwedFor(s.owed, k) == map[];
    }
  }

  /** quiescent: all four kinds of work are absent from every partition. */
  method IsTableQuiescent(s: LocalState, table: string) returns (quiet: bool)
    requires NulFree(table) && WellKeyed(s)
    ensures quiet <==> TableQuiescent(s, table)
  {
    hide KeyOf, TablePrefix, EntryOf, Quiescent, IsKey;
    forall k ensures Quiescent(EntryOf(s, k)) <==>
      && KeyOf(k) !in s.intents && !(KeyOf(k) in s.promotedUnsafe && s.promotedUnsafe[KeyOf(k)] != [])
      && !(KeyOf(k) in s.unpromotedSums && Parse(s.unpromotedSums[KeyOf(k)]) != Zero)
      && forall id :: OwedKey(k, id) !in s.owed
    {
      QuiescentReads(s, k);
    }
    var prefix := TablePrefix(table);
    KeysOfTable(s.intents, table, _ => true);
    var found := AnyKey(s.intents, prefix, _ => true);
    if found {
      return false;
    }
    KeysOfTable(s.promotedUnsafe, table, (parts: seq<string>) => parts != []);
    found := AnyKey(s.promotedUnsafe, prefix, (parts: seq<string>) => parts != []);
    if found {
      return false;
    }
    KeysOfTable(s.unpromotedSums, table, (sum: Hex) => Parse(sum) != Zero);
    found := AnyKey(s.unpromotedSums, prefix, (sum: Hex) => Parse(sum) != Zero);
    if found {
      return false;
    }
    found := AnyOwed(s.owed, table);
    if found {
      var o :| o in s.owed && o.at.table == table;
      assert Plain(o.at) && OwedKey(o.at, o.id) == o;
      return false;
    }
    return true;
  }

  function Forget<T>(m: map<string, T>, prefix: string): map<string, T> {
    map key | key in m && !(prefix <= key) :: m[key]
  }

  method ForgetKeys<T(!new)>(m: map<string, T>, prefix: string) returns (kept: map<string, T>, changed: bool)
    ensures kept == Forget(m, prefix)
    ensures !changed ==> kept == m
  {
    kept, changed := m, false;
    var left := m.Keys;
    while left != {}
      invariant left <= kept.Keys <= m.Keys && (!changed ==> kept == m)
      invariant forall key :: key in kept ==> kept[key] == m[key]
      invariant forall key :: key in m && key !in left ==> (key in kept <==> !(prefix <= key))
      decreases |left|
    {
      var key :| key in left;
      left := left - {key};
      if prefix <= key {
        kept := kept - {key};
        changed := true;
      }
    }
  }

  /** What ForgetTable leaves. */
  function ForgetAll(s: LocalState, table: string): LocalState {
    var prefix := TablePrefix(table);
    s.(baseRoots := Forget(s.baseRoots, prefix), baseSnapshots := Forget(s.baseSnapshots, prefix),
       unpromotedSums := Forget(s.unpromotedSums, prefix), lastAcks := Forget(s.lastAcks, prefix),
       intakeParts := Forget(s.intakeParts, prefix), promotedUnsafe := Forget(s.promotedUnsafe, prefix),
       ackedInventories := Forget(s.ackedInventories, prefix))
  }

  lemma ForgetGet<T>(m: map<string, T>, k: PartitionKey, table: string)
    requires Plain(k) && NulFree(table)
    ensures KeyOf(k) in Forget(m, TablePrefix(table)) <==> KeyOf(k) in m && k.table != table
    ensures KeyOf(k) in Forget(m, TablePrefix(table)) ==> Forget(m, TablePrefix(table))[KeyOf(k)] == m[KeyOf(k)]
  {
    PrefixIsTable(k, table);
  }

  lemma ForgetIntake(m: map<string, Hex>, k: PartitionKey, table: string)
    requires Plain(k) && NulFree(table)
    ensures IntakeFor(Forget(m, TablePrefix(table)), k) == if k.table == table then map[] else IntakeFor(m, k)
  {
    hide PartKeyOf, TablePrefix, IntakeFor;
    var kept := Forget(m, TablePrefix(table));
    forall n ensures n in IntakeFor(kept, k) <==> n in IntakeFor(m, k) && k.table != table {
      IntakeValue(kept, k, n);
      IntakeValue(m, k, n);
      PrefixIsTableOfPart(k, n, table);
    }
    forall n | n in IntakeFor(kept, k) ensures IntakeFor(kept, k)[n] == IntakeFor(m, k)[n] {
      IntakeValue(kept, k, n);
      IntakeValue(m, k, n);
    }
  }

  /** Forgetting a table keeps its watermarks and touches no other table. */
  lemma ForgetAllEntries(s: LocalState, table: string, k: PartitionKey)
    requires Plain(k) && NulFree(table)
    ensures EntryOf(ForgetAll(s, table), k) == if k.table == table then Forgotten(EntryOf(s, k)) else EntryOf(s, k)
  {
    hide KeyOf, TablePrefix, IntakeFor, OwedFor, Forget;
    ForgetGet(s.baseRoots, k, table);
    ForgetGet(s.baseSnapshots, k, table);
    ForgetGet(s.unpromotedSums, k, table);
    ForgetGet(s.lastAcks, k, table);
    ForgetGet(s.promotedUnsafe, k, table);
    ForgetGet(s.ackedInventories, k, table);
    ForgetIntake(s.intakeParts, k, table);
  }

  lemma QuietEntry(s: LocalState, table: string, k: PartitionKey)
    requires TableQuiescent(s, table) && Plain(k) && k.table == table
    ensures Quiescent(EntryOf(s, k))
  {}

  lemma ForgetKeepsKeys(s: LocalState, table: string)
    requires WellKeyed(s)
    ensures WellKeyed(ForgetAll(s, table))
  {
    hide IsKey, IsPartKey, TablePrefix, Plain;
  }

  method CollectPromoted(s: LocalState, table: string) returns (out: seq<string>)
    requires NulFree(table) && WellKeyed(s)
    ensures forall n :: n in out <==> Promoted(s, table, n)
  {
    hide KeyOf, TablePrefix, IsKey;
    var m, prefix := s.promotedUnsafe, TablePrefix(table);
    out := [];
    var left := m.Keys;
    while left != {}
      invariant left <= m.Keys
      invariant forall n :: n in out <==> exists key :: key in m && key !in left && prefix <= key && n in m[key]
      decreases |left|
    {
      var key :| key in left;
      left := left - {key};
      if prefix <= key {
        out := out + m[key];
      }
    }
    forall n ensures n in out <==> Promoted(s, table, n) {
      KeysOfTable(m, table, (parts: seq<string>) => n in parts);
    }
  }

  ghost predicate Promoted(s: LocalState, table: string, n: string) {
    exists k :: Plain(k) && k.table == table && KeyOf(k) in s.promotedUnsafe && n in s.promotedUnsafe[KeyOf(k)]
  }

  // ---- rebuild ---------------------------------------------------------------------------------------------

  datatype Rebuilt = Rebuilt(at: PartitionKey, publishSeq: nat, parts: seq<Mapping>)

  /** The last inventory a rebuild lists for the partition. */
  function RebuiltFor(invs: seq<Rebuilt>, k: PartitionKey): Option<AckedInventory> {
    if invs == [] then None
    else
      var last := invs[|invs| - 1];
      if last.at == k then Some(AckedInventory(last.publishSeq, last.parts, true)) else RebuiltFor(invs[..|invs| - 1], k)
  }

  lemma RebuiltLists(invs: seq<Rebuilt>)
    ensures forall k :: (forall inv :: inv in invs ==> inv.at != k) ==> RebuiltFor(invs, k).None?
    ensures forall i :: 0 <= i < |invs| && (forall j :: i < j < |invs| ==> invs[j].at != invs[i].at) ==>
      RebuiltFor(invs, invs[i].at) == Some(AckedInventory(invs[i].publishSeq, invs[i].parts, true))
  {
    forall k | forall inv :: inv in invs ==> inv.at != k ensures RebuiltFor(invs, k).None? { RebuiltAbsent(invs, k); }
    forall i | 0 <= i < |invs| && (forall j :: i < j < |invs| ==> invs[j].at != invs[i].at)
      ensures RebuiltFor(invs, invs[i].at) == Some(AckedInventory(invs[i].publishSeq, invs[i].parts, true))
    {
      RebuiltLast(invs, i);
    }
  }

  lemma {:induction false} RebuiltAbsent(invs: seq<Rebuilt>, k: PartitionKey)
    requires forall inv :: inv in invs ==> inv.at != k
    ensures RebuiltFor(invs, k).None?
  {
    if invs != [] {
      assert invs[|invs| - 1] in invs;
      RebuiltAbsent(invs[..|invs| - 1], k);
    }
  }

  lemma {:induction false} RebuiltLast(invs: seq<Rebuilt>, i: nat)
    requires i < |invs| && forall j :: i < j < |invs| ==> invs[j].at != invs[i].at
    ensures RebuiltFor(invs, invs[i].at) == Some(AckedInventory(invs[i].publishSeq, invs[i].parts, true))
  {
    if i < |invs| - 1 {
      assert invs[..|invs| - 1][i] == invs[i];
      RebuiltLast(invs[..|invs| - 1], i);
    }
  }

  /** Each partition's entry after the first `n` inventories were written. */
  ghost predicate RebuiltUpTo(s: LocalState, next: LocalState, invs: seq<Rebuilt>, n: nat)
    requires n <= |invs|
  {
    forall k :: Plain(k) ==> EntryOf(next, k) == WithRebuilt(EntryOf(s, k), RebuiltFor(invs[..n], k))
  }

  lemma RebuiltOneMore(s: LocalState, next: LocalState, invs: seq<Rebuilt>, n: nat)
    requires n < |invs| && Plain(invs[n].at) && RebuiltUpTo(s, next, invs, n)
    ensures RebuiltUpTo(s, Put(next, invs[n].at, SetAcked(AckedInventory(invs[n].publishSeq, invs[n].parts, true))), invs, n + 1)
  {
    hide EntryOf, Put, Plain;
    var inv := invs[n];
    var v := AckedInventory(inv.publishSeq, inv.parts, true);
    NothingWritten(next, inv.at);
    PutOnly(next, next, inv.at, SetAcked(v));
    assert invs[..n + 1][..n] == invs[..n];
  }

  lemma RebuiltNone(s: LocalState, invs: seq<Rebuilt>)
    ensures RebuiltUpTo(s, s, invs, 0)
  {}

  class Store {
    var s: LocalState

    constructor ()
      ensures s == NewState && WellKeyed(s)
    {
      s := NewState;
    }

    /** A refused call, or a state write that is not `durable`, changes nothing. */
    method BeginPromotion(k: PartitionKey, intent: Intent, durable: bool) returns (ok: bool)
      requires Plain(k) && WellKeyed(s)
      modifies this
      ensures WellKeyed(s)
      ensures var e := Begin(EntryOf(old(s), k), intent);
        && (ok ==> e.Some? && Only(old(s), s, k, e.value)) && (!ok ==> s == old(s)) && (e.Some? && durable ==> ok)
      ensures ok ==> EntryOf(s, k) == EntryOf(old(s), k).(intent := Some(intent))
    {
      hide WellKeyed, KeyOf, IntakeFor, OwedFor, EntryOf, OthersKept, Put;
      BeginEffect(EntryOf(s, k), intent);
      EntryReads(s, k);
      NothingWritten(s, k);
      var key := KeyOf(k);
      if key in s.intents {
        if s.intents[key] == intent {
          return true;
        }
        if !SameCommand(s.intents[key], intent) {
          return false;
        }
      }
      if !durable {
        return false;
      }
      PutOnly(s, s, k, SetIntent(intent));
      PutKeyed(s, k, SetIntent(intent));
      s := Put(s, k, SetIntent(intent));
      return true;
    }

    method RecordAck(k: PartitionKey, ps: nat, ack: PromotionAck, base: Hex, snapshot: string, durable: bool) returns (ok: bool)
      requires Plain(k) && WellKeyed(s)
      modifies this
      ensures WellKeyed(s)
      ensures ok == durable && (!ok ==> s == old(s))
      ensures ok ==> Only(old(s), s, k, Ledger.RecordAck(EntryOf(old(s), k), ps, ack, base, snapshot))
    {
      hide WellKeyed, KeyOf, IntakeFor, OwedFor, EntryOf, OthersKept, Acknowledged;
      if !durable {
        return false;
      }
      AcknowledgedOnly(s, k, ps, ack, base, snapshot);
      AcknowledgedKeyed(s, k, ps, ack, base, snapshot);
      s := Acknowledged(s, k, ps, ack, base, snapshot);
      return true;
    }

    method RecordSettledNotApplied(k: PartitionKey, ps: nat, ack: PromotionAck, base: Hex, snapshot: string, durable: bool) returns (ok: bool)
      requires Plain(k) && WellKeyed(s)
      modifies this
      ensures WellKeyed(s)
      ensures ok == durable && (!ok ==> s == old(s))
      ensures ok ==> Only(old(s), s, k, Ledger.RecordSettledNotApplied(EntryOf(old(s), k), ps, ack, base, snapshot))
    {
      hide WellKeyed, KeyOf, IntakeFor, OwedFor, EntryOf, OthersKept, Acknowledged, Put;
      if !durable {
        return false;
      }
      EntryReads(s, k);
      AcknowledgedOnly(s, k, ps, ack, base, snapshot);
      AcknowledgedKeyed(s, k, ps, ack, base, snapshot);
      var next := Acknowledged(s, k, ps, ack, base, snapshot);
      var key := KeyOf(k);
      if key in next.intents && next.intents[key].promotionSeq == ps {
        PutOnly(s, next, k, ClearIntent);
        PutKeyed(next, k, ClearIntent);
        next := Put(next, k, ClearIntent);
      }
      s := next;
      return true;
    }

    method RecordRefreshedAck(k: PartitionKey, ack: PromotionAck, durable: bool) returns (ok: bool)
      requires Plain(k) && WellKeyed(s)
      modifies this
      ensures WellKeyed(s)
      ensures var e := Ledger.RecordRefreshedAck(EntryOf(old(s), k), ack);
        && (ok <==> e.Some? && durable) && (!ok ==> s == old(s)) && (ok ==> Only(old(s), s, k, e.value))
    {
      hide WellKeyed, KeyOf, EntryOf, OthersKept, Refreshed;
      RefreshedOnly(s, k, ack);
      RefreshedKeyed(s, k, ack);
      var key := KeyOf(k);
      if key !in s.lastAcks || s.lastAcks[key].promotionSeq != ack.promotionSeq || Get(s.watermarks, key, 0) != ack.promotionSeq
         || s.lastAcks[key].post != ack.post || s.lastAcks[key].applied != ack.applied || !durable
      {
        return false;
      }
      s := Refreshed(s, k, ack);
      return true;
    }

    method RecordAppliedPromotion(k: PartitionKey, ps: nat, ack: PromotionAck, base: Hex, snapshot: string,
                                  hs: seq<Hex>, names: seq<string>, durable: bool) returns (ok: bool)
      requires Plain(k) && WellKeyed(s)
      modifies this
      ensures WellKeyed(s)
      ensures ok == durable && (!ok ==> s == old(s))
      ensures ok ==> Only(old(s), s, k, RecordApplied(EntryOf(old(s), k), ps, ack, base, snapshot, hs, names))
      ensures ok ==>
        && var e, e' := EntryOf(old(s), k), EntryOf(s, k);
        && e' == e.(watermark := ps, lastAck := Some(ack), base := base, baseSnapshot := snapshot, intent := None,
                    unpromotedSum := e'.unpromotedSum, promotedUnsafe := e'.promotedUnsafe, acked := e'.acked)
        && (ack.applied ==>
          e'.acked == if ack.safePartitionParts == [] then None else Some(AckedInventory(ack.promotionSeq, ack.safePartitionParts, false)))
        && Add(Parse(e'.unpromotedSum), Sum(Values(hs))) == Parse(e.unpromotedSum)
        && (forall n :: n in e'.promotedUnsafe <==> n in e.promotedUnsafe || (n in names && n != ""))
    {
      hide WellKeyed, KeyOf, IntakeFor, OwedFor, EntryOf, OthersKept, SubtractAll, MergeNames, Applied, Add, Sum, Values, RecordApplied;
      AppliedEffect(EntryOf(s, k), ps, ack, base, snapshot, hs, names);
      AppliedIs(EntryOf(s, k), ps, ack, base, snapshot, hs, names);
      EntryReads(s, k);
      var acc := SubtractHashes(Parse(Get(s.unpromotedSums, KeyOf(k), Unset)), hs);
      var merged := MergePartNames(Get(s.promotedUnsafe, KeyOf(k), []), names);
      if !durable {
        return false;
      }
      if names == [] { MergeNothing(Get(s.promotedUnsafe, KeyOf(k), []), names); }
      AppliedOnly(s, k, ps, ack, base, snapshot, acc, names, merged);
      AppliedKeyed(s, k, ps, ack, base, snapshot, acc, names, merged);
      s := Applied(s, k, ps, ack, base, snapshot, acc, names, merged);
      return true;
    }

    method AddUnpromotedPart(k: PartitionKey, name: string, h: Hash) returns (ok: bool)
      requires Plain(k) && WellKeyed(s)
      modifies this
      ensures WellKeyed(s)
      ensures var e := Ledger.AddUnpromotedPart(EntryOf(old(s), k), name, h);
        && (ok <==> e.Some?) && (!ok ==> s == old(s)) && (ok ==> Only(old(s), s, k, e.value))
    {
      hide WellKeyed, KeyOf, IntakeFor, OwedFor, EntryOf, OthersKept, Put, Add, PartKeyOf;
      EntryReads(s, k);
      NothingWritten(s, k);
      IntakeValue(s.intakeParts, k, name);
      var partKey := PartKeyOf(k, name);
      if partKey in s.intakeParts {
        return s.intakeParts[partKey] == Value(h);
      }
      var sum := Value(Add(Parse(Get(s.unpromotedSums, KeyOf(k), Unset)), h));
      PutOnly(s, s, k, SetSum(sum));
      PutKeyed(s, k, SetSum(sum));
      s := Put(s, k, SetSum(sum));
      PutOnly(old(s), s, k, SetPart(name, Value(h)));
      PutKeyed(s, k, SetPart(name, Value(h)));
      s := Put(s, k, SetPart(name, Value(h)));
      return true;
    }

    method RemoveUnpromotedPart(k: PartitionKey, name: string, h: Hash) returns (ok: bool)
      requires Plain(k) && WellKeyed(s)
      modifies this
      ensures WellKeyed(s)
      ensures var e := Ledger.RemoveUnpromotedPart(EntryOf(old(s), k), name, h);
        && (ok <==> e.Some?) && (!ok ==> s == old(s)) && (ok ==> Only(old(s), s, k, e.value))
    {
      hide WellKeyed, KeyOf, IntakeFor, OwedFor, EntryOf, OthersKept, Put, Sub, PartKeyOf;
      EntryReads(s, k);
      NothingWritten(s, k);
      IntakeValue(s.intakeParts, k, name);
      var partKey := PartKeyOf(k, name);
      if partKey in s.intakeParts && s.intakeParts[partKey] == Unset {
        return true;
      }
      if partKey in s.intakeParts && s.intakeParts[partKey] != Value(h) {
        return false;
      }
      var sum := Value(Sub(Parse(Get(s.unpromotedSums, KeyOf(k), Unset)), h));
      PutOnly(s, s, k, SetSum(sum));
      PutKeyed(s, k, SetSum(sum));
      s := Put(s, k, SetSum(sum));
      PutOnly(old(s), s, k, SetPart(name, Unset));
      PutKeyed(s, k, SetPart(name, Unset));
      s := Put(s, k, SetPart(name, Unset));
      return true;
    }

    method RecordExecutedCleanup(k: PartitionKey, c: Cleanup, ack: CleanupAck, durable: bool) returns (ok: bool)
      requires Plain(k) && WellKeyed(s)
      modifies this
      ensures WellKeyed(s)
      ensures var e := Ledger.RecordExecutedCleanup(EntryOf(old(s), k), k, c, ack);
        && (ok ==> e.Some? && Only(old(s), s, k, e.value)) && (!ok ==> s == old(s)) && (e.Some? && durable ==> ok)
    {
      hide WellKeyed, KeyOf, IntakeFor, OwedFor, EntryOf, OthersKept, RejectedPartsOk, RemoveRejected, Without,
           ForgetPromoted;
      NothingWritten(s, k);
      if ack.id != CleanupId(c.promotionSeq, c.rejectedBlockSeq) {
        return false;
      }
      var next, changed := s, false;
      if c.rejectedBlockSeq != 0 {
        var allowed := CheckRejectedParts(s, k, c.promotionSeq, c.parts);
        if !allowed {
          return false;
        }
        next, changed := RemoveRejectedParts(s, k, c.parts);
      }
      ForgetPromotedOnly(s, next, k, Names(c.parts));
      ForgetPromotedKeyed(next, k, Names(c.parts));
      var forgot := ForgetPromoted(next, k, Names(c.parts));
      changed := changed || forgot != next;
      PutOnly(s, forgot, k, SetOwed(ack));
      PutKeyed(forgot, k, SetOwed(ack));
      if OwedKey(k, ack.id) !in forgot.owed || forgot.owed[OwedKey(k, ack.id)] != ack {
        changed := true;
      } else {
        assert forgot.owed[OwedKey(k, ack.id) := ack] == forgot.owed;
      }
      if !changed {
        return true;
      }
      if !durable {
        return false;
      }
      s := Put(forgot, k, SetOwed(ack));
      return true;
    }

    method ClearOwedCleanupAck(k: PartitionKey, ack: CleanupAck, durable: bool) returns (ok: bool)
      requires Plain(k) && WellKeyed(s)
      modifies this
      ensures WellKeyed(s)
      ensures ok ==> Only(old(s), s, k, ClearOwed(EntryOf(old(s), k), ack))
      ensures (!ok ==> s == old(s)) && (durable ==> ok)
    {
      hide WellKeyed, KeyOf, IntakeFor, OwedFor, EntryOf, OthersKept;
      EntryReads(s, k);
      NothingWritten(s, k);
      OwedValue(s.owed, k, ack.id);
      if OwedKey(k, ack.id) !in s.owed || s.owed[OwedKey(k, ack.id)] != ack {
        return true;
      }
      if !durable {
        return false;
      }
      PutOnly(s, s, k, ClearOwedAck(ack.id));
      PutKeyed(s, k, ClearOwedAck(ack.id));
      s := Put(s, k, ClearOwedAck(ack.id));
      return true;
    }

    /** Refused while a promotion of the table is unresolved; else the sorted
        names of its promoted parts that no cleanup removed yet. */
    method PromotedUnsafeParts(table: string) returns (names: Option<seq<string>>)
      requires NulFree(table) && WellKeyed(s)
      ensures names.None? <==> exists k :: Plain(k) && k.table == table && Pending(s, k)
      ensures names.Some? ==> Ordered(names.value, StringLe) && forall n :: n in names.value <==> Promoted(s, table, n)
    {
      hide KeyOf, TablePrefix, IsKey;
      KeysOfTable(s.intents, table, _ => true);
      var pending := AnyKey(s.intents, TablePrefix(table), _ => true);
      if pending {
        return None;
      }
      var out := CollectPromoted(s, table);
      StringOrder();
      SortOrdered(out, StringLe);
      forall n ensures n in Sort(out, StringLe) <==> n in out {
        assert n in Sort(out, StringLe) <==> n in multiset(Sort(out, StringLe));
        assert n in out <==> n in multiset(out);
      }
      return Some(Sort(out, StringLe));
    }

    /** Forgets the table's ledger exactly when it is quiescent. */
    method ForgetTable(table: string, durable: bool) returns (ok: bool)
      requires NulFree(table) && WellKeyed(s)
      modifies this
      ensures WellKeyed(s) && (!ok ==> s == old(s)) && s.watermarks == old(s).watermarks
      ensures ok ==> TableQuiescent(old(s), table)
      ensures TableQuiescent(old(s), table) && durable ==> ok
      ensures ok ==> forall k :: Plain(k) ==>
        EntryOf(s, k) == if k.table == table then EmptyEntry.(watermark := EntryOf(old(s), k).watermark) else EntryOf(old(s), k)
    {
      hide Forget, EntryOf, TableQuiescent, Forgotten, IsKey, IsPartKey, Plain, TablePrefix;
      var quiet := IsTableQuiescent(s, table);
      if !quiet {
        return false;
      }
      var prefix := TablePrefix(table);
      var baseRoots, c1 := ForgetKeys(s.baseRoots, prefix);
      var baseSnapshots, c2 := ForgetKeys(s.baseSnapshots, prefix);
      var unpromotedSums, c3 := ForgetKeys(s.unpromotedSums, prefix);
      var lastAcks, c4 := ForgetKeys(s.lastAcks, prefix);
      var intakeParts, c5 := ForgetKeys(s.intakeParts, prefix);
      var promotedUnsafe, c6 := ForgetKeys(s.promotedUnsafe, prefix);
      var ackedInventories, c7 := ForgetKeys(s.ackedInventories, prefix);
      var next := s.(baseRoots := baseRoots, baseSnapshots := baseSnapshots, unpromotedSums := unpromotedSums, lastAcks := lastAcks,
                     intakeParts := intakeParts, promotedUnsafe := promotedUnsafe, ackedInventories := ackedInventories);
      assert next == ForgetAll(s, table);
      ForgetKeepsKeys(s, table);
      forall k | Plain(k)
        ensures EntryOf(next, k) == if k.table == table then EmptyEntry.(watermark := EntryOf(s, k).watermark) else EntryOf(s, k)
      {
        ForgetAllEntries(s, table, k);
        if k.table == table {
          QuietEntry(s, table, k);
          ForgottenIsEmpty(EntryOf(s, k));
        }
      }
      if !(c1 || c2 || c3 || c4 || c5 || c6 || c7) {
        return true;
      }
      if !durable {
        return false;
      }
      s := next;
      return true;
    }

    /** Marks restored inventories, all or none: refused while any promotion is
        unresolved and for a journal behind one of the publications. */
    method RecordRebuiltSafeInventories(invs: seq<Rebuilt>, durable: bool) returns (ok: bool)
      requires WellKeyed(s) && forall inv :: inv in invs ==> Plain(inv.at)
      modifies this
      ensures WellKeyed(s)
      ensures ok <==> durable && old(s).intents == map[]
                      && forall i :: 0 <= i < |invs| ==> EntryOf(old(s), invs[i].at).watermark >= invs[i].publishSeq
      ensures !ok ==> s == old(s)
      ensures ok ==> forall k :: Plain(k) ==> EntryOf(s, k) == WithRebuilt(EntryOf(old(s), k), RebuiltFor(invs, k))
      ensures ok ==> forall k :: Plain(k) ==> EntryOf(s, k) == EntryOf(old(s), k).(acked := EntryOf(s, k).acked)
      ensures ok ==> forall k :: Plain(k) && (forall inv :: inv in invs ==> inv.at != k) ==> EntryOf(s, k) == EntryOf(old(s), k)
      ensures ok ==> forall i :: 0 <= i < |invs| && (forall j :: i < j < |invs| ==> invs[j].at != invs[i].at) ==>
        EntryOf(s, invs[i].at).acked == Some(AckedInventory(invs[i].publishSeq, invs[i].parts, true))
    {
      hide WellKeyed, EntryOf, Plain, RebuiltFor;
      RebuiltLists(invs);
      var admitted := CheckRebuild(s, invs);
      if !admitted || !durable {
        return false;
      }
      var next := WriteRebuilt(s, invs);
      s := next;
      return true;
    }
  }

  lemma WatermarkReads(s: LocalState, k: PartitionKey)
    ensures EntryOf(s, k).watermark == Get(s.watermarks, KeyOf(k), 0)
  {
    hide KeyOf;
  }

  /** checkRebuild: no intent anywhere, and no watermark behind a publication. */
  method CheckRebuild(s: LocalState, invs: seq<Rebuilt>) returns (ok: bool)
    ensures ok <==> s.intents == map[] && forall i :: 0 <= i < |invs| ==> EntryOf(s, invs[i].at).watermark >= invs[i].publishSeq
  {
    hide EntryOf, KeyOf;
    if |s.intents| > 0 {
      return false;
    }
    for i := 0 to |invs|
      invariant forall j :: 0 <= j < i ==> EntryOf(s, invs[j].at).watermark >= invs[j].publishSeq
    {
      WatermarkReads(s, invs[i].at);
      if Get(s.watermarks, KeyOf(invs[i].at), 0) < invs[i].publishSeq {
        return false;
      }
    }
    return true;
  }

  method WriteRebuilt(s: LocalState, invs: seq<Rebuilt>) returns (next: LocalState)
    requires WellKeyed(s) && forall inv :: inv in invs ==> Plain(inv.at)
    ensures WellKeyed(next) && forall k :: Plain(k) ==> EntryOf(next, k) == WithRebuilt(EntryOf(s, k), RebuiltFor(invs, k))
  {
    hide WellKeyed, EntryOf, RebuiltUpTo, Put, Plain, RebuiltFor;
    next := s;
    RebuiltNone(s, invs);
    for i := 0 to |invs|
      invariant RebuiltUpTo(s, next, invs, i) && WellKeyed(next)
    {
      var inv := AckedInventory(invs[i].publishSeq, invs[i].parts, true);
      RebuiltOneMore(s, next, invs, i);
      PutKeyed(next, invs[i].at, SetAcked(inv));
      next := Put(next, invs[i].at, SetAcked(inv));
    }
    RebuiltDone(s, next, invs);
  }

  lemma RebuiltDone(s: LocalState, next: LocalState, invs: seq<Rebuilt>)
    requires RebuiltUpTo(s, next, invs, |invs|)
    ensures forall k :: Plain(k) ==> EntryOf(next, k) == WithRebuilt(EntryOf(s, k), RebuiltFor(invs, k))
  {
    hide EntryOf;
    assert invs[..|invs|] == invs;
  }
}
