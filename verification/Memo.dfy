/** The verifier's replay memo: a least-recently-used table of encoded results,
    bounded in entries and in bytes. */
module Memo {
  import opened Options

  const MEMO_ENTRIES: nat := 128
  const MEMO_BYTES: nat := 8388608
  const ENTRY_OVERHEAD: nat := 256

  datatype Key = Key(run: nat, digest: string)

  datatype Cached = Cached(value: string, cost: nat)

  /** `lru` lists the keys, most recently used first. */
  datatype Table = Table(lru: seq<Key>, entries: map<Key, Cached>, bytes: nat)

  const EmptyTable: Table := Table([], map[], 0)

  function CostOf(entries: map<Key, Cached>, k: Key): nat {
    if k in entries then entries[k].cost else 0
  }

  function TotalCost(lru: seq<Key>, entries: map<Key, Cached>): nat {
    if lru == [] then 0 else TotalCost(lru[..|lru| - 1], entries) + CostOf(entries, lru[|lru| - 1])
  }

  ghost predicate NoRepeats(lru: seq<Key>) {
    forall i, j :: 0 <= i < j < |lru| ==> lru[i] != lru[j]
  }

  /** List and map are in bijection, the byte count is the sum of the costs, and
      both bounds hold. */
  ghost predicate Valid(t: Table) {
    && NoRepeats(t.lru) && (forall k :: k in t.lru <==> k in t.entries)
    && t.bytes == TotalCost(t.lru, t.entries)
    && (forall k :: k in t.entries ==> t.entries[k].cost == |t.entries[k].value| + ENTRY_OVERHEAD)
    && |t.lru| <= MEMO_ENTRIES && t.bytes <= MEMO_BYTES
  }

  /** The bounds in numbers: 128 entries and 8 MiB, with 256 bytes counted for
      each entry beside its value. */
  lemma BoundsAre(t: Table)
    requires Valid(t)
    ensures |t.entries| <= 128 && TotalCost(t.lru, t.entries) <= 8 * 1024 * 1024
    ensures forall k :: k in t.entries ==> CostOf(t.entries, k) == |t.entries[k].value| + 256
  {
    TableSize(t);
  }

  /** Room is made exactly while there are 128 entries, or the bytes would go
      past 8 MiB. */
  lemma EvictsExactly(t: Table, cost: nat)
    ensures MustEvict(t, cost) <==> |t.entries| >= 128 || t.bytes + cost > 8 * 1024 * 1024
  {}

  // ---- list operations ----------------------------------------------------------------------

  function Except(lru: seq<Key>, gone: set<Key>): seq<Key> {
    if lru == [] then []
    else if lru[0] in gone then Except(lru[1..], gone)
    else [lru[0]] + Except(lru[1..], gone)
  }

  lemma {:induction false} ExceptMembers(lru: seq<Key>, gone: set<Key>, k: Key)
    ensures k in Except(lru, gone) <==> k in lru && k !in gone
  {
    if lru != [] { ExceptMembers(lru[1..], gone, k); }
  }

  lemma NoRepeatsTail(k: Key, rest: seq<Key>)
    ensures NoRepeats([k] + rest) <==> NoRepeats(rest) && k !in rest
  {
    var lru := [k] + rest;
    if NoRepeats(lru) {
      forall i, j | 0 <= i < j < |rest| ensures rest[i] != rest[j] { assert lru[i + 1] != lru[j + 1]; }
      forall i | 0 <= i < |rest| ensures rest[i] != k { assert lru[0] != lru[i + 1]; }
    }
  }

  lemma {:induction false} ExceptNoRepeats(lru: seq<Key>, gone: set<Key>)
    requires NoRepeats(lru)
    ensures NoRepeats(Except(lru, gone)) && |Except(lru, gone)| <= |lru|
  {
    if lru != [] {
      assert lru == [lru[0]] + lru[1..];
      NoRepeatsTail(lru[0], lru[1..]);
      ExceptNoRepeats(lru[1..], gone);
      ExceptMembers(lru[1..], gone, lru[0]);
      NoRepeatsTail(lru[0], Except(lru[1..], gone));
    }
  }

  lemma {:induction false} ExceptTwice(lru: seq<Key>, a: set<Key>, b: set<Key>)
    ensures Except(Except(lru, a), b) == Except(lru, a + b)
  {
    if lru != [] {
      ExceptTwice(lru[1..], a, b);
      if lru[0] !in a { assert Except(lru, a)[1..] == Except(lru[1..], a); }
    }
  }

  lemma {:induction false} ExceptNone(lru: seq<Key>, gone: set<Key>)
    requires forall k :: k in lru ==> k !in gone
    ensures Except(lru, gone) == lru
  {
    if lru != [] { ExceptNone(lru[1..], gone); }
  }

  lemma {:induction false} CostConcat(a: seq<Key>, b: seq<Key>, entries: map<Key, Cached>)
    ensures TotalCost(a + b, entries) == TotalCost(a, entries) + TotalCost(b, entries)
  {
    if b == [] {
      assert a + b == a;
    } else {
      assert (a + b)[..|a + b| - 1] == a + b[..|b| - 1];
      CostConcat(a, b[..|b| - 1], entries);
    }
  }

  lemma {:induction false} CostFrame(lru: seq<Key>, e: map<Key, Cached>, e': map<Key, Cached>)
    requires forall k :: k in lru ==> CostOf(e, k) == CostOf(e', k)
    ensures TotalCost(lru, e) == TotalCost(lru, e')
  {
    if lru != [] { CostFrame(lru[..|lru| - 1], e, e'); }
  }

  lemma CostOne(k: Key, entries: map<Key, Cached>)
    ensures TotalCost([k], entries) == CostOf(entries, k)
  {
    assert [k][..0] == [];
  }

  /** Taking one key out of the list takes its cost out of the sum. */
  lemma {:induction false} CostExcept(lru: seq<Key>, k: Key, entries: map<Key, Cached>)
    requires NoRepeats(lru) && k in lru
    ensures TotalCost(lru, entries) == TotalCost(Except(lru, {k}), entries) + CostOf(entries, k)
  {
    var h, rest := lru[0], lru[1..];
    assert lru == [h] + rest;
    NoRepeatsTail(h, rest);
    CostConcat([h], rest, entries);
    CostOne(h, entries);
    if h == k {
      ExceptNone(rest, {k});
    } else {
      CostExcept(rest, k, entries);
      CostConcat([h], Except(rest, {k}), entries);
    }
  }

  // ---- table operations -----------------------------------------------------------------------

  function MoveToFront(t: Table, k: Key): Table {
    t.(lru := [k] + Except(t.lru, {k}))
  }

  function RemoveKey(t: Table, k: Key): Table {
    if k in t.entries && t.entries[k].cost <= t.bytes then
      Table(Except(t.lru, {k}), t.entries - {k}, t.bytes - t.entries[k].cost)
    else t
  }

  predicate MustEvict(t: Table, cost: nat) {
    |t.entries| >= MEMO_ENTRIES || t.bytes + cost > MEMO_BYTES
  }

  lemma MoveKeepsValid(t: Table, k: Key)
    requires Valid(t) && k in t.entries
    ensures Valid(MoveToFront(t, k))
  {
    var rest := Except(t.lru, {k});
    ExceptNoRepeats(t.lru, {k});
    ExceptMembers(t.lru, {k}, k);
    NoRepeatsTail(k, rest);
    CostExcept(t.lru, k, t.entries);
    CostConcat([k], rest, t.entries);
    CostOne(k, t.entries);
    forall x ensures x in [k] + rest <==> x in t.entries { ExceptMembers(t.lru, {k}, x); }
    SameLength([k] + rest, t.lru);
  }

  lemma SameLength(a: seq<Key>, b: seq<Key>)
    requires NoRepeats(a) && NoRepeats(b) && forall k :: k in a <==> k in b
    ensures |a| == |b|
  {
    KeysCounted(a);
    KeysCounted(b);
    assert (set k | k in a) == (set k | k in b);
  }

  lemma {:induction false} KeysCounted(lru: seq<Key>)
    requires NoRepeats(lru)
    ensures |set k | k in lru| == |lru|
  {
    if lru != [] {
      assert lru == [lru[0]] + lru[1..];
      NoRepeatsTail(lru[0], lru[1..]);
      KeysCounted(lru[1..]);
      assert (set k | k in lru) == {lru[0]} + (set k | k in lru[1..]);
    }
  }

  lemma RemoveKeepsValid(t: Table, k: Key)
    requires Valid(t) && k in t.entries
    ensures t.entries[k].cost <= t.bytes && Valid(RemoveKey(t, k))
    ensures RemoveKey(t, k) == Table(Except(t.lru, {k}), t.entries - {k}, t.bytes - t.entries[k].cost)
    ensures |RemoveKey(t, k).lru| < |t.lru|
  {
    hide Except, TotalCost, NoRepeats;
    var rest := Except(t.lru, {k});
    CostExcept(t.lru, k, t.entries);
    ExceptNoRepeats(t.lru, {k});
    assert forall x :: x in rest <==> x in t.lru && x != k by {
      forall x ensures x in rest <==> x in t.lru && x != k { ExceptMembers(t.lru, {k}, x); }
    }
    CostFrame(rest, t.entries, t.entries - {k});
    ExceptShorter(t.lru, k);
  }

  lemma {:induction false} ExceptShorter(lru: seq<Key>, k: Key)
    requires k in lru
    ensures |Except(lru, {k})| < |lru|
  {
    if lru[0] == k {
      ExceptNoLonger(lru[1..], {k});
    } else {
      ExceptShorter(lru[1..], k);
    }
  }

  lemma {:induction false} ExceptNoLonger(lru: seq<Key>, gone: set<Key>)
    ensures |Except(lru, gone)| <= |lru|
  {
    if lru != [] { ExceptNoLonger(lru[1..], gone); }
  }

  lemma TableSize(t: Table)
    requires Valid(t)
    ensures |t.entries| == |t.lru|
  {
    KeysCounted(t.lru);
    assert (set k | k in t.lru) == t.entries.Keys;
  }

  // ---- eviction -----------------------------------------------------------------------------------

  /** Drops from the back until an entry of this cost fits. */
  function EvictFor(t: Table, cost: nat): Table
    decreases |t.lru|
  {
    if !MustEvict(t, cost) || t.lru == [] then t
    else
      var next := RemoveKey(t, t.lru[|t.lru| - 1]);
      if |next.lru| < |t.lru| then EvictFor(next, cost) else t
  }

  lemma {:induction false} ExceptLast(lru: seq<Key>)
    requires NoRepeats(lru) && lru != []
    ensures Except(lru, {lru[|lru| - 1]}) == lru[..|lru| - 1]
  {
    if |lru| > 1 {
      assert lru == [lru[0]] + lru[1..];
      NoRepeatsTail(lru[0], lru[1..]);
      assert lru[1..][|lru| - 2] == lru[|lru| - 1];
      ExceptLast(lru[1..]);
    }
  }

  ghost predicate SubTable(a: map<Key, Cached>, b: map<Key, Cached>) {
    forall k :: k in a ==> k in b && a[k] == b[k]
  }

  /** The `n` most recent entries leave no room for an entry of this cost. */
  ghost predicate NoRoom(t: Table, n: nat, cost: nat)
    requires n <= |t.lru|
  {
    n >= MEMO_ENTRIES || TotalCost(t.lru[..n], t.entries) + cost > MEMO_BYTES
  }

  lemma EvictStops(t: Table, cost: nat)
    requires !MustEvict(t, cost)
    ensures EvictFor(t, cost) == t
  {}

  lemma EvictUnfolds(t: Table, cost: nat)
    requires Valid(t) && cost <= MEMO_BYTES && MustEvict(t, cost)
    ensures t.lru != [] && var last := t.lru[|t.lru| - 1];
      && last in t.entries && RemoveKey(t, last).lru == t.lru[..|t.lru| - 1]
      && Valid(RemoveKey(t, last)) && EvictFor(t, cost) == EvictFor(RemoveKey(t, last), cost)
  {
    hide Except, NoRepeats;
    TableSize(t);
    RemoveKeepsValid(t, t.lru[|t.lru| - 1]);
    ExceptLast(t.lru);
  }

  /** Eviction keeps the longest run of most recently used entries that leaves
      room, and it always ends. */
  lemma {:induction false} EvictKeepsRecent(t: Table, cost: nat)
    requires Valid(t) && cost <= MEMO_BYTES
    ensures Valid(EvictFor(t, cost)) && !MustEvict(EvictFor(t, cost), cost)
    ensures EvictFor(t, cost).lru <= t.lru && SubTable(EvictFor(t, cost).entries, t.entries)
    ensures forall n :: |EvictFor(t, cost).lru| < n <= |t.lru| ==> NoRoom(t, n, cost)
    decreases |t.lru|
  {
    hide Except, NoRepeats, Valid, TotalCost, NoRoom;
    if MustEvict(t, cost) {
      EvictUnfolds(t, cost);
      var next := RemoveKey(t, t.lru[|t.lru| - 1]);
      EvictKeepsRecent(next, cost);
      forall n | |EvictFor(next, cost).lru| < n <= |t.lru| ensures NoRoom(t, n, cost) {
        if n == |t.lru| {
          NoRoomAtAll(t, cost);
        } else {
          NoRoomBefore(t, n, cost);
        }
      }
    }
  }

  lemma NoRoomAtAll(t: Table, cost: nat)
    requires Valid(t) && MustEvict(t, cost)
    ensures NoRoom(t, |t.lru|, cost)
  {
    TableSize(t);
    assert t.lru[..|t.lru|] == t.lru;
  }

  lemma NoRoomBefore(t: Table, n: nat, cost: nat)
    requires Valid(t) && n < |t.lru| && RemoveKey(t, t.lru[|t.lru| - 1]).lru == t.lru[..|t.lru| - 1]
    requires NoRoom(RemoveKey(t, t.lru[|t.lru| - 1]), n, cost)
    ensures NoRoom(t, n, cost)
  {
    hide Except;
    var last := t.lru[|t.lru| - 1];
    var next := RemoveKey(t, last);
    assert t.lru[..n] == next.lru[..n];
    CostFrame(t.lru[..n], t.entries, next.entries);
  }

  // ---- the memo -------------------------------------------------------------------------------------

  function PutSpec(t: Table, k: Key, value: string): Table {
    if |value| > MEMO_BYTES - ENTRY_OVERHEAD then t
    else if k in t.entries then MoveToFront(t, k)
    else
      var cost := |value| + ENTRY_OVERHEAD;
      var room := EvictFor(t, cost);
      Table([k] + room.lru, room.entries[k := Cached(value, cost)], room.bytes + cost)
  }

  lemma PutKeepsValid(t: Table, k: Key, value: string)
    requires Valid(t)
    ensures Valid(PutSpec(t, k, value))
  {
    hide Except, NoRepeats, EvictFor, TotalCost, MoveToFront;
    if |value| <= MEMO_BYTES - ENTRY_OVERHEAD {
      if k in t.entries {
        MoveKeepsValid(t, k);
      } else {
        var cost := |value| + ENTRY_OVERHEAD;
        var room := EvictFor(t, cost);
        EvictKeepsRecent(t, cost);
        TableSize(room);
        NoRepeatsTail(k, room.lru);
        var entries := room.entries[k := Cached(value, cost)];
        CostConcat([k], room.lru, entries);
        CostOne(k, entries);
        CostFrame(room.lru, room.entries, entries);
      }
    }
  }

  // ---- what the operations are for ---------------------------------------------------------------------

  /** `k` is the most recently used key, and the others are as before, in the
      same order. */
  ghost predicate Fronted(lru: seq<Key>, before: seq<Key>, k: Key) {
    exists i :: 0 <= i < |before| && before[i] == k && lru == [k] + before[..i] + before[i + 1..]
  }

  lemma {:induction false} ExceptAt(lru: seq<Key>, i: nat)
    requires NoRepeats(lru) && i < |lru|
    ensures Except(lru, {lru[i]}) == lru[..i] + lru[i + 1..]
  {
    var k := lru[i];
    assert lru == [lru[0]] + lru[1..];
    NoRepeatsTail(lru[0], lru[1..]);
    if i == 0 {
      ExceptNone(lru[1..], {k});
    } else {
      assert lru[1..][i - 1] == k && lru[0] != k;
      ExceptAt(lru[1..], i - 1);
      assert lru[1..][..i - 1] == lru[1..i] && lru[1..][i..] == lru[i + 1..];
      assert [lru[0]] + (lru[1..i] + lru[i + 1..]) == lru[..i] + lru[i + 1..];
    }
  }

  /** A hit makes its key the most recent and changes nothing else. */
  lemma HitIsFronted(t: Table, k: Key)
    requires Valid(t) && k in t.entries
    ensures var t' := MoveToFront(t, k);
      t'.lru != [] && t'.lru[0] == k && Fronted(t'.lru, t.lru, k) && t'.entries == t.entries && t'.bytes == t.bytes
  {
    hide TotalCost, Except;
    assert k in t.lru;
    var i :| 0 <= i < |t.lru| && t.lru[i] == k;
    ExceptAt(t.lru, i);
    assert [k] + (t.lru[..i] + t.lru[i + 1..]) == [k] + t.lru[..i] + t.lru[i + 1..];
  }

  /** No more than the `kept` most recent entries leave room for this cost. */
  ghost predicate FullBeyond(t: Table, kept: nat, cost: nat) {
    forall n :: kept < n <= |t.lru| ==> NoRoom(t, n, cost)
  }

  /** A value that fits is stored and is the most recent; of the others the
      longest run of recent ones that leaves room stays, unchanged. */
  lemma PutStores(t: Table, k: Key, value: string)
    requires Valid(t) && |value| <= MEMO_BYTES - ENTRY_OVERHEAD
    ensures var t' := PutSpec(t, k, value);
      && k in t'.entries && t'.lru != [] && t'.lru[0] == k
      && t'.entries[k].value == (if k in t.entries then t.entries[k].value else value)
      && (k in t.entries ==> Fronted(t'.lru, t.lru, k) && t'.entries == t.entries)
      && (k !in t.entries ==>
        && t'.lru[1..] <= t.lru
        && (forall x :: x in t'.entries && x != k <==> x in t'.lru[1..])
        && (forall x :: x in t'.entries && x != k ==> x in t.entries && t'.entries[x] == t.entries[x])
        && FullBeyond(t, |t'.lru| - 1, |value| + ENTRY_OVERHEAD))
  {
    hide Except, EvictFor, NoRoom, MoveToFront, MustEvict;
    PutKeepsValid(t, k, value);
    if k in t.entries {
      HitIsFronted(t, k);
    } else {
      var cost := |value| + ENTRY_OVERHEAD;
      var room, t' := EvictFor(t, cost), PutSpec(t, k, value);
      EvictKeepsRecent(t, cost);
      assert t'.lru == [k] + room.lru && t'.lru[1..] == room.lru;
      NoRepeatsTail(k, room.lru);
    }
  }

  /** A value too large for the memo is not stored. */
  lemma PutRefuses(t: Table, k: Key, value: string)
    requires |value| > MEMO_BYTES - ENTRY_OVERHEAD
    ensures PutSpec(t, k, value) == t
  {}

  /** `a` comes before `b` in the list. */
  ghost predicate Before(lru: seq<Key>, a: Key, b: Key) {
    exists i, j :: 0 <= i < j < |lru| && lru[i] == a && lru[j] == b
  }

  lemma {:induction false} ExceptKeepsOrder(lru: seq<Key>, gone: set<Key>, a: Key, b: Key)
    requires Before(Except(lru, gone), a, b)
    ensures Before(lru, a, b)
  {
    var out := Except(lru, gone);
    var i, j :| 0 <= i < j < |out| && out[i] == a && out[j] == b;
    var rest := Except(lru[1..], gone);
    if lru[0] in gone {
      assert Before(rest, a, b);
      ExceptKeepsOrder(lru[1..], gone, a, b);
      BeforeTail(lru, a, b);
    } else if i > 0 {
      assert rest[i - 1] == a && rest[j - 1] == b;
      ExceptKeepsOrder(lru[1..], gone, a, b);
      BeforeTail(lru, a, b);
    } else {
      assert rest[j - 1] == b;
      ExceptMembers(lru[1..], gone, b);
      var m :| 0 <= m < |lru[1..]| && lru[1..][m] == b;
      assert lru[0] == a && lru[m + 1] == b;
    }
  }

  lemma OrderKept(lru: seq<Key>, gone: set<Key>)
    ensures forall a, b :: Before(Except(lru, gone), a, b) ==> Before(lru, a, b)
  {
    hide Except, Before;
    forall a, b | Before(Except(lru, gone), a, b) ensures Before(lru, a, b) { ExceptKeepsOrder(lru, gone, a, b); }
  }

  lemma BeforeTail(lru: seq<Key>, a: Key, b: Key)
    requires lru != [] && Before(lru[1..], a, b)
    ensures Before(lru, a, b)
  {
    var i, j :| 0 <= i < j < |lru[1..]| && lru[1..][i] == a && lru[1..][j] == b;
    assert lru[i + 1] == a && lru[j + 1] == b;
  }

  ghost function OfRun(t: Table, run: nat): set<Key> {
    set k | k in t.entries && k.run == run
  }

  /** What is left after a run's entries are removed, in the same order. */
  ghost function RemoveRunSpec(t: Table, run: nat): Table {
    var lru := Except(t.lru, OfRun(t, run));
    Table(lru, t.entries - OfRun(t, run), TotalCost(lru, t.entries))
  }

  /** Some of the run's entries are gone, and the rest of them are still to be
      looked at. */
  ghost predicate Removing(before: Table, now: Table, run: nat, gone: set<Key>, left: set<Key>) {
    && Valid(now) && left <= now.entries.Keys
    && now.lru == Except(before.lru, gone) && now.entries == before.entries - gone
    && gone <= OfRun(before, run) <= gone + left
  }

  lemma NoneRemoved(t: Table, run: nat)
    requires Valid(t)
    ensures Removing(t, t, run, {}, t.entries.Keys)
  {
    hide Valid, Except;
    ExceptNone(t.lru, {});
  }

  lemma OneMoreKey(before: Table, now: Table, run: nat, gone: set<Key>, left: set<Key>, k: Key)
    requires Removing(before, now, run, gone, left) && k in left
    ensures k in now.entries
    ensures var now', gone' := if k.run == run then RemoveKey(now, k) else now, if k.run == run then gone + {k} else gone;
      Removing(before, now', run, gone', left - {k}) && Valid(now') && left - {k} <= now'.entries.Keys
  {
    hide Valid, Except, RemoveKey;
    if k.run == run {
      RemoveKeepsValid(now, k);
      ExceptTwice(before.lru, gone, {k});
      assert before.entries - gone - {k} == before.entries - (gone + {k});
    }
  }

  lemma AllRemoved(before: Table, now: Table, run: nat, gone: set<Key>)
    requires Removing(before, now, run, gone, {})
    ensures now == RemoveRunSpec(before, run)
    ensures forall k :: k in now.entries <==> k in before.entries && k.run != run
    ensures forall k :: k in now.entries ==> now.entries[k] == before.entries[k]
    ensures forall a, b :: Before(now.lru, a, b) ==> Before(before.lru, a, b)
  {
    hide Valid, Except, TotalCost, Before;
    assert gone == OfRun(before, run);
    OrderKept(before.lru, gone);
    BytesWithin(now, before.entries);
  }

  lemma BytesWithin(t: Table, all: map<Key, Cached>)
    requires Valid(t) && SubTable(t.entries, all)
    ensures t.bytes == TotalCost(t.lru, all)
  {
    CostFrame(t.lru, t.entries, all);
  }

  class ReplayMemo {
    var lru: seq<Key>
    var entries: map<Key, Cached>
    var bytes: nat

    ghost function Value(): Table
      reads this
    {
      Table(lru, entries, bytes)
    }

    constructor ()
      ensures Value() == EmptyTable && Valid(Value())
    {
      lru, entries, bytes := [], map[], 0;
    }

    method Get(k: Key) returns (value: Option<string>)
      requires Valid(Value())
      modifies this`lru
      ensures Valid(Value())
      ensures value == if k in entries then Some(entries[k].value) else None
      ensures Value() == if k in entries then MoveToFront(old(Value()), k) else old(Value())
      ensures k in entries ==> lru != [] && lru[0] == k && Fronted(lru, old(lru), k)
    {
      if k !in entries {
        return None;
      }
      MoveKeepsValid(Value(), k);
      HitIsFronted(Value(), k);
      lru := [k] + Except(lru, {k});
      return Some(entries[k].value);
    }

    method Remove(k: Key)
      requires Valid(Value()) && k in entries
      modifies this
      ensures Valid(Value()) && Value() == RemoveKey(old(Value()), k)
      ensures entries == old(entries) - {k} && bytes + old(entries)[k].cost == old(bytes)
    {
      RemoveKeepsValid(Value(), k);
      var cost := entries[k].cost;
      entries := entries - {k};
      bytes := bytes - cost;
      lru := Except(lru, {k});
    }

    method Put(k: Key, value: string)
      requires Valid(Value())
      modifies this
      ensures Valid(Value()) && Value() == PutSpec(old(Value()), k, value)
      ensures |value| > MEMO_BYTES - ENTRY_OVERHEAD ==> Value() == old(Value())
      ensures |value| <= MEMO_BYTES - ENTRY_OVERHEAD ==>
        && k in entries && lru != [] && lru[0] == k
        && entries[k].value == (if k in old(entries) then old(entries)[k].value else value)
        && (if k in old(entries) then Fronted(lru, old(lru), k) && entries == old(entries)
            else
              && lru[1..] <= old(lru)
              && (forall x :: x in entries && x != k ==> x in old(entries) && entries[x] == old(entries)[x])
              && FullBeyond(old(Value()), |lru| - 1, |value| + ENTRY_OVERHEAD))
    {
      hide Valid, EvictFor, Except, RemoveKey, FullBeyond, Fronted;
      PutKeepsValid(Value(), k, value);
      if |value| <= MEMO_BYTES - ENTRY_OVERHEAD { PutStores(Value(), k, value); }
      if |value| > MEMO_BYTES - ENTRY_OVERHEAD {
        return;
      }
      if k in entries {
        lru := [k] + Except(lru, {k});
        return;
      }
      var cost := |value| + ENTRY_OVERHEAD;
      while |entries| >= MEMO_ENTRIES || bytes + cost > MEMO_BYTES
        invariant Valid(Value()) && EvictFor(Value(), cost) == EvictFor(old(Value()), cost)
        decreases |lru|
      {
        EvictUnfolds(Value(), cost);
        Remove(lru[|lru| - 1]);
      }
      EvictStops(Value(), cost);
      lru := [k] + lru;
      entries := entries[k := Cached(value, cost)];
      bytes := bytes + cost;
    }

    method RemoveRun(run: nat)
      requires Valid(Value())
      modifies this
      ensures Valid(Value()) && Value() == RemoveRunSpec(old(Value()), run)
      ensures forall k :: k in entries <==> k in old(entries) && k.run != run
      ensures forall k :: k in entries ==> entries[k] == old(entries)[k]
      ensures forall a, b :: Before(lru, a, b) ==> Before(old(lru), a, b)
    {
      hide Removing, Valid, RemoveKey, RemoveRunSpec, Before;
      var left := entries.Keys;
      ghost var gone: set<Key> := {};
      ghost var before := Value();
      NoneRemoved(before, run);
      while left != {}
        invariant Removing(before, Value(), run, gone, left) && Valid(Value()) && left <= entries.Keys
        decreases |left|
      {
        var k :| k in left;
        OneMoreKey(before, Value(), run, gone, left, k);
        left := left - {k};
        if k.run == run {
          Remove(k);
          gone := gone + {k};
        }
      }
      AllRemoved(before, Value(), run, gone);
    }
  }
}
