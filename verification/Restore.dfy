/** Which parts a selected restore fetches, and the byte bound it stays under. */
module Restore {
  import opened Options
  import opened Sorting
  import opened Counting
  import Canonical

  const MAX_RESTORE_BYTES: nat := 1073741824
  const TWO_64: nat := 0x1_0000_0000_0000_0000

  type uint64 = n: nat | n < TWO_64

  datatype Part = Part(table: string, partition: string, name: string, physHash: string, rowHash: string, rows: uint64, bytes: uint64)

  datatype PartKey = PartKey(table: string, partition: string, name: string)

  function KeyOf(p: Part): PartKey {
    PartKey(p.table, p.partition, p.name)
  }

  datatype ManifestTable = ManifestTable(id: string, schemaHash: string, parts: seq<Part>)

  datatype ReadTable = ReadTable(id: string, schemaHash: string, named: bool, parts: seq<Part>)   // named: neither logical name is blank

  // ---- what is accepted -------------------------------------------------------------------------

  ghost predicate DistinctKeys(parts: seq<Part>) {
    forall i, j :: 0 <= i < j < |parts| ==> KeyOf(parts[i]) != KeyOf(parts[j])
  }

  ghost predicate DistinctIds(tables: seq<ManifestTable>) {
    forall i, j :: 0 <= i < j < |tables| ==> tables[i].id != tables[j].id
  }

  /** The read table names the manifest's table and all of its active parts. */
  ghost predicate Covers(manifest: seq<ManifestTable>, t: ReadTable) {
    exists m :: m in manifest && m.id == t.id && m.schemaHash == t.schemaHash && t.named && multiset(t.parts) == multiset(m.parts)
  }

  function PartsOf(selected: seq<ReadTable>): seq<Part> {
    if selected == [] then [] else PartsOf(selected[..|selected| - 1]) + selected[|selected| - 1].parts
  }

  ghost predicate Acceptable(manifest: seq<ManifestTable>, selected: seq<ReadTable>) {
    && DistinctIds(manifest) && selected != []
    && (forall t :: t in selected ==> Covers(manifest, t))
    && DistinctKeys(PartsOf(selected))
  }

  // ---- one table ----------------------------------------------------------------------------------

  ghost predicate LastByKey(byKey: map<PartKey, Part>, parts: seq<Part>) {
    && (forall p :: p in parts ==> KeyOf(p) in byKey)
    && (forall k :: k in byKey ==> byKey[k] in parts && KeyOf(byKey[k]) == k)
  }

  method IndexParts(parts: seq<Part>) returns (byKey: map<PartKey, Part>)
    ensures LastByKey(byKey, parts)
  {
    byKey := map[];
    for i := 0 to |parts|
      invariant LastByKey(byKey, parts[..i])
    {
      assert parts[..i + 1] == parts[..i] + [parts[i]];
      byKey := byKey[KeyOf(parts[i]) := parts[i]];
    }
    assert parts[..|parts|] == parts;
  }

  lemma KeysTellParts(parts: seq<Part>, p: Part, q: Part)
    requires DistinctKeys(parts) && p in parts && q in parts && KeyOf(p) == KeyOf(q)
    ensures p == q
  {
    var i :| 0 <= i < |parts| && parts[i] == p;
    var j :| 0 <= j < |parts| && parts[j] == q;
    assert i == j;
  }

  lemma {:induction false} OncePerKey(parts: seq<Part>, p: Part)
    requires DistinctKeys(parts) && p in parts
    ensures multiset(parts)[p] == 1
  {
    var q, rest := parts[0], parts[1..];
    assert parts == [q] + rest;
    assert forall i :: 0 <= i < |rest| ==> rest[i] == parts[i + 1];
    if p == q {
      assert p !in rest;
    } else {
      OncePerKey(rest, p);
    }
  }

  /** Pigeonhole: as many parts as the manifest lists, all different and all
      listed, are the manifest's parts, even if it repeated a key. */
  lemma Pigeonhole(read: seq<Part>, listed: seq<Part>)
    requires |read| == |listed| && DistinctKeys(read) && forall p :: p in read ==> p in listed
    ensures multiset(read) == multiset(listed)
  {
    forall p | p in multiset(read) ensures multiset(read)[p] <= multiset(listed)[p] {
      OncePerKey(read, p);
      assert p in listed;
    }
    assert multiset(read) <= multiset(listed);
    SubMultisetSameSize(multiset(read), multiset(listed));
  }

  ghost predicate Covered(read: seq<Part>, listed: seq<Part>, seen: set<PartKey>) {
    multiset(read) == multiset(listed) && DistinctKeys(read) && forall p :: p in read ==> KeyOf(p) !in seen
  }

  /** Compares one read table's parts with the manifest's, adding their keys to
      the ones seen in earlier tables. */
  method CheckParts(read: seq<Part>, listed: seq<Part>, seen: set<PartKey>) returns (ok: bool, seen': set<PartKey>)
    ensures ok <==> Covered(read, listed, seen)
    ensures ok ==> seen' == seen + KeySet(read)
  {
    seen' := seen;
    if |read| != |listed| {
      assert |multiset(read)| != |multiset(listed)|;
      return false, seen;
    }
    var byKey := IndexParts(listed);
    for i := 0 to |read|
      invariant DistinctKeys(read[..i]) && seen' == seen + (set p | p in read[..i] :: KeyOf(p))
      invariant forall p :: p in read[..i] ==> p in listed && KeyOf(p) !in seen
    {
      var p := read[i];
      assert read[..i + 1] == read[..i] + [p];
      CoveredPart(read, listed, seen, byKey, i, seen');
      if KeyOf(p) !in byKey || byKey[KeyOf(p)] != p || KeyOf(p) in seen' {
        return false, seen';
      }
      seen' := seen' + {KeyOf(p)};
    }
    assert read[..|read|] == read;
    Pigeonhole(read, listed);
    return true, seen';
  }

  /** In a covered table every part is the manifest's and new. */
  lemma CoveredPart(read: seq<Part>, listed: seq<Part>, seen: set<PartKey>, byKey: map<PartKey, Part>, i: nat, seen': set<PartKey>)
    requires i < |read| && LastByKey(byKey, listed) && seen' == seen + (set p | p in read[..i] :: KeyOf(p))
    ensures Covered(read, listed, seen) ==> KeyOf(read[i]) in byKey && byKey[KeyOf(read[i])] == read[i] && KeyOf(read[i]) !in seen'
  {
    var p := read[i];
    if Covered(read, listed, seen) {
      assert p in multiset(listed);
      var q := byKey[KeyOf(p)];
      assert q in multiset(read);
      KeysTellParts(read, p, q);
      forall r | r in read[..i] ensures KeyOf(r) != KeyOf(p) {
        var j :| 0 <= j < i && read[j] == r;
      }
    }
  }

  // ---- all tables -----------------------------------------------------------------------------------

  method IndexTables(manifest: seq<ManifestTable>) returns (byId: Option<map<string, ManifestTable>>)
    ensures byId.Some? <==> DistinctIds(manifest)
    ensures byId.Some? ==> forall id :: id in byId.value <==> exists m :: m in manifest && m.id == id
    ensures byId.Some? ==> forall id :: id in byId.value ==> byId.value[id] in manifest && byId.value[id].id == id
  {
    var tables: map<string, ManifestTable> := map[];
    for i := 0 to |manifest|
      invariant DistinctIds(manifest[..i])
      invariant forall m :: m in manifest[..i] ==> m.id in tables
      invariant forall id :: id in tables ==> tables[id] in manifest[..i] && tables[id].id == id
    {
      var m := manifest[i];
      assert manifest[..i + 1] == manifest[..i] + [m];
      if m.id in tables {
        var j :| 0 <= j < i && manifest[j] == tables[m.id];
        return None;
      }
      tables := tables[m.id := m];
    }
    assert manifest[..|manifest|] == manifest;
    return Some(tables);
  }

  lemma TheTable(manifest: seq<ManifestTable>, m: ManifestTable, t: ReadTable)
    requires DistinctIds(manifest) && m in manifest && m.id == t.id
    ensures Covers(manifest, t) <==> m.schemaHash == t.schemaHash && t.named && multiset(t.parts) == multiset(m.parts)
  {
    if Covers(manifest, t) {
      var m' :| m' in manifest && m'.id == t.id && m'.schemaHash == t.schemaHash && t.named && multiset(t.parts) == multiset(m'.parts);
      var i :| 0 <= i < |manifest| && manifest[i] == m;
      var j :| 0 <= j < |manifest| && manifest[j] == m';
      assert i == j;
    }
  }

  ghost function KeySet(parts: seq<Part>): set<PartKey> {
    set p | p in parts :: KeyOf(p)
  }

  lemma DistinctConcat(a: seq<Part>, b: seq<Part>)
    ensures DistinctKeys(a + b) <==> DistinctKeys(a) && DistinctKeys(b) && forall p :: p in b ==> KeyOf(p) !in KeySet(a)
    ensures KeySet(a + b) == KeySet(a) + KeySet(b)
  {
    var all := a + b;
    if DistinctKeys(all) {
      forall i, j | 0 <= i < j < |b| ensures KeyOf(b[i]) != KeyOf(b[j]) { assert KeyOf(all[|a| + i]) != KeyOf(all[|a| + j]); }
      forall i, j | 0 <= i < j < |a| ensures KeyOf(a[i]) != KeyOf(a[j]) { assert KeyOf(all[i]) != KeyOf(all[j]); }
      forall p | p in b ensures KeyOf(p) !in KeySet(a) {
        var j :| 0 <= j < |b| && b[j] == p;
        forall q | q in a ensures KeyOf(q) != KeyOf(p) {
          var i :| 0 <= i < |a| && a[i] == q;
          assert KeyOf(all[i]) != KeyOf(all[|a| + j]);
        }
      }
    }
    if DistinctKeys(a) && DistinctKeys(b) && forall p :: p in b ==> KeyOf(p) !in KeySet(a) {
      forall i, j | 0 <= i < j < |all| ensures KeyOf(all[i]) != KeyOf(all[j]) {
        if i < |a| <= j { assert a[i] in a && KeyOf(a[i]) in KeySet(a) && b[j - |a|] in b; }
      }
    }
  }

  /** Appending one read table. */
  lemma OneMoreTable(selected: seq<ReadTable>, i: nat)
    requires i < |selected|
    ensures PartsOf(selected[..i + 1]) == PartsOf(selected[..i]) + selected[i].parts
    ensures DistinctKeys(PartsOf(selected)) ==> DistinctKeys(PartsOf(selected[..i + 1]))
  {
    assert selected[..i + 1][..i] == selected[..i];
    PartsPrefix(selected, i + 1);
  }

  lemma {:induction false} PartsPrefix(selected: seq<ReadTable>, n: nat)
    requires n <= |selected|
    ensures DistinctKeys(PartsOf(selected)) ==> DistinctKeys(PartsOf(selected[..n]))
  {
    if n < |selected| {
      var k := |selected| - 1;
      DistinctConcat(PartsOf(selected[..k]), selected[k].parts);
      PartsPrefix(selected[..k], n);
      assert selected[..k][..n] == selected[..n];
    } else {
      assert selected[..n] == selected;
    }
  }

  predicate KeyLe(a: Part, b: Part) {
    if a.table != b.table then StringLe(a.table, b.table)
    else if a.partition != b.partition then StringLe(a.partition, b.partition)
    else StringLe(a.name, b.name)
  }

  lemma KeyOrder()
    ensures Preorder(KeyLe)
  {
    StringOrder();
  }

  /** By table, then partition, then part name, each in byte order. */
  predicate Follows(a: Part, b: Part) {
    || Canonical.StringLt(a.table, b.table)
    || (a.table == b.table && Canonical.StringLt(a.partition, b.partition))
    || (a.table == b.table && a.partition == b.partition && Canonical.StringLt(a.name, b.name))
  }

  lemma NeighboursFollow(parts: seq<Part>)
    requires Ordered(parts, KeyLe) && DistinctKeys(parts)
    ensures forall i :: 0 < i < |parts| ==> Follows(parts[i - 1], parts[i])
  {
    forall i | 0 < i < |parts| ensures Follows(parts[i - 1], parts[i]) {
      assert KeyLe(parts[i - 1], parts[i]) && KeyOf(parts[i - 1]) != KeyOf(parts[i]);
    }
  }

  /** Accepts a selection exactly when it names the manifest's tables with all
      their active parts and no key twice; then it returns those parts, each
      once, in strict key order. */
  method ExpectedReadParts(manifest: seq<ManifestTable>, selected: seq<ReadTable>) returns (expected: Option<seq<Part>>)
    ensures expected.Some? <==> Acceptable(manifest, selected)
    ensures expected.Some? ==> multiset(expected.value) == multiset(PartsOf(selected))
    ensures expected.Some? ==> selected != [] && forall t :: t in selected ==> t.named && exists m ::
      m in manifest && m.id == t.id && m.schemaHash == t.schemaHash && multiset(m.parts) == multiset(t.parts)
    ensures expected.Some? ==> Ordered(expected.value, KeyLe) && DistinctKeys(expected.value)
    ensures expected.Some? ==> forall i :: 0 < i < |expected.value| ==> Follows(expected.value[i - 1], expected.value[i])
  {
    var byId := IndexTables(manifest);
    if byId.None? || selected == [] {
      return None;
    }
    hide DistinctKeys, Ordered, Sort, KeyLe;
    var parts: seq<Part> := [];
    var seen: set<PartKey> := {};
    NoParts();
    for i := 0 to |selected|
      invariant parts == PartsOf(selected[..i]) && DistinctKeys(parts) && seen == KeySet(parts)
      invariant forall t :: t in selected[..i] ==> Covers(manifest, t)
    {
      var t := selected[i];
      assert selected[..i + 1] == selected[..i] + [t];
      OneMoreTable(selected, i);
      assert t in selected;
      if t.id !in byId.value {
        assert forall m :: m in manifest ==> m.id != t.id;
        assert !Covers(manifest, t);
        return None;
      }
      var m := byId.value[t.id];
      TheTable(manifest, m, t);
      if t.schemaHash != m.schemaHash || !t.named {
        return None;
      }
      var ok, seen' := CheckParts(t.parts, m.parts, seen);
      DistinctConcat(parts, t.parts);
      if !ok {
        return None;
      }
      seen := seen';
      parts := parts + t.parts;
    }
    assert selected[..|selected|] == selected;
    KeyOrder();
    SortOrdered(parts, KeyLe);
    SameKeys(parts, Sort(parts, KeyLe));
    NeighboursFollow(Sort(parts, KeyLe));
    return Some(Sort(parts, KeyLe));
  }

  lemma NoParts()
    ensures DistinctKeys([]) && KeySet([]) == {} && PartsOf([]) == []
  {}

  lemma {:induction false} SameKeys(a: seq<Part>, b: seq<Part>)
    requires multiset(a) == multiset(b) && DistinctKeys(a)
    ensures DistinctKeys(b)
  {
    forall i, j | 0 <= i < j < |b| ensures KeyOf(b[i]) != KeyOf(b[j]) {
      assert b[i] in multiset(a) && b[j] in multiset(a);
      if KeyOf(b[i]) == KeyOf(b[j]) {
        KeysTellParts(a, b[i], b[j]);
        Canonical.TwoCopies(b, i, j);
        OncePerKey(a, b[i]);
      }
    }
  }

  // ---- the byte bound -----------------------------------------------------------------------------------

  /** addUint64: the wrapped sum and whether it wrapped. */
  function AddUint64(a: uint64, b: uint64): (r: (uint64, bool))
    ensures r.1 <==> a + b >= TWO_64
    ensures !r.1 ==> r.0 == a + b
  {
    var c := (a + b) % TWO_64;
    (c, c < a)
  }

  function TotalBytes(parts: seq<Part>): nat {
    if parts == [] then 0 else TotalBytes(parts[..|parts| - 1]) + parts[|parts| - 1].bytes
  }

  lemma {:induction false} BytesGrow(parts: seq<Part>, n: nat)
    requires n <= |parts|
    ensures TotalBytes(parts[..n]) <= TotalBytes(parts)
  {
    if n < |parts| {
      BytesGrow(parts[..|parts| - 1], n);
      assert parts[..|parts| - 1][..n] == parts[..n];
    } else {
      assert parts[..n] == parts;
    }
  }

  /** The restore goes on exactly when the parts' true total is within the
      bound, however large the sizes are. */
  method WithinBound(parts: seq<Part>) returns (ok: bool)
    ensures ok <==> TotalBytes(parts) <= 1024 * 1024 * 1024
  {
    var total: uint64 := 0;
    for i := 0 to |parts|
      invariant total == TotalBytes(parts[..i]) <= MAX_RESTORE_BYTES
    {
      assert parts[..i + 1][..i] == parts[..i];
      BytesGrow(parts, i + 1);
      var sum := AddUint64(total, parts[i].bytes);
      if sum.1 || sum.0 > MAX_RESTORE_BYTES {
        return false;
      }
      total := sum.0;
    }
    assert parts[..|parts|] == parts;
    return true;
  }
}
