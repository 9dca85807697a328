/** The whole-partition scan after REPLACE PARTITION: it either yields the
    complete inventory and each candidate's place in it, or refuses. */
module SafeScan {
  import opened LtHash
  import opened Ledger
  import opened Options
  import opened PartSums
  import opened Partition
  import opened SubsetMatch
  import opened ShadowBuild

  datatype PartInfo = PartInfo(name: string, physHash: string)

  datatype Inventory = Inventory(candidates: seq<Mapping>, partition: seq<Mapping>)

  /** Parts by name; a name listed twice keeps its last entry. */
  function ByName(parts: seq<PartInfo>): map<string, string> {
    if parts == [] then map[]
    else ByName(parts[..|parts| - 1])[parts[|parts| - 1].name := parts[|parts| - 1].physHash]
  }

  method IndexByName(parts: seq<PartInfo>) returns (info: map<string, string>)
    ensures info == ByName(parts)
  {
    info := map[];
    for i := 0 to |parts|
      invariant info == ByName(parts[..i])
    {
      assert parts[..i + 1][..i] == parts[..i];
      info := info[parts[i].name := parts[i].physHash];
    }
    assert parts[..|parts|] == parts;
  }

  // ---- what the scan must satisfy ----------------------------------------------------------

  ghost predicate DistinctTexts(parts: seq<NamedText<Hash>>) {
    forall i, j :: 0 <= i < j < |parts| ==> parts[i].text != parts[j].text
  }

  ghost function NameSet(parts: seq<NamedText<Hash>>): set<string> {
    set i | 0 <= i < |parts| :: parts[i].name
  }

  ghost predicate ScanOk(info: map<string, string>, scans: seq<NamedText<Hash>>) {
    && (forall i :: 0 <= i < |scans| ==> scans[i].name in info && info[scans[i].name] != "" && scans[i].text.Parsed?)
    && UniqueNames(scans) && DistinctTexts(scans)
  }

  /** Every scanned part is active, has a file hash and a row hash, is scanned once
      and shares its row hash with no other. */
  lemma ScanMeans(after: seq<PartInfo>, scans: seq<NamedText<Hash>>)
    ensures ScanOk(ByName(after), scans) <==>
      && (forall p :: p in scans ==> p.text.Parsed? && exists q :: q in ByName(after).Items && q.0 == p.name && q.1 != "")
      && (forall i, j :: 0 <= i < j < |scans| ==> scans[i].name != scans[j].name && scans[i].text != scans[j].text)
  {
    var info := ByName(after);
    forall p | p in scans ensures (p.name in info && info[p.name] != "") <==> exists q :: q in info.Items && q.0 == p.name && q.1 != "" {
      if p.name in info { assert (p.name, info[p.name]) in info.Items; }
    }
    if forall p :: p in scans ==> p.text.Parsed? && exists q :: q in info.Items && q.0 == p.name && q.1 != "" {
      forall i | 0 <= i < |scans| ensures scans[i] in scans {}
    }
    assert UniqueNames(scans) <==> forall i, j :: 0 <= i < j < |scans| ==> scans[i].name != scans[j].name;
  }

  ghost predicate HasText(scans: seq<NamedText<Hash>>, t: Text<Hash>) {
    exists j :: 0 <= j < |scans| && scans[j].text == t
  }

  ghost predicate CandidatesOk(candidates: seq<NamedText<Hash>>, scans: seq<NamedText<Hash>>) {
    && AllParsed(candidates) && DistinctTexts(candidates)
    && forall i :: 0 <= i < |candidates| ==> HasText(scans, candidates[i].text)
  }

  function MappingOf(info: map<string, string>, scan: NamedText<Hash>): Mapping {
    Mapping(Value(ParsedHash(scan.text)), scan.name, if scan.name in info then info[scan.name] else "")
  }

  /** The inventory lists every part in scan order, and for each candidate the
      one part with its content. */
  ghost predicate InventoryOk(inv: Inventory, info: map<string, string>, scans: seq<NamedText<Hash>>, candidates: seq<NamedText<Hash>>) {
    && |inv.partition| == |scans| && (forall i :: 0 <= i < |scans| ==> inv.partition[i] == MappingOf(info, scans[i]))
    && |inv.candidates| == |candidates|
    && forall i :: 0 <= i < |candidates| ==>
      inv.candidates[i] in inv.partition && inv.candidates[i].rowHash == Value(ParsedHash(candidates[i].text))
  }

  // ---- the three passes ------------------------------------------------------------------------

  /** Index the scanned parts by content. */
  ghost predicate Indexed(byHash: map<Hash, Mapping>, info: map<string, string>, scans: seq<NamedText<Hash>>) {
    && (forall i :: 0 <= i < |scans| ==> scans[i].text.Parsed? && scans[i].text.hash in byHash)
    && (forall h: Hash :: h in byHash ==> Scanned(h, byHash[h], info, scans))
  }

  ghost predicate Scanned(h: Hash, m: Mapping, info: map<string, string>, scans: seq<NamedText<Hash>>) {
    exists i :: 0 <= i < |scans| && scans[i].text.Parsed? && scans[i].text.hash == h && m == MappingOf(info, scans[i])
  }

  method ScanAll(info: map<string, string>, scans: seq<NamedText<Hash>>)
    returns (ok: bool, left: map<string, string>, byHash: map<Hash, Mapping>, partition: seq<Mapping>, sum: Hash)
    ensures ok <==> ScanOk(info, scans)
    ensures ok ==> left.Keys == info.Keys - NameSet(scans) && Indexed(byHash, info, scans) && sum == Sum(HashesOf(scans))
    ensures ok ==> |partition| == |scans| && forall i :: 0 <= i < |scans| ==> partition[i] == MappingOf(info, scans[i])
  {
    hide HashesOf, Sum, Add, ScanOk, NameSet, Indexed;
    left, byHash, partition, sum := info, map[], [], Zero;
    NoHashes(scans[..0]);
    NothingScanned(info, scans);
    assert Sum([]) == Zero by { SumNone(); }
    for i := 0 to |scans|
      invariant ScanOk(info, scans[..i]) && left == info - NameSet(scans[..i])
      invariant Indexed(byHash, info, scans[..i]) && sum == Sum(HashesOf(scans[..i]))
      invariant |partition| == i && forall j :: 0 <= j < i ==> partition[j] == MappingOf(info, scans[j])
    {
      var scan := scans[i];
      OneMoreScan(info, left, byHash, scans, i);
      if scan.name !in left || left[scan.name] == "" {
        return false, left, byHash, partition, sum;
      }
      left := left - {scan.name};
      if !scan.text.Parsed? {
        return false, left, byHash, partition, sum;
      }
      var h := scan.text.hash;
      if h in byHash {
        return false, left, byHash, partition, sum;
      }
      var m := MappingOf(info, scan);
      byHash := byHash[h := m];
      partition := partition + [m];
      HashesOfLast(scans, i);
      SumOneMore(HashesOf(scans[..i]), h);
      sum := Add(sum, h);
    }
    assert scans[..|scans|] == scans;
    return true, left, byHash, partition, sum;
  }

  lemma NothingScanned(info: map<string, string>, scans: seq<NamedText<Hash>>)
    ensures ScanOk(info, scans[..0]) && NameSet(scans[..0]) == {} && Indexed(map[], info, scans[..0])
  {}

  lemma SumNone()
    ensures Sum([]) == Zero
  {}

  /** What the next scanned part must be for the scan to go on. */
  lemma OneMoreScan(info: map<string, string>, left: map<string, string>, byHash: map<Hash, Mapping>, scans: seq<NamedText<Hash>>, i: nat)
    requires i < |scans| && ScanOk(info, scans[..i]) && left == info - NameSet(scans[..i]) && Indexed(byHash, info, scans[..i])
    ensures NameSet(scans[..i + 1]) == NameSet(scans[..i]) + {scans[i].name}
    ensures ScanOk(info, scans[..i + 1]) <==>
      && scans[i].name in left && left[scans[i].name] != ""
      && scans[i].text.Parsed? && scans[i].text.hash !in byHash
    ensures !ScanOk(info, scans[..i + 1]) ==> !ScanOk(info, scans)
    ensures ScanOk(info, scans[..i + 1]) ==> Indexed(byHash[scans[i].text.hash := MappingOf(info, scans[i])], info, scans[..i + 1])
  {
    hide ScanOk, Indexed, NameSet;
    var p := scans[i];
    assert scans[..i + 1] == scans[..i] + [p];
    NamesExtend(scans[..i], p);
    ScanExtends(info, left, byHash, scans[..i], p);
    if ScanOk(info, scans) { ScanPrefix(info, scans, i + 1); }
    if ScanOk(info, scans[..i + 1]) {
      IndexExtends(byHash, info, scans[..i], p);
    }
  }

  lemma ScanExtends(info: map<string, string>, left: map<string, string>, byHash: map<Hash, Mapping>, scans: seq<NamedText<Hash>>, p: NamedText<Hash>)
    requires ScanOk(info, scans) && left == info - NameSet(scans) && Indexed(byHash, info, scans)
    ensures ScanOk(info, scans + [p]) <==>
      p.name in left && left[p.name] != "" && p.text.Parsed? && p.text.hash !in byHash
  {
    hide NameSet, UniqueNames, DistinctTexts;
    UniqueExtends(scans, p);
    TextsExtend(scans, p);
    var all := scans + [p];
    assert all[|scans|] == p && forall i :: 0 <= i < |scans| ==> all[i] == scans[i];
    assert forall i :: 0 <= i < |scans| ==> scans[i].text.Parsed?;
    if p.text.Parsed? {
      assert p.text.hash in byHash <==> exists j :: 0 <= j < |scans| && scans[j].text == p.text;
    }
  }

  lemma NamesExtend(parts: seq<NamedText<Hash>>, p: NamedText<Hash>)
    ensures NameSet(parts + [p]) == NameSet(parts) + {p.name}
  {
    forall n ensures n in NameSet(parts + [p]) <==> n in NameSet(parts) + {p.name} {
      if n in NameSet(parts) {
        var j :| 0 <= j < |parts| && parts[j].name == n;
        assert (parts + [p])[j].name == n;
      }
      if n == p.name { assert (parts + [p])[|parts|].name == n; }
    }
  }

  lemma UniqueExtends(parts: seq<NamedText<Hash>>, p: NamedText<Hash>)
    ensures UniqueNames(parts + [p]) <==> UniqueNames(parts) && p.name !in NameSet(parts)
  {
    var all := parts + [p];
    if UniqueNames(all) {
      forall i | 0 <= i < |parts| ensures parts[i].name != p.name { assert all[i].name != all[|parts|].name; }
      forall i, j | 0 <= i < j < |parts| ensures parts[i].name != parts[j].name { assert all[i].name != all[j].name; }
    }
  }

  lemma TextsExtend(parts: seq<NamedText<Hash>>, p: NamedText<Hash>)
    ensures DistinctTexts(parts + [p]) <==> DistinctTexts(parts) && forall i :: 0 <= i < |parts| ==> parts[i].text != p.text
  {
    var all := parts + [p];
    if DistinctTexts(all) {
      forall i | 0 <= i < |parts| ensures parts[i].text != p.text { assert all[i].text != all[|parts|].text; }
      forall i, j | 0 <= i < j < |parts| ensures parts[i].text != parts[j].text { assert all[i].text != all[j].text; }
    }
  }

  lemma ScanPrefix(info: map<string, string>, scans: seq<NamedText<Hash>>, n: nat)
    requires n <= |scans| && ScanOk(info, scans)
    ensures ScanOk(info, scans[..n])
  {}

  lemma IndexExtends(byHash: map<Hash, Mapping>, info: map<string, string>, scans: seq<NamedText<Hash>>, p: NamedText<Hash>)
    requires Indexed(byHash, info, scans) && p.text.Parsed? && p.text.hash !in byHash
    ensures Indexed(byHash[p.text.hash := MappingOf(info, p)], info, scans + [p])
  {
    var all, next := scans + [p], byHash[p.text.hash := MappingOf(info, p)];
    forall h: Hash | h in next ensures Scanned(h, next[h], info, all) {
      if h == p.text.hash {
        assert all[|scans|] == p;
      } else {
        assert Scanned(h, byHash[h], info, scans);
        var i :| 0 <= i < |scans| && scans[i].text.Parsed? && scans[i].text.hash == h && byHash[h] == MappingOf(info, scans[i]);
        assert all[i] == scans[i];
      }
    }
  }

  ghost predicate Found(candidates: seq<NamedText<Hash>>, byHash: map<Hash, Mapping>) {
    && AllParsed(candidates) && DistinctTexts(candidates)
    && forall i :: 0 <= i < |candidates| ==> candidates[i].text.hash in byHash
  }

  method MapCandidates(candidates: seq<NamedText<Hash>>, byHash: map<Hash, Mapping>) returns (found: Option<seq<Mapping>>)
    ensures found.Some? <==> Found(candidates, byHash)
    ensures found.Some? ==> |found.value| == |candidates|
    ensures found.Some? ==> forall i :: 0 <= i < |candidates| ==> found.value[i] == byHash[candidates[i].text.hash]
  {
    var seen: set<Hash> := {};
    var out: seq<Mapping> := [];
    for i := 0 to |candidates|
      invariant Found(candidates[..i], byHash) && |out| == i
      invariant forall h: Hash :: h in seen <==> exists j :: 0 <= j < i && candidates[j].text == Parsed(h)
      invariant forall j :: 0 <= j < i ==> out[j] == byHash[candidates[j].text.hash]
    {
      var p := candidates[i];
      assert candidates[..i + 1] == candidates[..i] + [p];
      TextsExtend(candidates[..i], p);
      if !p.text.Parsed? || p.text.hash in seen || p.text.hash !in byHash {
        return None;
      }
      seen := seen + {p.text.hash};
      out := out + [byHash[p.text.hash]];
    }
    assert candidates[..|candidates|] == candidates;
    return Some(out);
  }

  /** safeMappings. */
  method SafeMappings(after: seq<PartInfo>, scans: seq<NamedText<Hash>>, candidates: seq<NamedText<Hash>>, post: Text<Hash>)
    returns (inv: Option<Inventory>)
    ensures inv.Some? <==>
      && ScanOk(ByName(after), scans) && NameSet(scans) == ByName(after).Keys
      && !post.Malformed? && Sum(HashesOf(scans)) == ParsedHash(post)
      && CandidatesOk(candidates, scans)
    ensures inv.Some? ==> InventoryOk(inv.value, ByName(after), scans, candidates)
  {
    hide HashesOf, Sum, ByName, Found, Indexed, CandidatesOk, ScanOk, NameSet;
    var info := IndexByName(after);
    var ok, left, byHash, partition, sum := ScanAll(info, scans);
    if !ok {
      return None;
    }
    ScanWithin(info, scans);
    if left != map[] {
      assert left.Keys != {};
      return None;
    }
    NothingLeft(info.Keys, NameSet(scans));
    if post.Malformed? || sum != ParsedHash(post) {
      return None;
    }
    LookupFinds(candidates, scans, byHash, info);
    var found := MapCandidates(candidates, byHash);
    if found.None? {
      return None;
    }
    LookupIsInventory(candidates, scans, byHash, info, partition, found.value);
    return Some(Inventory(found.value, partition));
  }

  lemma NothingLeft(all: set<string>, seen: set<string>)
    requires all - seen == {} && seen <= all
    ensures seen == all
  {
    forall n | n in all ensures n in seen { assert n !in all - seen; }
  }

  lemma ScanWithin(info: map<string, string>, scans: seq<NamedText<Hash>>)
    requires ScanOk(info, scans)
    ensures NameSet(scans) <= info.Keys
  {}

  /** Looking up by content finds a candidate exactly when some part has it. */
  lemma LookupFinds(candidates: seq<NamedText<Hash>>, scans: seq<NamedText<Hash>>, byHash: map<Hash, Mapping>, info: map<string, string>)
    requires Indexed(byHash, info, scans)
    ensures Found(candidates, byHash) <==> CandidatesOk(candidates, scans)
  {
    if AllParsed(candidates) {
      forall i | 0 <= i < |candidates|
        ensures candidates[i].text.hash in byHash <==> HasText(scans, candidates[i].text)
      {
        if candidates[i].text.hash in byHash {
          assert Scanned(candidates[i].text.hash, byHash[candidates[i].text.hash], info, scans);
        }
      }
    }
  }

  lemma LookupIsInventory(candidates: seq<NamedText<Hash>>, scans: seq<NamedText<Hash>>, byHash: map<Hash, Mapping>,
                          info: map<string, string>, partition: seq<Mapping>, found: seq<Mapping>)
    requires Indexed(byHash, info, scans) && Found(candidates, byHash) && |found| == |candidates|
    requires forall i :: 0 <= i < |candidates| ==> found[i] == byHash[candidates[i].text.hash]
    requires |partition| == |scans| && forall i :: 0 <= i < |scans| ==> partition[i] == MappingOf(info, scans[i])
    ensures InventoryOk(Inventory(found, partition), info, scans, candidates)
  {
    forall i | 0 <= i < |candidates|
      ensures found[i] in partition && found[i].rowHash == Value(ParsedHash(candidates[i].text))
    {
      var h := candidates[i].text.hash;
      assert Scanned(h, byHash[h], info, scans);
      var j :| 0 <= j < |scans| && scans[j].text.Parsed? && scans[j].text.hash == h && byHash[h] == MappingOf(info, scans[j]);
      assert partition[j] == found[i];
    }
  }

  // ---- the scan and the partition machine --------------------------------------------------------

  /** `scans` lists hg_safe: one scan per part, under whatever name REPLACE gave it. */
  ghost predicate ListsSafe(c: Cell, names: seq<string>, scans: seq<NamedText<Hash>>) {
    && Distinct(names) && SetOf(names) == c.safe && |scans| == |names|
    && forall i :: 0 <= i < |scans| ==> scans[i].text == Parsed(PartHash(c.written, names[i]))
  }

  ghost predicate ListsCandidates(cmd: Promotion, candidates: seq<NamedText<Hash>>) {
    && |candidates| == |cmd.candidates|
    && forall i :: 0 <= i < |candidates| ==>
      candidates[i].text == if cmd.candidates[i].rowHash.Value? then Parsed(cmd.candidates[i].rowHash.hash) else Text<Hash>.Missing
  }

  lemma {:induction false} ListedHashes(scans: seq<NamedText<Hash>>, hs: seq<Hash>)
    requires |hs| == |scans| && forall i :: 0 <= i < |scans| ==> scans[i].text.Parsed? && scans[i].text.hash == hs[i]
    ensures HashesOf(scans) == hs
  {
    if scans != [] { ListedHashes(scans[1..], hs[1..]); }
  }

  lemma ScannedRoot(c: Cell, names: seq<string>, scans: seq<NamedText<Hash>>)
    requires ListsSafe(c, names, scans)
    ensures Sum(HashesOf(scans)) == Root(c.safe, c.written)
  {
    hide Sum, Root, HashesOf, PartHash;
    var hs: seq<Hash> := seq(|scans|, i requires 0 <= i < |scans| => PartHash(c.written, names[i]));
    ListedHashes(scans, hs);
    ListedRoot(names, hs, c.written);
  }

  lemma ScannedDistinct(c: Cell, names: seq<string>, scans: seq<NamedText<Hash>>)
    requires ListsSafe(c, names, scans)
    ensures DistinctTexts(scans) <==> DistinctHashes(c.safe, c.written)
  {
    hide PartHash;
    if DistinctTexts(scans) {
      forall a, b | a in c.safe && b in c.safe && a != b ensures PartHash(c.written, a) != PartHash(c.written, b) {
        var i :| 0 <= i < |names| && names[i] == a;
        var j :| 0 <= j < |names| && names[j] == b;
        assert scans[i].text != scans[j].text;
      }
    }
    if DistinctHashes(c.safe, c.written) {
      forall i, j | 0 <= i < j < |scans| ensures scans[i].text != scans[j].text {
        assert names[i] in c.safe && names[j] in c.safe && names[i] != names[j];
      }
    }
  }

  lemma ScannedHolds(c: Cell, names: seq<string>, scans: seq<NamedText<Hash>>, h: Hash)
    requires ListsSafe(c, names, scans)
    ensures Holds(c.safe, c.written, Value(h)) <==> HasText(scans, Parsed(h))
  {
    hide PartHash;
    if n :| n in c.safe && Value(PartHash(c.written, n)) == Value(h) {
      var j :| 0 <= j < |names| && names[j] == n;
      assert scans[j].text == Parsed(h);
    }
    if j :| 0 <= j < |scans| && scans[j].text == Parsed(h) {
      assert names[j] in c.safe;
    }
  }

  /** The guard under which the partition machine finishes a promotion is what
      the scan accepts. */
  lemma ScanDecidesFinish(c: Cell, cmd: Promotion, names: seq<string>, scans: seq<NamedText<Hash>>, candidates: seq<NamedText<Hash>>)
    requires ListsSafe(c, names, scans) && ListsCandidates(cmd, candidates)
    ensures MappingsOk(c, cmd) <==>
      DistinctTexts(scans) && Sum(HashesOf(scans)) == Post(cmd) && CandidatesOk(candidates, scans)
  {
    hide Sum, Root, HashesOf, PartHash, Post, ListsSafe, DistinctHashes;
    ScannedRoot(c, names, scans);
    ScannedDistinct(c, names, scans);
    ValidIsDistinct(cmd, candidates);
    if ValidCandidates(cmd) {
      forall i | 0 <= i < |candidates|
        ensures Holds(c.safe, c.written, cmd.candidates[i].rowHash) <==> HasText(scans, candidates[i].text)
      {
        ScannedHolds(c, names, scans, cmd.candidates[i].rowHash.hash);
      }
    }
  }

  lemma ValidIsDistinct(cmd: Promotion, candidates: seq<NamedText<Hash>>)
    requires ListsCandidates(cmd, candidates)
    ensures ValidCandidates(cmd) <==> AllParsed(candidates) && DistinctTexts(candidates)
  {
    var hs := Hashes(cmd.candidates);
    if ValidCandidates(cmd) {
      forall i, j | 0 <= i < j < |candidates| ensures candidates[i].text != candidates[j].text {
        assert hs[i] != hs[j] && hs[i].Value? && hs[j].Value?;
      }
      forall i | 0 <= i < |candidates| ensures candidates[i].text.Parsed? { assert hs[i].Value?; }
    }
    if AllParsed(candidates) && DistinctTexts(candidates) {
      forall i | 0 <= i < |hs| ensures hs[i].Value? { assert candidates[i].text.Parsed?; }
      forall i, j | 0 <= i < j < |hs| ensures hs[i] != hs[j] { assert candidates[i].text != candidates[j].text; }
    }
  }
}
