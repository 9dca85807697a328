/** The guard under which the partition machine copies a subset is what the
    matching loop accepts. */
module SubsetGuard {
  import opened LtHash
  import opened Ledger
  import opened Options
  import opened PartSums
  import opened Partition
  import opened SubsetMatch
  import opened ShadowBuild
  import opened SafeScan
  import Canonical

  /** `shadow` is what ATTACH made of hg_unsafe's parts `names`: new names, the
      same rows. */
  ghost predicate ListsUnsafe(c: Cell, names: seq<string>, shadow: seq<NamedText<Hash>>) {
    && Distinct(names) && SetOf(names) == c.unsafe && |shadow| == |names| && UniqueNames(shadow)
    && forall i :: 0 <= i < |shadow| ==> shadow[i].text == Parsed(PartHash(c.written, names[i]))
  }

  /** The hg_unsafe part that `p` of the shadow was attached from. */
  ghost function OriginOf(names: seq<string>, shadow: seq<NamedText<Hash>>, p: NamedText<Hash>): (n: string)
    requires p in shadow && |names| == |shadow|
    ensures exists i :: 0 <= i < |shadow| && shadow[i] == p && names[i] == n
  {
    var i :| 0 <= i < |shadow| && shadow[i] == p;
    names[i]
  }

  ghost function Origins(names: seq<string>, shadow: seq<NamedText<Hash>>, keep: seq<NamedText<Hash>>): seq<string>
    requires |names| == |shadow| && forall p :: p in keep ==> p in shadow
  {
    seq(|keep|, j requires 0 <= j < |keep| => OriginOf(names, shadow, keep[j]))
  }

  lemma KeptApart(shadow: seq<NamedText<Hash>>, split: Split<Hash>, candidates: seq<NamedText<Hash>>, i: nat, j: nat)
    requires UniqueNames(shadow) && Splits(split, shadow, candidates) && i < j < |split.keep|
    ensures split.keep[i] != split.keep[j]
  {
    var p := split.keep[i];
    if p == split.keep[j] {
      Canonical.TwoCopies(split.keep, i, j);
      assert multiset(shadow)[p] >= 2;
      assert forall a, b :: 0 <= a < b < |shadow| ==> shadow[a].name != shadow[b].name;
      OnceEach(shadow, p);
    }
  }

  /** What the loop keeps is a subset the machine may copy. */
  lemma KeptMatches(c: Cell, cmd: Promotion, names: seq<string>, shadow: seq<NamedText<Hash>>, candidates: seq<NamedText<Hash>>,
                    split: Split<Hash>) returns (keep: set<string>)
    requires ListsUnsafe(c, names, shadow) && ListsCandidates(cmd, candidates) && ValidCandidates(cmd)
    requires Splits(split, shadow, candidates)
    ensures keep <= c.unsafe && MatchedSubset(keep, c.written, Hashes(cmd.candidates))
    ensures forall i :: 0 <= i < |shadow| ==> (names[i] in keep <==> shadow[i] in split.keep)
  {
    hide HashesOf, PartHash, Origins, UniqueNames, ListsCandidates, ValidHashes, Distinct;
    forall p | p in split.keep ensures p in shadow { KeptIsAttached(split, shadow, candidates, p); }
    var origins := Origins(names, shadow, split.keep);
    keep := SetOf(origins);
    OriginsApart(names, shadow, split, candidates);
    SetOfSize(origins);
    KeptHashes(c, cmd, names, shadow, candidates, split);
    forall i | 0 <= i < |shadow| ensures names[i] in keep <==> shadow[i] in split.keep {
      OriginTells(names, shadow, split.keep, i);
    }
  }

  lemma OriginsApart(names: seq<string>, shadow: seq<NamedText<Hash>>, split: Split<Hash>, candidates: seq<NamedText<Hash>>)
    requires |names| == |shadow| && UniqueNames(shadow) && Distinct(names) && Splits(split, shadow, candidates)
    requires forall p :: p in split.keep ==> p in shadow
    ensures Distinct(Origins(names, shadow, split.keep))
  {
    hide HashesOf, UniqueNames, Splits;
    var origins := Origins(names, shadow, split.keep);
    forall i, j | 0 <= i < j < |origins| ensures origins[i] != origins[j] {
      KeptApart(shadow, split, candidates, i, j);
    }
  }

  lemma OriginTells(names: seq<string>, shadow: seq<NamedText<Hash>>, keep: seq<NamedText<Hash>>, i: nat)
    requires |names| == |shadow| && UniqueNames(shadow) && Distinct(names) && i < |shadow| && forall p :: p in keep ==> p in shadow
    ensures names[i] in Origins(names, shadow, keep) <==> shadow[i] in keep
  {
    var origins := Origins(names, shadow, keep);
    if names[i] in origins {
      var j :| 0 <= j < |origins| && origins[j] == names[i];
      assert keep[j] == shadow[i];
    }
    if shadow[i] in keep {
      var j :| 0 <= j < |keep| && keep[j] == shadow[i];
      assert origins[j] == names[i];
    }
  }

  lemma {:induction false} ParsedCount(parts: seq<NamedText<Hash>>)
    requires AllParsed(parts)
    ensures |HashesOf(parts)| == |parts| && forall i :: 0 <= i < |parts| ==> HashesOf(parts)[i] == parts[i].text.hash
  {
    if parts != [] {
      ParsedCount(parts[1..]);
    }
  }

  lemma KeptHashes(c: Cell, cmd: Promotion, names: seq<string>, shadow: seq<NamedText<Hash>>, candidates: seq<NamedText<Hash>>, split: Split<Hash>)
    requires ListsUnsafe(c, names, shadow) && ListsCandidates(cmd, candidates) && ValidCandidates(cmd)
    requires Splits(split, shadow, candidates) && forall p :: p in split.keep ==> p in shadow
    ensures var origins, hs := Origins(names, shadow, split.keep), Hashes(cmd.candidates);
      && |origins| == |hs| && SetOf(origins) <= c.unsafe
      && (forall n :: n in SetOf(origins) ==> Value(PartHash(c.written, n)) in hs)
      && (forall h :: h in hs ==> Holds(SetOf(origins), c.written, h))
  {
    hide HashesOf, PartHash;
    var origins, hs := Origins(names, shadow, split.keep), Hashes(cmd.candidates);
    CandidatesParsed(cmd, candidates);
    ParsedCount(candidates);
    ParsedCount(split.keep);
    var kept, wanted := HashesOf(split.keep), HashesOf(candidates);
    assert |multiset(kept)| == |multiset(wanted)|;
    forall j | 0 <= j < |origins| ensures Value(PartHash(c.written, origins[j])) in hs && kept[j] == PartHash(c.written, origins[j]) && origins[j] in c.unsafe {
      assert kept[j] in multiset(wanted);
      var i :| 0 <= i < |wanted| && wanted[i] == kept[j];
      assert hs[i] == Value(kept[j]);
    }
    forall h | h in hs ensures Holds(SetOf(origins), c.written, h) {
      var i :| 0 <= i < |hs| && hs[i] == h;
      assert wanted[i] in multiset(kept);
      var j :| 0 <= j < |kept| && kept[j] == wanted[i];
      assert origins[j] in SetOf(origins) && Value(PartHash(c.written, origins[j])) == h;
    }
  }

  lemma CandidatesParsed(cmd: Promotion, candidates: seq<NamedText<Hash>>)
    requires ListsCandidates(cmd, candidates) && ValidCandidates(cmd)
    ensures AllParsed(candidates) && forall i :: 0 <= i < |candidates| ==> Hashes(cmd.candidates)[i] == Value(candidates[i].text.hash)
  {
    forall i | 0 <= i < |candidates| ensures candidates[i].text.Parsed? && Hashes(cmd.candidates)[i] == Value(candidates[i].text.hash) {
      assert Hashes(cmd.candidates)[i].Value?;
    }
  }

  lemma ParsedAreNotMalformed(parts: seq<NamedText<Hash>>)
    requires AllParsed(parts)
    ensures NoneMalformed(parts)
  {}

  /** If some subset is the candidates, hash for hash, the loop finds one. */
  lemma MatchedIsMatchable(c: Cell, cmd: Promotion, names: seq<string>, shadow: seq<NamedText<Hash>>, candidates: seq<NamedText<Hash>>, keep: set<string>)
    requires ListsUnsafe(c, names, shadow) && ListsCandidates(cmd, candidates) && ValidCandidates(cmd)
    requires keep <= c.unsafe && MatchedSubset(keep, c.written, Hashes(cmd.candidates))
    ensures Matchable(candidates, shadow)
  {
    hide HashesOf, PartHash;
    var hs := Hashes(cmd.candidates);
    CandidatesParsed(cmd, candidates);
    ParsedCount(candidates);
    ParsedCount(shadow);
    ParsedAreNotMalformed(shadow);
    var wanted, attached := HashesOf(candidates), HashesOf(shadow);
    assert forall i, j :: 0 <= i < j < |wanted| ==> hs[i] != hs[j];
    forall h ensures multiset(wanted)[h] <= multiset(attached)[h] {
      OnceEach(wanted, h);
      if h in wanted {
        var i :| 0 <= i < |wanted| && wanted[i] == h;
        assert hs[i] in hs;
        var n :| n in keep && Value(PartHash(c.written, n)) == hs[i];
        var j :| 0 <= j < |names| && names[j] == n;
        assert attached[j] == h;
      }
    }
  }

  lemma OnceEach<T>(s: seq<T>, x: T)
    requires forall i, j :: 0 <= i < j < |s| ==> s[i] != s[j]
    ensures multiset(s)[x] <= 1
  {
    if x in s {
      var i :| 0 <= i < |s| && s[i] == x;
      assert s == s[..i] + [s[i]] + s[i + 1..];
    }
  }

  /** Some subset of hg_unsafe may be copied exactly when the matching loop
      succeeds on what ATTACH made of it. */
  lemma MatchDecidesCopy(c: Cell, cmd: Promotion, names: seq<string>, shadow: seq<NamedText<Hash>>, candidates: seq<NamedText<Hash>>,
                         split: Option<Split<Hash>>)
    requires ListsUnsafe(c, names, shadow) && ListsCandidates(cmd, candidates) && ValidCandidates(cmd)
    requires split.Some? <==> Matchable(candidates, shadow)
    requires split.Some? ==> Splits(split.value, shadow, candidates)
    ensures split.Some? <==> exists keep :: keep <= c.unsafe && MatchedSubset(keep, c.written, Hashes(cmd.candidates))
  {
    hide ListsUnsafe, ListsCandidates, ValidCandidates, Matchable, Splits, MatchedSubset;
    if split.Some? {
      var keep := KeptMatches(c, cmd, names, shadow, candidates, split.value);
    } else {
      forall keep | keep <= c.unsafe ensures !MatchedSubset(keep, c.written, Hashes(cmd.candidates)) {
        if MatchedSubset(keep, c.written, Hashes(cmd.candidates)) {
          MatchedIsMatchable(c, cmd, names, shadow, candidates, keep);
        }
      }
    }
  }
}
