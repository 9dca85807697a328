/** Filling the shadow partition with the candidates only, and the sums the
    promotion gate and the source view compare. */
module ShadowBuild {
  import opened LtHash
  import opened Options
  import opened Sorting
  import opened Counting
  import opened SubsetMatch

  // ---- sums ---------------------------------------------------------------------------

  function ParsedHash(t: Text<Hash>): Hash {
    if t.Parsed? then t.hash else Zero
  }

  /** lthashCombineHex: missing text adds nothing, malformed text is refused. */
  method CombineHex(a: Text<Hash>, b: Text<Hash>) returns (sum: Option<Hash>)
    ensures sum.Some? <==> !a.Malformed? && !b.Malformed?
    ensures sum.Some? ==> sum.value == Add(ParsedHash(a), ParsedHash(b))
  {
    hide Add;
    AddZero(ParsedHash(a));
    AddZero(ParsedHash(b));
    var acc: Hash := Zero;
    var texts := [a, b];
    for i := 0 to 2
      invariant i > 0 ==> !a.Malformed?
      invariant i > 1 ==> !b.Malformed?
      invariant acc == if i == 0 then Zero else if i == 1 then ParsedHash(a) else Add(ParsedHash(a), ParsedHash(b))
    {
      AddZero(acc);
      if texts[i].Malformed? {
        return None;
      }
      if texts[i].Parsed? {
        acc := Add(acc, texts[i].hash);
      }
    }
    return Some(acc);
  }

  function ParsedHashes(texts: seq<Text<Hash>>): seq<Hash> {
    seq(|texts|, i requires 0 <= i < |texts| => ParsedHash(texts[i]))
  }

  lemma SumOneMore(hs: seq<Hash>, h: Hash)
    ensures Sum(hs + [h]) == Add(Sum(hs), h)
  {
    SumConcat(hs, [h]);
    AddZero(h);
  }

  /** lthashCombineHexAll: the base plus every part. */
  method CombineHexAll(base: Text<Hash>, parts: seq<Text<Hash>>) returns (sum: Option<Hash>)
    ensures sum.Some? <==> !base.Malformed? && forall i :: 0 <= i < |parts| ==> !parts[i].Malformed?
    ensures sum.Some? ==> sum.value == Add(ParsedHash(base), Sum(ParsedHashes(parts)))
  {
    hide Add;
    if base.Malformed? {
      return None;
    }
    var acc := ParsedHash(base);
    AddZero(acc);
    for i := 0 to |parts|
      invariant forall j :: 0 <= j < i ==> !parts[j].Malformed?
      invariant acc == Add(ParsedHash(base), Sum(ParsedHashes(parts[..i])))
    {
      if parts[i].Malformed? {
        return None;
      }
      assert ParsedHashes(parts[..i + 1]) == ParsedHashes(parts[..i]) + [ParsedHash(parts[i])];
      SumOneMore(ParsedHashes(parts[..i]), ParsedHash(parts[i]));
      AddAssociates(ParsedHash(base), Sum(ParsedHashes(parts[..i])), ParsedHash(parts[i]));
      acc := Add(acc, ParsedHash(parts[i]));
    }
    assert parts[..|parts|] == parts;
    return Some(acc);
  }

  // ---- the shadow -----------------------------------------------------------------------

  function NamesOf(parts: seq<NamedText<Hash>>): seq<string> {
    seq(|parts|, i requires 0 <= i < |parts| => parts[i].name)
  }

  ghost predicate UniqueNames(parts: seq<NamedText<Hash>>) {
    forall i, j :: 0 <= i < j < |parts| ==> parts[i].name != parts[j].name
  }

  /** DROP PART. */
  function DropNamed(parts: seq<NamedText<Hash>>, name: string): seq<NamedText<Hash>> {
    if parts == [] then []
    else if parts[0].name == name then DropNamed(parts[1..], name)
    else [parts[0]] + DropNamed(parts[1..], name)
  }

  lemma {:induction false} DropAbsent(parts: seq<NamedText<Hash>>, name: string)
    requires forall i :: 0 <= i < |parts| ==> parts[i].name != name
    ensures DropNamed(parts, name) == parts
  {
    if parts != [] { DropAbsent(parts[1..], name); }
  }

  lemma {:induction false} DropMembers(parts: seq<NamedText<Hash>>, name: string, p: NamedText<Hash>)
    ensures p in DropNamed(parts, name) <==> p in parts && p.name != name
  {
    if parts != [] { DropMembers(parts[1..], name, p); }
  }

  lemma UniqueTail(q: NamedText<Hash>, rest: seq<NamedText<Hash>>)
    ensures UniqueNames([q] + rest) <==> UniqueNames(rest) && forall p :: p in rest ==> p.name != q.name
  {
    var parts := [q] + rest;
    if UniqueNames(parts) {
      forall i | 0 <= i < |rest| ensures rest[i].name != q.name { assert parts[0].name != parts[i + 1].name; }
      forall i, j | 0 <= i < j < |rest| ensures rest[i].name != rest[j].name { assert parts[i + 1].name != parts[j + 1].name; }
    }
  }

  /** Names being unique, DROP PART takes out one part. */
  lemma {:induction false} DropOne(parts: seq<NamedText<Hash>>, p: NamedText<Hash>)
    requires UniqueNames(parts) && p in parts
    ensures multiset(DropNamed(parts, p.name)) == multiset(parts) - multiset{p}
    ensures UniqueNames(DropNamed(parts, p.name))
  {
    hide UniqueNames;
    var q, rest := parts[0], parts[1..];
    assert parts == [q] + rest;
    UniqueTail(q, rest);
    if q.name == p.name {
      DropAbsent(rest, p.name);
    } else {
      DropOne(rest, p);
      var kept := DropNamed(rest, p.name);
      forall r | r in kept ensures r.name != q.name { DropMembers(rest, p.name, r); }
      UniqueTail(q, kept);
    }
  }

  lemma {:induction false} NamesPermute(a: seq<NamedText<Hash>>, b: seq<NamedText<Hash>>)
    requires multiset(a) == multiset(b)
    ensures multiset(NamesOf(a)) == multiset(NamesOf(b))
    decreases |a|
  {
    hide NamesOf;
    if a == [] {
      assert |multiset(b)| == 0;
    } else {
      assert a[0] in multiset(b);
      var j :| 0 <= j < |b| && b[j] == a[0];
      RemoveAt(b, j);
      RemoveAt(a, 0);
      NamesPermute(a[..0] + a[1..], b[..j] + b[j + 1..]);
      NamesMoved(b, j);
      NamesMoved(a, 0);
    }
  }

  lemma NamesMoved(parts: seq<NamedText<Hash>>, j: nat)
    requires j < |parts|
    ensures multiset(NamesOf(parts)) == multiset(NamesOf(parts[..j] + parts[j + 1..])) + multiset{parts[j].name}
  {
    assert NamesOf(parts) == NamesOf(parts[..j]) + [parts[j].name] + NamesOf(parts[j + 1..]);
    assert NamesOf(parts[..j] + parts[j + 1..]) == NamesOf(parts[..j]) + NamesOf(parts[j + 1..]);
  }

  /** Among uniquely named parts the names tell the parts. */
  lemma {:induction false} NamesDetermine(all: seq<NamedText<Hash>>, a: seq<NamedText<Hash>>, b: seq<NamedText<Hash>>)
    requires UniqueNames(all) && (forall p :: p in a || p in b ==> p in all)
    requires multiset(NamesOf(a)) == multiset(NamesOf(b))
    ensures multiset(a) == multiset(b)
    decreases |a|
  {
    hide NamesOf, UniqueNames;
    if a == [] {
      var _ := NamesMeet(a, b);
    } else {
      var j := NamesMeet(a, b);
      SameName(all, a[0], b[j]);
      var a', b' := a[..0] + a[1..], b[..j] + b[j + 1..];
      RemoveAt(b, j);
      RemoveAt(a, 0);
      NamesMoved(b, j);
      NamesMoved(a, 0);
      Cancel(multiset(NamesOf(a')), multiset(NamesOf(b')), a[0].name);
      NamesDetermine(all, a', b');
      assert multiset(a) == multiset(a') + multiset{a[0]} && multiset(b) == multiset(b') + multiset{b[j]};
    }
  }

  lemma Cancel<T>(x: multiset<T>, y: multiset<T>, n: T)
    requires x + multiset{n} == y + multiset{n}
    ensures x == y
  {
    assert x == (x + multiset{n}) - multiset{n};
    assert y == (y + multiset{n}) - multiset{n};
  }

  lemma NamesMeet(a: seq<NamedText<Hash>>, b: seq<NamedText<Hash>>) returns (j: nat)
    requires multiset(NamesOf(a)) == multiset(NamesOf(b))
    ensures a == [] ==> b == []
    ensures a != [] ==> j < |b| && b[j].name == a[0].name
  {
    j := 0;
    assert |multiset(NamesOf(a))| == |multiset(NamesOf(b))|;
    if a != [] {
      assert NamesOf(a)[0] in multiset(NamesOf(b));
      j :| j < |NamesOf(b)| && NamesOf(b)[j] == a[0].name;
    }
  }

  lemma SameName(all: seq<NamedText<Hash>>, p: NamedText<Hash>, q: NamedText<Hash>)
    requires UniqueNames(all) && p in all && q in all && p.name == q.name
    ensures p == q
  {
    var i :| 0 <= i < |all| && all[i] == p;
    var j :| 0 <= j < |all| && all[j] == q;
    assert i == j;
  }

  lemma PermutedSum(a: seq<NamedText<Hash>>, b: seq<NamedText<Hash>>)
    requires multiset(a) == multiset(b)
    ensures Sum(HashesOf(a)) == Sum(HashesOf(b))
  {
    HashesPermute(a, b);
    SumPermutes(HashesOf(a), HashesOf(b));
  }

  /** The shadow's root once exactly the matched parts joined the base. */
  lemma MatchedRoot(base: seq<NamedText<Hash>>, candidates: seq<NamedText<Hash>>, attached: seq<NamedText<Hash>>,
                    split: Split<Hash>, final: seq<NamedText<Hash>>)
    requires Splits(split, attached, candidates) && multiset(final) == multiset(base) + multiset(split.keep)
    ensures Sum(HashesOf(final)) == Add(Sum(HashesOf(base)), Sum(HashesOf(candidates)))
  {
    hide Sum, Add, HashesOf;
    PermutedSum(final, base + split.keep);
    HashesOfConcat(base, split.keep);
    SumConcat(HashesOf(base), HashesOf(split.keep));
    SumPermutes(HashesOf(split.keep), HashesOf(candidates));
  }

  class ShadowPartition {
    var parts: seq<NamedText<Hash>>

    constructor (base: seq<NamedText<Hash>>)
      ensures parts == base
    {
      parts := base;
    }

    /** attachCandidateSubset. ATTACH adds `attached`; `accepted` says how many
        DROP PARTs ClickHouse takes, and `stuck` which of them leave the part;
        a failure tries to drop the shadow partition, `cleared` if that works. */
    method AttachCandidateSubset(candidates: seq<NamedText<Hash>>, attached: seq<NamedText<Hash>>, accepted: nat, stuck: set<string>,
                                 cleared: bool)
      returns (split: Option<Split<Hash>>)
      requires UniqueNames(parts + attached)
      modifies this
      ensures split.Some? ==> Splits(split.value, attached, candidates)
      ensures split.Some? ==> multiset(parts) == multiset(old(parts)) + multiset(split.value.keep)
      ensures split.Some? ==> Sum(HashesOf(parts)) == Add(Sum(HashesOf(old(parts))), Sum(HashesOf(candidates)))
      ensures split.None? && cleared ==> parts == []
      ensures split.None? ==> forall p :: p in parts ==> p in old(parts) + attached
      ensures split.Some? ==> Matchable(candidates, attached)
      ensures Matchable(candidates, attached) && accepted >= |attached| && stuck == {} ==> split.Some?
    {
      hide HashesOf, Sum, Add, DropNamed, Ordered, AllParsed, NoneMalformed, NamesOf, UniqueNames;
      var base, all := parts, parts + attached;
      parts := all;
      split := MatchShadowCandidates(candidates, attached);
      if split.None? {
        if cleared { parts := []; }
        return;
      }
      var keep, drop := split.value.keep, split.value.drop;
      assert |drop| <= |attached| by { assert |multiset(keep)| + |multiset(drop)| == |multiset(attached)|; }
      ghost var wanted := multiset(base) + multiset(keep);
      assert multiset(parts) == wanted + multiset(drop[0..]) by { assert drop[0..] == drop; }
      for i := 0 to |drop|
        invariant i <= accepted && forall p :: p in parts ==> p in all
        invariant stuck == {} ==> UniqueNames(parts) && multiset(parts) == wanted + multiset(drop[i..])
      {
        if i == accepted {
          if cleared { parts := []; }
          return None;
        }
        if stuck == {} { DropNext(parts, wanted, drop, i); }
        forall p | p in DropNamed(parts, drop[i].name) ensures p in all { DropMembers(parts, drop[i].name, p); }
        if drop[i].name !in stuck {
          parts := DropNamed(parts, drop[i].name);
        }
      }
      assert drop[|drop|..] == [];
      if stuck == {} { NamesPermute(parts, base + keep); }
      assert NamesOf(base + keep) == NamesOf(base) + NamesOf(keep) by { NamesConcat(base, keep); }
      var same := SameMultiset(NamesOf(parts), NamesOf(base) + NamesOf(keep));
      if !same {
        if cleared { parts := []; }
        return None;
      }
      forall p | p in base + keep ensures p in all { KeptIsAttached(split.value, attached, candidates, p); }
      NamesDetermine(all, parts, base + keep);
      MatchedRoot(base, candidates, attached, split.value, parts);
    }
  }

  ghost predicate Matchable(candidates: seq<NamedText<Hash>>, attached: seq<NamedText<Hash>>) {
    AllParsed(candidates) && NoneMalformed(attached) && multiset(HashesOf(candidates)) <= multiset(HashesOf(attached))
  }

  lemma KeptIsAttached(split: Split<Hash>, attached: seq<NamedText<Hash>>, candidates: seq<NamedText<Hash>>, p: NamedText<Hash>)
    requires Splits(split, attached, candidates)
    ensures p in split.keep ==> p in attached
  {
    if p in split.keep { assert p in multiset(split.keep) && p in multiset(attached); }
  }

  lemma NamesConcat(a: seq<NamedText<Hash>>, b: seq<NamedText<Hash>>)
    ensures NamesOf(a + b) == NamesOf(a) + NamesOf(b)
  {}

  lemma DropNext(parts: seq<NamedText<Hash>>, wanted: multiset<NamedText<Hash>>, drop: seq<NamedText<Hash>>, i: nat)
    requires i < |drop| && UniqueNames(parts) && multiset(parts) == wanted + multiset(drop[i..])
    ensures UniqueNames(DropNamed(parts, drop[i].name))
    ensures multiset(DropNamed(parts, drop[i].name)) == wanted + multiset(drop[i + 1..])
  {
    hide DropNamed;
    assert drop[i..] == [drop[i]] + drop[i + 1..];
    assert drop[i] in multiset(parts);
    DropOne(parts, drop[i]);
  }
}
