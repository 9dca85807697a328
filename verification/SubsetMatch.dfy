/** Promoting part of an unsafe partition: matching the candidates to the parts
    the shadow received, by content, and dropping the rest. */
module SubsetMatch {
  import opened Options
  import opened Sorting
  import opened Counting

  /** A hash as text: missing, not an accumulator, or one in any spelling. */
  datatype Text<H> = Missing | Malformed | Parsed(hash: H)

  datatype NamedText<H> = NamedText(name: string, text: Text<H>)

  ghost predicate AllParsed<H>(parts: seq<NamedText<H>>) {
    forall i :: 0 <= i < |parts| ==> parts[i].text.Parsed?
  }

  /** The hashes of the parts that have one. */
  function HashesOf<H>(parts: seq<NamedText<H>>): seq<H> {
    if parts == [] then []
    else (if parts[0].text.Parsed? then [parts[0].text.hash] else []) + HashesOf(parts[1..])
  }

  lemma {:induction false} HashesOfConcat<H>(a: seq<NamedText<H>>, b: seq<NamedText<H>>)
    ensures HashesOf(a + b) == HashesOf(a) + HashesOf(b)
  {
    if a == [] {
      assert a + b == b;
    } else {
      assert (a + b)[1..] == a[1..] + b;
      HashesOfConcat(a[1..], b);
    }
  }

  lemma HashesOfLast<H>(parts: seq<NamedText<H>>, i: nat)
    requires i < |parts|
    ensures parts[i].text.Parsed? ==> HashesOf(parts[..i + 1]) == HashesOf(parts[..i]) + [parts[i].text.hash]
    ensures !parts[i].text.Parsed? ==> HashesOf(parts[..i + 1]) == HashesOf(parts[..i])
  {
    assert parts[..i + 1] == parts[..i] + [parts[i]];
    HashesOfConcat(parts[..i], [parts[i]]);
  }

  lemma NoHashes<H>(parts: seq<NamedText<H>>)
    requires parts == []
    ensures HashesOf(parts) == [] && AllParsed(parts) && NoneMalformed(parts)
  {}

  method CandidateMultiset<H(!new, ==)>(candidates: seq<NamedText<H>>) returns (want: Option<map<H, nat>>)
    ensures want.Some? <==> AllParsed(candidates)
    ensures want.Some? ==> Counts(want.value, multiset(HashesOf(candidates)))
  {
    hide HashesOf;
    var counts: map<H, nat> := map[];
    assert multiset(HashesOf(candidates[..0])) == multiset{} by { NoHashes(candidates[..0]); }
    for i := 0 to |candidates|
      invariant AllParsed(candidates[..i]) && Counts(counts, multiset(HashesOf(candidates[..i])))
    {
      HashesOfLast(candidates, i);
      if !candidates[i].text.Parsed? {
        return None;
      }
      var h := candidates[i].text.hash;
      CountUp(counts, multiset(HashesOf(candidates[..i])), h);
      counts := counts[h := CountOf(counts, h) + 1];
    }
    assert candidates[..|candidates|] == candidates;
    return Some(counts);
  }

  predicate NameLe<H>(a: NamedText<H>, b: NamedText<H>) {
    StringLe(a.name, b.name)
  }

  /** The parts to keep and to drop. */
  datatype Split<H> = Split(keep: seq<NamedText<H>>, drop: seq<NamedText<H>>)

  /** Every part once, and the kept ones are, hash for hash, the candidates. */
  ghost predicate Splits<H>(s: Split<H>, shadow: seq<NamedText<H>>, candidates: seq<NamedText<H>>) {
    && multiset(s.keep) + multiset(s.drop) == multiset(shadow)
    && AllParsed(s.keep) && multiset(HashesOf(s.keep)) == multiset(HashesOf(candidates))
  }

  ghost predicate NoneMalformed<H>(parts: seq<NamedText<H>>) {
    forall i :: 0 <= i < |parts| ==> !parts[i].text.Malformed?
  }

  /** One greedy pass in name order. `left` counts the candidates not matched. */
  method Consume<H(!new, ==)>(want: map<H, nat>, parts: seq<NamedText<H>>, ghost candidates: multiset<H>)
    returns (split: Option<Split<H>>, left: map<H, nat>)
    requires Counts(want, candidates) && Ordered(parts, NameLe)
    ensures split.Some? <==> NoneMalformed(parts)
    ensures split.Some? ==> Ordered(split.value.keep, NameLe) && Ordered(split.value.drop, NameLe)
    ensures split.Some? ==>
      && multiset(split.value.keep) + multiset(split.value.drop) == multiset(parts) && AllParsed(split.value.keep)
      && multiset(HashesOf(split.value.keep)) == candidates * multiset(HashesOf(parts))
      && Counts(left, candidates - multiset(HashesOf(parts)))
  {
    hide HashesOf, Progress, NoneMalformed, AllParsed, Ordered, OrderedBefore;
    left := want;
    var keep: seq<NamedText<H>>, drop: seq<NamedText<H>> := [], [];
    NoHashes(parts[..0]);
    NoHashes(keep);
    ProgressStarts(candidates, want);
    assert OrderedBefore(keep, parts, 0) by { OrderedNone(keep, parts); }
    for i := 0 to |parts|
      invariant NoneMalformed(parts[..i]) && AllParsed(keep)
      invariant multiset(keep) + multiset(drop) == multiset(parts[..i])
      invariant OrderedBefore(keep, parts, i) && OrderedBefore(drop, parts, i)
      invariant Progress(candidates, multiset(HashesOf(parts[..i])), multiset(HashesOf(keep)), left)
    {
      var p := parts[i];
      HashesOfLast(parts, i);
      OneMorePart(parts, i);
      OrderedMore(keep, parts, i);
      OrderedMore(drop, parts, i);
      if p.text.Malformed? {
        return None, left;
      } else if p.text.Missing? {
        drop := drop + [p];
      } else {
        var h := p.text.hash;
        ProgressContinues(candidates, multiset(HashesOf(parts[..i])), multiset(HashesOf(keep)), left, h);
        if CountOf(left, h) > 0 {
          OneMoreKept(keep, p);
          left := left[h := left[h] - 1];
          keep := keep + [p];
        } else {
          drop := drop + [p];
        }
      }
    }
    assert parts[..|parts|] == parts;
    ProgressEnds(candidates, multiset(HashesOf(parts)), multiset(HashesOf(keep)), left);
    OrderedDone(keep, parts, |parts|);
    OrderedDone(drop, parts, |parts|);
    return Some(Split(keep, drop)), left;
  }

  /** `s` is in name order and nothing in it comes after the parts from `i` on. */
  ghost predicate OrderedBefore<H>(s: seq<NamedText<H>>, parts: seq<NamedText<H>>, i: nat) {
    Ordered(s, NameLe) && forall x, j :: 0 <= x < |s| && i <= j < |parts| ==> NameLe(s[x], parts[j])
  }

  lemma OrderedNone<H>(s: seq<NamedText<H>>, parts: seq<NamedText<H>>)
    requires s == []
    ensures OrderedBefore(s, parts, 0)
  {}

  lemma OrderedMore<H>(s: seq<NamedText<H>>, parts: seq<NamedText<H>>, i: nat)
    requires Ordered(parts, NameLe) && i < |parts| && OrderedBefore(s, parts, i)
    ensures OrderedBefore(s, parts, i + 1) && OrderedBefore(s + [parts[i]], parts, i + 1)
  {
    hide NameLe;
  }

  lemma OrderedDone<H>(s: seq<NamedText<H>>, parts: seq<NamedText<H>>, i: nat)
    requires OrderedBefore(s, parts, i)
    ensures Ordered(s, NameLe)
  {}

  lemma NameOrder<H(!new)>()
    ensures Preorder<NamedText<H>>(NameLe)
  {
    StringOrder();
  }

  /** Of the hashes seen so far, the kept ones are those the candidates asked
      for, and `left` counts what they still ask for. */
  ghost predicate Progress<H(!new)>(candidates: multiset<H>, seen: multiset<H>, kept: multiset<H>, left: map<H, nat>) {
    kept == candidates * seen && Counts(left, candidates - seen)
  }

  lemma ProgressStarts<H(!new)>(candidates: multiset<H>, want: map<H, nat>)
    requires Counts(want, candidates)
    ensures Progress(candidates, multiset{}, multiset{}, want)
  {
    assert candidates - multiset{} == candidates;
  }

  lemma ProgressContinues<H(!new)>(candidates: multiset<H>, seen: multiset<H>, kept: multiset<H>, left: map<H, nat>, h: H)
    requires Progress(candidates, seen, kept, left)
    ensures if CountOf(left, h) > 0
            then Progress(candidates, seen + multiset{h}, kept + multiset{h}, left[h := left[h] - 1])
            else Progress(candidates, seen + multiset{h}, kept, left)
  {
    assert CountOf(left, h) == (candidates - seen)[h];
    OneMoreSeen(candidates, seen, h);
    if CountOf(left, h) > 0 {
      CountDown(left, candidates - seen, h);
    } else {
      assert candidates - seen - multiset{h} == candidates - seen;
    }
  }

  lemma ProgressEnds<H(!new)>(candidates: multiset<H>, seen: multiset<H>, kept: multiset<H>, left: map<H, nat>)
    requires Progress(candidates, seen, kept, left)
    ensures kept == candidates * seen && Counts(left, candidates - seen)
  {}

  lemma CountIs<H(!new)>(left: map<H, nat>, rest: multiset<H>, h: H)
    requires Counts(left, rest)
    ensures CountOf(left, h) == rest[h]
  {}

  lemma OneMoreKept<H>(keep: seq<NamedText<H>>, p: NamedText<H>)
    requires AllParsed(keep) && p.text.Parsed?
    ensures AllParsed(keep + [p]) && multiset(HashesOf(keep + [p])) == multiset(HashesOf(keep)) + multiset{p.text.hash}
  {
    HashesOfConcat(keep, [p]);
    assert HashesOf([p]) == [p.text.hash];
  }

  lemma OneMorePart<H>(parts: seq<NamedText<H>>, i: nat)
    requires i < |parts|
    ensures parts[..i + 1] == parts[..i] + [parts[i]]
    ensures NoneMalformed(parts[..i + 1]) <==> NoneMalformed(parts[..i]) && !parts[i].text.Malformed?
    ensures parts[i].text.Malformed? ==> !NoneMalformed(parts)
  {
    assert forall j :: 0 <= j < i ==> parts[..i + 1][j] == parts[..i][j];
    assert parts[..i + 1][i] == parts[i];
  }

  lemma OneMoreSeen<H>(candidates: multiset<H>, seen: multiset<H>, h: H)
    ensures candidates - (seen + multiset{h}) == (candidates - seen) - multiset{h}
    ensures h in candidates - seen ==> candidates * (seen + multiset{h}) == candidates * seen + multiset{h}
    ensures h !in candidates - seen ==> candidates * (seen + multiset{h}) == candidates * seen
  {}

  /** Matching succeeds exactly when every hash is an accumulator and the shadow
      holds each candidate's content at least as often as it is claimed. */
  method MatchShadowCandidates<H(!new, ==)>(candidates: seq<NamedText<H>>, shadow: seq<NamedText<H>>) returns (split: Option<Split<H>>)
    ensures split.Some? <==>
      AllParsed(candidates) && NoneMalformed(shadow) && multiset(HashesOf(candidates)) <= multiset(HashesOf(shadow))
    ensures split.Some? ==> Splits(split.value, shadow, candidates)
    ensures split.Some? ==> Ordered(split.value.keep, NameLe) && Ordered(split.value.drop, NameLe)
  {
    hide Ordered, HashesOf, Sort, Counts, NoneMalformed;
    var want := CandidateMultiset(candidates);
    if want.None? {
      return None;
    }
    var sorted := Sort(shadow, NameLe);
    NameOrder<H>();
    SortOrdered(shadow, NameLe);
    SameElements(shadow, sorted);
    var left: map<H, nat>;
    split, left := Consume(want.value, sorted, multiset(HashesOf(candidates)));
    if split.None? {
      return None;
    }
    ghost var rest := multiset(HashesOf(candidates)) - multiset(HashesOf(shadow));
    for i := 0 to |candidates|
      invariant forall j :: 0 <= j < i ==> candidates[j].text.hash !in rest
    {
      CountIs(left, rest, candidates[i].text.hash);
      if CountOf(left, candidates[i].text.hash) > 0 {
        assert candidates[i].text.hash in rest;
        return None;
      }
    }
    AllMatched(candidates, rest);
    assert multiset(HashesOf(candidates)) * multiset(HashesOf(shadow)) == multiset(HashesOf(candidates));
  }

  lemma AllMatched<H>(candidates: seq<NamedText<H>>, rest: multiset<H>)
    requires AllParsed(candidates) && rest <= multiset(HashesOf(candidates))
    requires forall j :: 0 <= j < |candidates| ==> candidates[j].text.hash !in rest
    ensures rest == multiset{}
  {
    forall h ensures h !in rest {
      HashFrom(candidates, h);
    }
  }

  lemma {:induction false} HashFrom<H>(parts: seq<NamedText<H>>, h: H)
    ensures h in HashesOf(parts) <==> exists j :: 0 <= j < |parts| && parts[j].text == Parsed(h)
  {
    if parts != [] {
      HashFrom(parts[1..], h);
      if j :| 0 <= j < |parts[1..]| && parts[1..][j].text == Parsed(h) {
        assert parts[j + 1].text == Parsed(h);
      }
      if j :| 0 <= j < |parts| && parts[j].text == Parsed(h) {
        assert j == 0 || parts[1..][j - 1].text == Parsed(h);
      }
    }
  }

  /** Reordering parts changes neither their hashes nor whether all parse. */
  lemma SameElements<H>(a: seq<NamedText<H>>, b: seq<NamedText<H>>)
    requires multiset(a) == multiset(b)
    ensures multiset(HashesOf(a)) == multiset(HashesOf(b)) && NoneMalformed(a) == NoneMalformed(b)
  {
    hide NoneMalformed, HashesOf;
    MalformedElement(a);
    MalformedElement(b);
    HashesPermute(a, b);
  }

  lemma {:induction false} HashesPermute<H>(a: seq<NamedText<H>>, b: seq<NamedText<H>>)
    requires multiset(a) == multiset(b)
    ensures multiset(HashesOf(a)) == multiset(HashesOf(b))
    decreases |a|
  {
    hide HashesOf;
    if a == [] {
      assert |multiset(b)| == 0;
    } else {
      assert a[0] in multiset(b);
      var j :| 0 <= j < |b| && b[j] == a[0];
      RemoveAt(b, j);
      RemoveAt(a, 0);
      HashesPermute(a[..0] + a[1..], b[..j] + b[j + 1..]);
      HashesMoved(b, j);
      HashesMoved(a, 0);
    }
  }

  lemma HashesMoved<H>(parts: seq<NamedText<H>>, j: nat)
    requires j < |parts|
    ensures multiset(HashesOf(parts)) == multiset(HashesOf(parts[..j] + parts[j + 1..])) + multiset(HashesOf([parts[j]]))
  {
    hide HashesOf;
    var x, y, z := parts[..j], [parts[j]], parts[j + 1..];
    assert parts == x + (y + z);
    HashesOfConcat(x, y + z);
    HashesOfConcat(y, z);
    HashesOfConcat(x, z);
  }

  lemma MalformedElement<H>(parts: seq<NamedText<H>>)
    ensures NoneMalformed(parts) <==> forall p :: p in multiset(parts) ==> !p.text.Malformed?
  {}
}
