/** Comparing lists as multisets with a table of counts. */
module Counting {
  function CountOf<T>(counts: map<T, nat>, x: T): nat {
    if x in counts then counts[x] else 0
  }

  /** The table holds each element's number of occurrences in `s`. */
  ghost predicate Counts<T(!new)>(counts: map<T, nat>, s: multiset<T>) {
    forall x :: CountOf(counts, x) == s[x]
  }

  method CountAll<T(!new, ==)>(s: seq<T>) returns (counts: map<T, nat>)
    ensures Counts(counts, multiset(s))
  {
    counts := map[];
    for i := 0 to |s|
      invariant Counts(counts, multiset(s[..i]))
    {
      assert s[..i + 1] == s[..i] + [s[i]];
      counts := counts[s[i] := CountOf(counts, s[i]) + 1];
    }
    assert s[..|s|] == s;
  }

  lemma RemoveAt<T>(s: seq<T>, j: nat)
    requires j < |s|
    ensures multiset(s[..j] + s[j + 1..]) == multiset(s) - multiset{s[j]}
  {
    assert s == s[..j] + [s[j]] + s[j + 1..];
  }

  lemma SubMultisetSameSize<T>(a: multiset<T>, b: multiset<T>)
    requires a <= b && |a| == |b|
    ensures a == b
  {
    assert b == a + (b - a);
  }

  lemma CountUp<T(!new)>(counts: map<T, nat>, s: multiset<T>, x: T)
    requires Counts(counts, s)
    ensures Counts(counts[x := CountOf(counts, x) + 1], s + multiset{x})
  {}

  lemma CountDown<T(!new)>(counts: map<T, nat>, rest: multiset<T>, x: T)
    requires Counts(counts, rest) && CountOf(counts, x) > 0
    ensures Counts(counts[x := counts[x] - 1], rest - multiset{x})
  {}

  /** Counts the first list up and the second down. */
  method SameMultiset<T(!new, ==)>(a: seq<T>, b: seq<T>) returns (same: bool)
    ensures same <==> multiset(a) == multiset(b)
  {
    if |a| != |b| {
      assert |multiset(a)| != |multiset(b)|;
      return false;
    }
    var left := CountAll(a);
    for i := 0 to |b|
      invariant multiset(b[..i]) <= multiset(a) && Counts(left, multiset(a) - multiset(b[..i]))
    {
      assert b[..i + 1] == b[..i] + [b[i]];
      if CountOf(left, b[i]) == 0 {
        assert b == b[..i + 1] + b[i + 1..];
        assert multiset(b)[b[i]] > multiset(a)[b[i]];
        return false;
      }
      CountDown(left, multiset(a) - multiset(b[..i]), b[i]);
      assert multiset(a) - multiset(b[..i]) - multiset{b[i]} == multiset(a) - multiset(b[..i + 1]);
      left := left[b[i] := left[b[i]] - 1];
    }
    assert b[..|b|] == b;
    SubMultisetSameSize(multiset(b), multiset(a));
    return true;
  }
}
