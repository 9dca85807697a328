/** An abort must name exactly the prepared candidate parts. */
module AbortParts {
  import opened Sorting
  import opened Canonical

  /** Keeps the first of each run of equal values, at the front of the array. */
  method CompactInPlace(a: array<string>) returns (write: nat)
    requires Ordered(a[..], StringLe)
    modifies a
    ensures write <= a.Length && Strict(a[..write], StringLt)
    ensures forall x :: x in a[..write] <==> x in old(a[..])
  {
    hide StringLe, StringLt, Ordered, Strict;
    ghost var sorted := a[..];
    write := 0;
    StrictNone();
    for i := 0 to a.Length
      invariant write <= i && (i > 0 <==> write > 0) && (i > 0 ==> a[write - 1] == sorted[i - 1])
      invariant forall j :: i <= j < a.Length ==> a[j] == sorted[j]
      invariant Strict(a[..write], StringLt)
      invariant forall x :: x in a[..write] <==> x in sorted[..i]
    {
      assert sorted[..i + 1] == sorted[..i] + [sorted[i]];
      if write == 0 || a[write - 1] != a[i] {
        ghost var before := a[..write];
        StrictMore(before, sorted, i);
        a[write] := a[i];
        write := write + 1;
        assert a[..write] == before + [sorted[i]];
      } else {
        assert sorted[i] in a[..write];
      }
    }
    assert sorted[..|sorted|] == sorted;
  }

  lemma StrictNone()
    ensures Strict([], StringLt)
  {}

  /** Sorts a copy and compacts it in place: each value once, in order. */
  method SortedUniqueStrings(values: seq<string>) returns (out: seq<string>)
    ensures Strict(out, StringLt) && forall x :: x in out <==> x in values
  {
    hide Sort, Ordered, Strict;
    var sorted := Sort(values, StringLe);
    StringOrder();
    SortOrdered(values, StringLe);
    var a := new string[|sorted|](i requires 0 <= i < |sorted| => sorted[i]);
    assert a[..] == sorted;
    var n := CompactInPlace(a);
    forall x ensures x in sorted <==> x in values {
      assert x in sorted <==> x in multiset(sorted);
      assert x in values <==> x in multiset(values);
    }
    return a[..n];
  }

  /** A new, larger last value keeps the order strict. */
  lemma StrictMore(before: seq<string>, sorted: seq<string>, i: nat)
    requires i < |sorted| && Ordered(sorted, StringLe) && Strict(before, StringLt)
    requires if i == 0 then before == [] else |before| > 0 && before[|before| - 1] == sorted[i - 1]
    requires before == [] || before[|before| - 1] != sorted[i]
    ensures Strict(before + [sorted[i]], StringLt)
  {
    StringStrict();
    if i > 0 {
      var last := before[|before| - 1];
      assert StringLt(last, sorted[i]) by { assert StringLe(sorted[i - 1], sorted[i]); }
      forall j | 0 <= j < |before| ensures StringLt(before[j], sorted[i]) {
        assert j == |before| - 1 || StringLt(before[j], last);
      }
    }
  }

  /** Repetitions and order aside, the names must be the candidates'. */
  method RequireExactAbortParts(candidates: seq<string>, requested: seq<string>) returns (ok: bool)
    ensures ok <==> forall x :: x in candidates <==> x in requested
  {
    var want := SortedUniqueStrings(candidates);
    var got := SortedUniqueStrings(requested);
    StringStrict();
    if forall x :: x in want <==> x in got { StrictUnique(want, got, StringLt); }
    if |want| != |got| {
      return false;
    }
    for i := 0 to |want|
      invariant want[..i] == got[..i]
    {
      if want[i] != got[i] {
        return false;
      }
    }
    assert want[..|want|] == want && got[..|got|] == got;
    return true;
  }
}
