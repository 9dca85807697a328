/** Lists in strict order: the canonical form of a list whose order carries no
    meaning. */
module Canonical {
  import opened Sorting

  ghost predicate Strict<T>(s: seq<T>, lt: (T, T) -> bool) {
    forall i, j :: 0 <= i < j < |s| ==> lt(s[i], s[j])
  }

  ghost predicate StrictOrder<T(!new)>(lt: (T, T) -> bool) {
    && (forall x :: !lt(x, x))
    && (forall x, y, z :: lt(x, y) && lt(y, z) ==> lt(x, z))
  }

  lemma StrictTail<T(!new)>(s: seq<T>, lt: (T, T) -> bool)
    requires StrictOrder(lt) && Strict(s, lt) && s != []
    ensures Strict(s[1..], lt) && s[0] !in s[1..]
  {
    forall i | 0 <= i < |s[1..]| ensures s[1..][i] != s[0] {
      assert lt(s[0], s[i + 1]);
    }
  }

  lemma Asymmetric<T(!new)>(lt: (T, T) -> bool, x: T, y: T)
    requires StrictOrder(lt)
    ensures !(lt(x, y) && lt(y, x))
  {
    assert !lt(x, x);
  }

  lemma FirstsAgree<T(!new)>(a: seq<T>, b: seq<T>, lt: (T, T) -> bool)
    requires StrictOrder(lt) && Strict(a, lt) && Strict(b, lt) && a != [] && b != [] && a[0] in b && b[0] in a
    ensures a[0] == b[0]
  {
    var x, y := a[0], b[0];
    Asymmetric(lt, x, y);
    var i :| 0 <= i < |b| && b[i] == x;
    var j :| 0 <= j < |a| && a[j] == y;
    assert x == y || lt(y, x);
  }

  /** Two strictly ordered lists of the same elements are the same list. */
  lemma {:induction false} StrictUnique<T(!new)>(a: seq<T>, b: seq<T>, lt: (T, T) -> bool)
    requires StrictOrder(lt) && Strict(a, lt) && Strict(b, lt) && forall x :: x in a <==> x in b
    ensures a == b
    decreases |a|
  {
    hide StrictOrder, Strict;
    assert b == [] || b[0] in b;
    if a != [] {
      assert a[0] in b && b != [] && b[0] in a;
      FirstsAgree(a, b, lt);
      StrictTail(a, lt);
      StrictTail(b, lt);
      forall x ensures x in a[1..] <==> x in b[1..] {
        assert x in a <==> x == a[0] || x in a[1..];
        assert x in b <==> x == b[0] || x in b[1..];
      }
      StrictUnique(a[1..], b[1..], lt);
      assert a == [a[0]] + a[1..] && b == [b[0]] + b[1..];
    }
  }

  lemma SamePermuted<T(!new)>(a: seq<T>, b: seq<T>, lt: (T, T) -> bool)
    requires StrictOrder(lt) && Strict(a, lt) && Strict(b, lt) && multiset(a) == multiset(b)
    ensures a == b
  {
    hide StrictOrder, Strict;
    forall x ensures x in a <==> x in b {
      assert x in a <==> x in multiset(a);
      assert x in b <==> x in multiset(b);
    }
    StrictUnique(a, b, lt);
  }

  lemma {:induction false} TwicePositions<T>(s: seq<T>, x: T)
    requires multiset(s)[x] >= 2
    ensures exists p, q :: 0 <= p < q < |s| && s[p] == x && s[q] == x
  {
    assert s == [s[0]] + s[1..];
    if s[0] == x {
      assert x in multiset(s[1..]);
      var q :| 0 <= q < |s[1..]| && s[1..][q] == x;
      assert s[0] == x && s[q + 1] == x;
    } else {
      TwicePositions(s[1..], x);
      var p, q :| 0 <= p < q < |s[1..]| && s[1..][p] == x && s[1..][q] == x;
      assert s[p + 1] == x && s[q + 1] == x;
    }
  }

  lemma InPermuted<T>(s: seq<T>, o: seq<T>, i: nat)
    requires multiset(s) == multiset(o) && i < |s|
    ensures s[i] in o
  {
    assert s[i] in multiset(s);
  }

  /** Elements that do not compare keep a list from having a strict order. */
  lemma NoStrictOrder<T(!new)>(s: seq<T>, o: seq<T>, lt: (T, T) -> bool, i: nat, j: nat)
    requires multiset(s) == multiset(o) && i < j < |s| && !lt(s[i], s[j]) && !lt(s[j], s[i])
    ensures !Strict(o, lt)
  {
    var x, y := s[i], s[j];
    InPermuted(s, o, i);
    InPermuted(s, o, j);
    if x == y {
      TwoCopies(s, i, j);
      TwicePositions(o, x);
      var p, q :| 0 <= p < q < |o| && o[p] == x && o[q] == x;
      assert !lt(o[p], o[q]);
    } else {
      var p :| 0 <= p < |o| && o[p] == x;
      var q :| 0 <= q < |o| && o[q] == y;
      assert if p < q then !lt(o[p], o[q]) else !lt(o[q], o[p]);
    }
  }

  lemma TwoCopies<T>(s: seq<T>, i: nat, j: nat)
    requires i < j < |s| && s[i] == s[j]
    ensures multiset(s)[s[i]] >= 2
  {
    assert s == s[..j] + [s[j]] + s[j + 1..];
    assert s[i] in s[..j];
  }

  /** A sorted list whose neighbours all differ in order is strict. */
  lemma {:induction false} OrderedNeighbours<T(!new)>(s: seq<T>, lt: (T, T) -> bool)
    requires StrictOrder(lt) && forall i :: 0 < i < |s| ==> lt(s[i - 1], s[i])
    ensures Strict(s, lt)
  {
    forall i, j | 0 <= i < j < |s| ensures lt(s[i], s[j]) {
      Chain(s, lt, i, j);
    }
  }

  lemma {:induction false} Chain<T(!new)>(s: seq<T>, lt: (T, T) -> bool, i: nat, j: nat)
    requires StrictOrder(lt) && i < j < |s| && forall k :: 0 < k < |s| ==> lt(s[k - 1], s[k])
    ensures lt(s[i], s[j])
    decreases j
  {
    assert lt(s[j - 1], s[j]);
    if i < j - 1 {
      Chain(s, lt, i, j - 1);
    }
  }

  predicate StringLt(a: string, b: string) {
    a != b && StringLe(a, b)
  }

  lemma StringStrict()
    ensures StrictOrder(StringLt)
  {
    StringOrder();
    forall a: string, b: string, c: string | StringLt(a, b) && StringLt(b, c) ensures StringLt(a, c) {
      StringLeTransitive(a, b, c);
      StringLeTotal(a, b);
    }
  }
}
