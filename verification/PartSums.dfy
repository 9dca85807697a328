/** The rows held by a set of parts, whose contents never change once written. */
module PartSums {
  import opened LtHash

  type Contents = map<string, multiset<Row>>

  function Content<K>(w: map<K, multiset<Row>>, n: K): multiset<Row> {
    if n in w then w[n] else multiset{}
  }

  function PartHash<K>(w: map<K, multiset<Row>>, n: K): Hash {
    OfRows(Content(w, n))
  }

  /** All rows of the parts in `s`, with multiplicity. */
  ghost function RowsOf<K>(s: set<K>, w: map<K, multiset<Row>>): multiset<Row> {
    if s == {} then multiset{}
    else var n :| n in s; Content(w, n) + RowsOf(s - {n}, w)
  }

  /** The content root of the parts in `s`. */
  ghost function Root<K>(s: set<K>, w: map<K, multiset<Row>>): Hash {
    OfRows(RowsOf(s, w))
  }

  lemma {:induction false} RowsOfPick<K>(s: set<K>, w: map<K, multiset<Row>>, n: K)
    requires n in s
    ensures RowsOf(s, w) == Content(w, n) + RowsOf(s - {n}, w)
    decreases |s|
  {
    var m :| m in s && RowsOf(s, w) == Content(w, m) + RowsOf(s - {m}, w);
    if m != n {
      RowsOfPick(s - {m}, w, n);
      RowsOfPick(s - {n}, w, m);
      assert s - {m} - {n} == s - {n} - {m};
    }
  }

  lemma SumAssociates(a: multiset<Row>, b: multiset<Row>, c: multiset<Row>)
    ensures (a + b) + c == a + (b + c)
  {}

  lemma {:induction false} RowsOfUnion<K>(a: set<K>, b: set<K>, w: map<K, multiset<Row>>)
    requires a !! b
    ensures RowsOf(a + b, w) == RowsOf(a, w) + RowsOf(b, w)
    decreases |a|
  {
    if a == {} {
      assert a + b == b;
    } else {
      var n :| n in a;
      assert a + b - {n} == (a - {n}) + b;
      RowsOfPick(a + b, w, n);
      RowsOfPick(a, w, n);
      RowsOfUnion(a - {n}, b, w);
      SumAssociates(Content(w, n), RowsOf(a - {n}, w), RowsOf(b, w));
    }
  }

  lemma {:induction false} RowsOfMember<K>(s: set<K>, w: map<K, multiset<Row>>, r: Row)
    ensures r in RowsOf(s, w) <==> exists n :: n in s && r in Content(w, n)
    decreases |s|
  {
    if s != {} {
      var m :| m in s && RowsOf(s, w) == Content(w, m) + RowsOf(s - {m}, w);
      RowsOfMember(s - {m}, w, r);
    }
  }

  lemma {:induction false} RowsOfFrame<K>(s: set<K>, w: map<K, multiset<Row>>, w': map<K, multiset<Row>>)
    requires forall n :: n in s ==> Content(w, n) == Content(w', n)
    ensures RowsOf(s, w) == RowsOf(s, w')
    decreases |s|
  {
    if s != {} {
      var n :| n in s;
      RowsOfPick(s, w, n);
      RowsOfPick(s, w', n);
      RowsOfFrame(s - {n}, w, w');
    }
  }

  lemma RootPick<K>(s: set<K>, w: map<K, multiset<Row>>, n: K)
    requires n in s
    ensures Root(s, w) == Add(PartHash(w, n), Root(s - {n}, w))
  {
    RowsOfPick(s, w, n);
    OfRowsAdds(Content(w, n), RowsOf(s - {n}, w));
  }

  lemma RootUnion<K>(a: set<K>, b: set<K>, w: map<K, multiset<Row>>)
    requires a !! b
    ensures Root(a + b, w) == Add(Root(a, w), Root(b, w))
  {
    RowsOfUnion(a, b, w);
    OfRowsAdds(RowsOf(a, w), RowsOf(b, w));
  }

  /** A part with rows keeps the root of any set it is in away from zero. */
  lemma RootNonZero<K>(s: set<K>, w: map<K, multiset<Row>>, n: K)
    requires n in s && Content(w, n) != multiset{}
    ensures Root(s, w) != Zero
  {
    RowsOfPick(s, w, n);
    var r :| r in Content(w, n);
    assert r in RowsOf(s, w);
    assert r in OfRows(RowsOf(s, w));
  }

  ghost predicate Distinct(names: seq<string>) {
    forall i, j :: 0 <= i < j < |names| ==> names[i] != names[j]
  }

  ghost function SetOf(names: seq<string>): set<string> {
    set n | n in names
  }

  lemma {:induction false} SetOfSize(names: seq<string>)
    requires Distinct(names)
    ensures |SetOf(names)| == |names|
  {
    if names == [] {
      assert SetOf(names) == {};
    } else {
      SetOfSize(names[1..]);
      assert SetOf(names) == {names[0]} + SetOf(names[1..]);
    }
  }

  /** The hashes of distinct parts, listed, sum to the root of their set. */
  lemma {:induction false} ListedRoot(names: seq<string>, hs: seq<Hash>, w: Contents)
    requires Distinct(names) && |hs| == |names|
    requires forall i :: 0 <= i < |names| ==> hs[i] == PartHash(w, names[i])
    ensures Sum(hs) == Root(SetOf(names), w)
  {
    if names == [] {
      assert SetOf(names) == {};
    } else {
      hide Root, Add, PartHash;
      ListedRoot(names[1..], hs[1..], w);
      RootPick(SetOf(names), w, names[0]);
      assert SetOf(names) - {names[0]} == SetOf(names[1..]);
    }
  }
}
