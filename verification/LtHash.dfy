/** The row LtHash as the protocol uses it: a commitment that parts add to and
    leave in any order. It is modelled as the free abelian group over row ids,
    so two accumulators are equal exactly when they hold the same rows with the
    same (possibly negative) multiplicities. */
module LtHash {

  /** A derived row id: one row of one statement on one table. */
  datatype Row = Row(table: string, statement: string, ordinal: nat)

  type Hash = h: map<Row, int> | forall r :: r in h ==> h[r] != 0

  const Zero: Hash := map[]

  /** How often `r` is counted in `h`. */
  function Count(h: Hash, r: Row): int {
    if r in h then h[r] else 0
  }

  function Add(a: Hash, b: Hash): Hash {
    map r | r in a.Keys + b.Keys && Count(a, r) + Count(b, r) != 0 :: Count(a, r) + Count(b, r)
  }

  function Sub(a: Hash, b: Hash): Hash {
    map r | r in a.Keys + b.Keys && Count(a, r) - Count(b, r) != 0 :: Count(a, r) - Count(b, r)
  }

  /** The LtHash of a part: each of its rows once per occurrence. */
  function OfRows(rows: multiset<Row>): Hash {
    map r | r in rows :: rows[r]
  }

  lemma Extensional(a: Hash, b: Hash)
    requires forall r :: Count(a, r) == Count(b, r)
    ensures a == b
  {
    forall r ensures r in a <==> r in b {
      assert Count(a, r) == Count(b, r);
    }
    forall r | r in a ensures a[r] == b[r] {
      assert Count(a, r) == Count(b, r);
    }
  }

  lemma AddCommutes(a: Hash, b: Hash)
    ensures Add(a, b) == Add(b, a)
  {}

  lemma AddAssociates(a: Hash, b: Hash, c: Hash)
    ensures Add(Add(a, b), c) == Add(a, Add(b, c))
  {
    forall r ensures Count(Add(Add(a, b), c), r) == Count(Add(a, Add(b, c)), r) {
      assert Count(Add(Add(a, b), c), r) == Count(Add(a, b), r) + Count(c, r);
      assert Count(Add(a, Add(b, c)), r) == Count(a, r) + Count(Add(b, c), r);
    }
    Extensional(Add(Add(a, b), c), Add(a, Add(b, c)));
  }

  lemma AddZero(a: Hash)
    ensures Add(a, Zero) == a == Add(Zero, a)
  {}

  lemma SubAdd(a: Hash, b: Hash)
    ensures Sub(Add(a, b), b) == a
  {}

  lemma AddSub(a: Hash, b: Hash)
    ensures Add(Sub(a, b), b) == a
  {}

  lemma CountAdd(a: Hash, b: Hash, r: Row)
    ensures Count(Add(a, b), r) == Count(a, r) + Count(b, r)
    ensures Count(Sub(a, b), r) == Count(a, r) - Count(b, r)
  {}

  lemma OfRowsAdds(a: multiset<Row>, b: multiset<Row>)
    ensures OfRows(a + b) == Add(OfRows(a), OfRows(b))
  {}

  /** Collision freedom: a root determines the rows it commits to. */
  lemma OfRowsInjective(a: multiset<Row>, b: multiset<Row>)
    requires OfRows(a) == OfRows(b)
    ensures a == b
  {}

  /** The sum of a list of part hashes. */
  function Sum(hs: seq<Hash>): Hash {
    if hs == [] then Zero else Add(hs[0], Sum(hs[1..]))
  }

  lemma {:induction false} SumConcat(a: seq<Hash>, b: seq<Hash>)
    ensures Sum(a + b) == Add(Sum(a), Sum(b))
  {
    hide Add;
    if a == [] {
      assert a + b == b;
      AddZero(Sum(b));
    } else {
      assert (a + b)[1..] == a[1..] + b;
      SumConcat(a[1..], b);
      AddAssociates(a[0], Sum(a[1..]), Sum(b));
    }
  }

  lemma {:induction false} SumPick(b: seq<Hash>, i: nat)
    requires i < |b|
    ensures Sum(b) == Add(b[i], Sum(b[..i] + b[i+1..]))
  {
    hide Add;
    if i == 0 {
      assert b[..0] + b[1..] == b[1..];
    } else {
      SumPick(b[1..], i - 1);
      var rest := b[..i] + b[i+1..];
      assert rest[1..] == b[1..][..i-1] + b[1..][i..];
      assert b[0] == rest[0];
      AddAssociates(b[0], b[i], Sum(rest[1..]));
      AddCommutes(b[0], b[i]);
      AddAssociates(b[i], b[0], Sum(rest[1..]));
    }
  }

  /** A sum does not depend on the order of its terms. */
  lemma {:induction false} SumPermutes(a: seq<Hash>, b: seq<Hash>)
    requires multiset(a) == multiset(b)
    ensures Sum(a) == Sum(b)
  {
    hide Add;
    if a == [] {
      assert |multiset(b)| == 0;
    } else {
      assert a[0] in multiset(b);
      var i :| 0 <= i < |b| && b[i] == a[0];
      var rest := b[..i] + b[i+1..];
      assert multiset(a) == multiset{a[0]} + multiset(a[1..]) by { assert a == [a[0]] + a[1..]; }
      assert multiset(b) == multiset{b[i]} + multiset(rest) by { assert b == b[..i] + [b[i]] + b[i+1..]; }
      assert multiset(a[1..]) == multiset(a) - multiset{a[0]};
      assert multiset(rest) == multiset(b) - multiset{b[i]};
      SumPermutes(a[1..], rest);
      SumPick(b, i);
    }
  }
}
