/** The ledger's flat string keys: ids joined by NUL. */
module Keys {
  import opened Ledger
  import opened Options

  const NUL: char := '\0'

  predicate NulFree(s: string) {
    NUL !in s
  }

  predicate Plain(k: PartitionKey) {
    NulFree(k.table) && NulFree(k.partition)
  }

  function Join(a: string, b: string): string {
    a + [NUL] + b
  }

  function KeyOf(k: PartitionKey): string {
    Join(k.table, k.partition)
  }

  /** intakePartKey. */
  function PartKeyOf(k: PartitionKey, name: string): string {
    Join(KeyOf(k), name)
  }

  /** What every key of the table begins with. */
  function TablePrefix(table: string): string {
    Join(table, "")
  }

  /** strings.Cut at the first NUL. */
  function SplitKey(s: string): Option<PartitionKey> {
    if s == "" then None
    else if s[0] == NUL then Some(PartitionKey("", s[1..]))
    else
      var rest := SplitKey(s[1..]);
      if rest.None? then None else Some(rest.value.(table := [s[0]] + rest.value.table))
  }

  lemma {:induction false} SplitKeyOf(k: PartitionKey)
    requires NulFree(k.table)
    ensures SplitKey(KeyOf(k)) == Some(k)
    decreases |k.table|
  {
    if k.table == "" {
      assert KeyOf(k) == [NUL] + k.partition;
    } else {
      assert KeyOf(k)[1..] == KeyOf(k.(table := k.table[1..]));
      SplitKeyOf(k.(table := k.table[1..]));
      assert [k.table[0]] + k.table[1..] == k.table;
    }
  }

  lemma {:induction false} JoinPrefix(a: string, b: string, c: string)
    requires NulFree(a) && NulFree(c)
    ensures Join(c, "") <= Join(a, b) <==> a == c
    decreases |a|
  {
    if a == "" {
      if c != "" { assert Join(c, "")[0] == c[0] && c[0] in c; }
    } else if c == "" {
      assert Join(a, b)[0] == a[0] && a[0] in a && Join(c, "")[0] == NUL;
    } else {
      assert Join(a, b)[1..] == Join(a[1..], b) && Join(c, "")[1..] == Join(c[1..], "");
      JoinPrefix(a[1..], b, c[1..]);
      assert Join(a, b) == [a[0]] + Join(a[1..], b) && Join(c, "") == [c[0]] + Join(c[1..], "");
      assert a == [a[0]] + a[1..] && c == [c[0]] + c[1..];
    }
  }

  lemma JoinInjective(a: string, b: string, c: string, d: string)
    requires NulFree(a) && NulFree(c) && Join(a, b) == Join(c, d)
    ensures a == c && b == d
  {
    assert Join(c, "") <= Join(c, d);
    JoinPrefix(a, b, c);
    assert b == Join(a, b)[|a| + 1..] && d == Join(c, d)[|c| + 1..];
  }

  /** A prefix test on keys is a test of the table. */
  lemma PrefixIsTable(k: PartitionKey, table: string)
    requires NulFree(k.table) && NulFree(table)
    ensures TablePrefix(table) <= KeyOf(k) <==> k.table == table
  {
    JoinPrefix(k.table, k.partition, table);
  }

  lemma PrefixIsTableOfPart(k: PartitionKey, name: string, table: string)
    requires NulFree(k.table) && NulFree(table)
    ensures TablePrefix(table) <= PartKeyOf(k, name) <==> k.table == table
  {
    assert PartKeyOf(k, name) == Join(k.table, Join(k.partition, name));
    JoinPrefix(k.table, Join(k.partition, name), table);
  }

  lemma KeyInjective(a: PartitionKey, b: PartitionKey)
    requires Plain(a) && Plain(b) && KeyOf(a) == KeyOf(b)
    ensures a == b
  {
    JoinInjective(a.table, a.partition, b.table, b.partition);
  }

  lemma PartKeyInjective(a: PartitionKey, m: string, b: PartitionKey, n: string)
    requires Plain(a) && Plain(b) && PartKeyOf(a, m) == PartKeyOf(b, n)
    ensures a == b && m == n
  {
    assert PartKeyOf(a, m) == Join(a.table, Join(a.partition, m));
    assert PartKeyOf(b, n) == Join(b.table, Join(b.partition, n));
    JoinInjective(a.table, Join(a.partition, m), b.table, Join(b.partition, n));
    JoinInjective(a.partition, m, b.partition, n);
  }
}
