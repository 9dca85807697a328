/** Intake can always go on: from every world an honest run reaches with the
    intake lock free, a new statement can be written and claimed. */
module IntakeProgress {
  import opened LtHash
  import opened Ledger
  import opened Options
  import opened PartSums
  import opened Partition
  import opened Publication
  import opened Books
  import opened Intake
  import opened IntakeProof
  import opened IntakeWrites

  /** The statement has no record or a cleaned one, and the part is new to its
      table. */
  ghost predicate Writable(w: World, st: string, p: PartAt) {
    && WorldOk(w) && w.pc.Free?
    && st != "" && (st in w.journal ==> w.journal[st].lifecycle.Cleaned?)
    && p.name != ""
    && (forall q :: q in w.rows && q.at.table == p.at.table ==> q.name != p.name)
  }

  ghost predicate HonestNext(w: World, s: IntakeStep, w': World) {
    NextWorld(w, s, w') && HonestWorld(w, s)
  }

  /** Some `n` honest steps lead from `a` to `b`. */
  ghost predicate WorldPath(a: World, b: World, n: nat)
    decreases n
  {
    if n == 0 then a == b
    else exists m, s :: WorldPath(a, m, n - 1) && HonestNext(m, s, b)
  }

  lemma StartPath(w: World)
    ensures WorldPath(w, w, 0)
  {}

  lemma WorldGoes(a: World, m: World, n: nat, s: IntakeStep, b: World)
    requires WorldPath(a, m, n) && HonestNext(m, s, b)
    ensures WorldPath(a, b, n + 1)
  {
    hide HonestNext;
  }

  // ---- the worlds on the way -----------------------------------------------------

  ghost function Ids(st: string, p: PartAt, count: nat): multiset<Row> {
    multiset(Derived(p.at.table, st, count))
  }

  ghost function Prepared(w: World, st: string, p: PartAt, touched: set<string>, count: nat): World {
    var before := set q | q in Active(w, p.at.table) && q.at.partition in touched;
    w.(journal := w.journal[st := IntakeRecord(Preparing, p.at.table, touched, before, count, None, None, false)],
       pc := Writing(st, Active(w, p.at.table)))
  }

  ghost function WithPart(c: Cell, name: string, rows: multiset<Row>): Cell {
    c.(unsafe := c.unsafe + {name}, written := c.written[name := rows])
  }

  ghost function Filled(w: World, st: string, p: PartAt, touched: set<string>, count: nat): World {
    var rows := Ids(st, p, count);
    Move(Prepared(w, st, p, touched, count), p.at, WithPart(At(w, p.at), p.name, rows))
      .(rows := w.rows[p := rows], owner := w.owner[p := st])
  }

  ghost function Returned(w: World, st: string, p: PartAt, touched: set<string>, count: nat): World {
    Filled(w, st, p, touched, count).(pc := Assembling(st, {p}))
  }

  ghost function WithRecord(c: Cell, name: string): Cell {
    c.(led := c.led.(unpromotedSum := Value(Add(Parse(c.led.unpromotedSum), PartHash(c.written, name))),
                     intakeParts := c.led.intakeParts[name := Value(PartHash(c.written, name))]))
  }

  ghost function Entered(w: World, st: string, p: PartAt, touched: set<string>, count: nat): World {
    Move(Returned(w, st, p, touched, count), p.at, WithRecord(WithPart(At(w, p.at), p.name, Ids(st, p, count)), p.name))
  }

  ghost function Saved(w: World, st: string, p: PartAt, touched: set<string>, count: nat): World {
    var b := Entered(w, st, p, touched, count);
    b.(journal := b.journal[st := b.journal[st].(lifecycle := UnsafeWritten, result := Some({p}))], pc := Free)
  }

  // ---- each step is enabled --------------------------------------------------------

  lemma CanPrepare(w: World, st: string, p: PartAt, touched: set<string>, count: nat)
    requires Writable(w, st, p)
    ensures HonestNext(w, Prepare(st, p.at.table, touched, count), Prepared(w, st, p, touched, count))
  {
    hide ConvergeNext, ResolveNext, WorldOk, Active, Next, At;
  }

  lemma CanWrite(k: PartitionKey, c: Cell, name: string, rows: multiset<Row>)
    requires name !in c.written && name != "" && rows != multiset{}
    ensures Next(k, c, Write(name, rows), WithPart(c, name, rows))
  {
    hide Builds, Answers, Cleans;
  }

  lemma NameIsNew(w: World, st: string, p: PartAt)
    requires Writable(w, st, p)
    ensures p.name !in At(w, p.at).written && p.name !in At(w, p.at).led.intakeParts
  {
    hide LockOk, NamedOk, StatementOk, NamesUnique, RowsOwned, Publishable, Balanced, DutiesHeld, PartsHaveRows, Marked, Promising;
    assert !InHistory(w.rows, p.at, p.name);
    assert Sound(At(w, p.at));
  }

  lemma CanInsert(w: World, st: string, p: PartAt, touched: set<string>, count: nat)
    requires Writable(w, st, p) && p.at.partition in touched && count > 0
    ensures HonestNext(Prepared(w, st, p, touched, count), Insert(p, Ids(st, p, count)), Filled(w, st, p, touched, count))
  {
    hide ConvergeNext, ResolveNext, WorldOk, Active, Attributed, ExactlyOnce, Saves, Next;
    assert Row(p.at.table, st, 0) in Ids(st, p, count);
    NameIsNew(w, st, p);
    assert At(Prepared(w, st, p, touched, count), p.at) == At(w, p.at);
    CanWrite(p.at, At(w, p.at), p.name, Ids(st, p, count));
  }

  lemma FilledAt(w: World, st: string, p: PartAt, touched: set<string>, count: nat, k: PartitionKey)
    ensures At(Filled(w, st, p, touched, count), k) ==
            if k == p.at then WithPart(At(w, k), p.name, Ids(st, p, count)) else At(w, k)
  {
    hide Active, Derived;
  }

  /** The part is all the write added. */
  lemma AddedIsPart(w: World, st: string, p: PartAt, touched: set<string>, count: nat)
    requires Writable(w, st, p)
    ensures Active(Filled(w, st, p, touched, count), p.at.table) - Active(w, p.at.table) == {p}
  {
    hide WorldOk, RowsOf, At, Derived, Prepared;
    var w2 := Filled(w, st, p, touched, count);
    FilledAt(w, st, p, touched, count, p.at);
    forall q | q in w.rows && q.at.table == p.at.table
      ensures q.name in At(w2, q.at).unsafe <==> q.name in At(w, q.at).unsafe
    {
      FilledAt(w, st, p, touched, count, q.at);
    }
  }

  lemma PartIsAll(w: World, st: string, p: PartAt, touched: set<string>, count: nat)
    ensures ExactlyOnce(Filled(w, st, p, touched, count), {p}, st)
  {
    hide RowsOf, At, Active, Derived;
    var w2 := Filled(w, st, p, touched, count);
    RowsOfPick({p}, w2.rows, p);
    assert {p} - {p} == {};
    EmptyRows(w2.rows);
  }

  lemma EmptyRows(rows: map<PartAt, multiset<Row>>)
    ensures RowsOf({}, rows) == multiset{}
  {}

  lemma CanReturn(w: World, st: string, p: PartAt, touched: set<string>, count: nat)
    requires Writable(w, st, p)
    ensures HonestNext(Filled(w, st, p, touched, count), InsertReturned, Returned(w, st, p, touched, count))
  {
    hide ConvergeNext, ResolveNext, WorldOk, RowsOf, Active, ExactlyOnce, Next, Attributed, Derived;
    AddedIsPart(w, st, p, touched, count);
    PartIsAll(w, st, p, touched, count);
  }

  lemma CanRecord(k: PartitionKey, c: Cell, name: string)
    requires name in c.unsafe && name !in c.led.intakeParts
    ensures Next(k, c, Record(name), WithRecord(c, name))
  {
    hide Builds, Answers, Cleans, PartHash, Add;
  }

  lemma CanAccount(w: World, st: string, p: PartAt, touched: set<string>, count: nat)
    requires Writable(w, st, p)
    ensures HonestNext(Returned(w, st, p, touched, count), Account(p), Entered(w, st, p, touched, count))
  {
    hide ConvergeNext, ResolveNext, WorldOk, Active, Attributed, Derived, ExactlyOnce, Saves, Next, WithRecord;
    var c := WithPart(At(w, p.at), p.name, Ids(st, p, count));
    assert At(Returned(w, st, p, touched, count), p.at) == c;
    NameIsNew(w, st, p);
    CanRecord(p.at, c, p.name);
  }

  lemma EnteredRecords(w: World, st: string, p: PartAt, touched: set<string>, count: nat)
    ensures p.name in At(Entered(w, st, p, touched, count), p.at).led.intakeParts
  {
    hide Active, PartHash, Add, Derived;
  }

  lemma CanSave(w: World, st: string, p: PartAt, touched: set<string>, count: nat)
    requires Writable(w, st, p)
    ensures HonestNext(Entered(w, st, p, touched, count), SaveWritten, Saved(w, st, p, touched, count))
  {
    hide ConvergeNext, ResolveNext, WorldOk, Active, At, WithPart, WithRecord, Next, Attributed, Derived, ExactlyOnce;
    EnteredRecords(w, st, p, touched, count);
  }

  lemma SavedIs(w: World, st: string, p: PartAt, touched: set<string>, count: nat)
    ensures var done := Saved(w, st, p, touched, count);
      && done.pc.Free? && Claimed(done, st) && done.journal[st].result == Some({p})
      && IdsOf(done, st) == Derived(p.at.table, st, count) && done.rows == w.rows[p := multiset(IdsOf(done, st))]
  {
    hide Active, PartHash, Add, Derived, At, WithPart, WithRecord;
  }

  /** Five honest steps take a new statement to a saved claim that names one
      part with each of its row ids once. */
  lemma StatementCompletes(w: World, st: string, p: PartAt, touched: set<string>, count: nat) returns (done: World)
    requires Writable(w, st, p) && p.at.partition in touched && count > 0
    ensures done == Saved(w, st, p, touched, count) && WorldPath(w, done, 5) && done.pc.Free? && WorldOk(done)
    ensures Claimed(done, st) && done.journal[st].result == Some({p}) && IdsOf(done, st) == Derived(p.at.table, st, count)
    ensures done.rows == w.rows[p := multiset(IdsOf(done, st))]
  {
    hide WorldOk, HonestNext, Prepared, Filled, Returned, Entered, Saved, Ids, Derived, Claimed;
    var w1, w2, w3, w4 := Prepared(w, st, p, touched, count), Filled(w, st, p, touched, count),
      Returned(w, st, p, touched, count), Entered(w, st, p, touched, count);
    done := Saved(w, st, p, touched, count);
    CanInsert(w, st, p, touched, count);
    CanReturn(w, st, p, touched, count);
    CanAccount(w, st, p, touched, count);
    CanSave(w, st, p, touched, count);
    CanPrepare(w, st, p, touched, count);
    SavedIs(w, st, p, touched, count);
    WorldGoes(w, w, 0, Prepare(st, p.at.table, touched, count), w1);
    WorldGoes(w, w1, 1, Insert(p, Ids(st, p, count)), w2);
    WorldGoes(w, w2, 2, InsertReturned, w3);
    WorldGoes(w, w3, 3, Account(p), w4);
    WorldGoes(w, w4, 4, SaveWritten, done);
    WorldPathOk(w, done, 5);
  }

  lemma {:induction false} WorldPathOk(a: World, b: World, n: nat)
    requires WorldOk(a) && WorldPath(a, b, n)
    ensures WorldOk(b)
    decreases n
  {
    hide WorldOk, NextWorld, HonestWorld;
    if n > 0 {
      var m, s :| WorldPath(a, m, n - 1) && HonestNext(m, s, b);
      WorldPathOk(a, m, n - 1);
      StepKeepsWorld(m, s, b);
    }
  }
}
