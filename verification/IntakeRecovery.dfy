/** A statement whose prepare crashed can be taken up again: convergence finishes
    a write that was complete and cleans up one that never began, whatever other
    parts are in the partition. */
module IntakeRecovery {
  import opened LtHash
  import opened Ledger
  import opened Options
  import opened PartSums
  import opened Partition
  import opened Intake
  import opened IntakeProof
  import opened IntakeProgress

  ghost function Crashed(w: World): World {
    w.(cells := map k | k in w.cells :: w.cells[k].(pc := Idle), pc := Free)
  }

  lemma CanCrash(w: World)
    ensures HonestNext(w, Crash, Crashed(w))
  {
    hide PrepareNext, ConvergeNext, ResolveNext;
  }

  lemma CrashedAt(w: World, k: PartitionKey)
    ensures At(Crashed(w), k) == At(w, k).(pc := Idle)
  {}

  lemma CrashedActive(w: World, table: string)
    ensures Active(Crashed(w), table) == Active(w, table)
  {
    hide At;
    forall p | p in w.rows ensures At(Crashed(w), p.at).unsafe == At(w, p.at).unsafe { CrashedAt(w, p.at); }
  }

  lemma {:induction false} DerivedSize(table: string, st: string, count: nat)
    ensures |Derived(table, st, count)| == count
  {
    if count > 0 {
      DerivedSize(table, st, count - 1);
      assert Derived(table, st, count) == Derived(table, st, count - 1) + {Row(table, st, count - 1)};
    }
  }

  // ---- a complete write --------------------------------------------------------------------------

  /** What convergence attributes to the statement is the part it wrote. */
  lemma AttributesPart(w: World, st: string, p: PartAt, touched: set<string>, count: nat)
    requires Writable(w, st, p) && p.at.partition in touched
    ensures var w3 := Crashed(Filled(w, st, p, touched, count));
      && st in w3.journal && Attributed(w3, w3.journal[st]) == {p} && w3.rows == w.rows[p := Ids(st, p, count)]
      && w3.journal[st] == Prepared(w, st, p, touched, count).journal[st] && IdsOf(w3, st) == Derived(p.at.table, st, count)
  {
    hide WorldOk, At, Derived, Active;
    CrashedActive(Filled(w, st, p, touched, count), p.at.table);
    AddedIsPart(w, st, p, touched, count);
    FilledHasPart(w, st, p, touched, count);
  }

  lemma FilledHasPart(w: World, st: string, p: PartAt, touched: set<string>, count: nat)
    ensures p in Active(Filled(w, st, p, touched, count), p.at.table)
    ensures forall q :: q in Active(w, p.at.table) ==> q.at.table == p.at.table
  {
    hide Derived;
    FilledAt(w, st, p, touched, count, p.at);
  }

  ghost function Taken(w: World, st: string, p: PartAt, touched: set<string>, count: nat): World {
    Crashed(Filled(w, st, p, touched, count)).(pc := Assembling(st, {p}))
  }

  lemma CanConvergeComplete(w: World, st: string, p: PartAt, touched: set<string>, count: nat)
    requires Writable(w, st, p) && p.at.partition in touched && count > 0
    ensures HonestNext(Crashed(Filled(w, st, p, touched, count)), ConvergeComplete(st), Taken(w, st, p, touched, count))
  {
    hide PrepareNext, ResolveNext, WorldOk, Writable, RowsOf, Derived, Attributed, Filled, Ids, Active, At;
    var w3 := Crashed(Filled(w, st, p, touched, count));
    AttributesPart(w, st, p, touched, count);
    PartHolds(w, st, p, count, w3.rows);
    FilledRecord(w, st, p, touched, count);
  }

  lemma FilledRecord(w: World, st: string, p: PartAt, touched: set<string>, count: nat)
    ensures var rec := Prepared(w, st, p, touched, count).journal[st];
      rec.lifecycle.Preparing? && !rec.convergeFailed && rec.expectedRows == count && rec.table == p.at.table && rec.result.None?
  {
    hide Active;
  }

  lemma PartHolds(w: World, st: string, p: PartAt, count: nat, rows: map<PartAt, multiset<Row>>)
    requires p in rows && rows[p] == Ids(st, p, count)
    ensures RowsOf({p}, rows) == multiset(Derived(p.at.table, st, count)) && |RowsOf({p}, rows)| == count
    ensures Within(rows[p], Derived(p.at.table, st, count))
  {
    hide RowsOf, Derived;
    RowsOfPick({p}, rows, p);
    assert {p} - {p} == {};
    EmptyRows(rows);
    DerivedSize(p.at.table, st, count);
    SetSize(Derived(p.at.table, st, count));
  }

  lemma {:induction false} SetSize(s: set<Row>)
    ensures |multiset(s)| == |s|
  {}

  ghost function TakenCell(w: World, st: string, p: PartAt, count: nat): Cell {
    WithPart(At(w, p.at), p.name, Ids(st, p, count)).(pc := Idle)
  }

  ghost function Recounted(w: World, st: string, p: PartAt, touched: set<string>, count: nat): World {
    Move(Taken(w, st, p, touched, count), p.at, WithRecord(TakenCell(w, st, p, count), p.name))
  }

  ghost function Resaved(w: World, st: string, p: PartAt, touched: set<string>, count: nat): World {
    var b := Recounted(w, st, p, touched, count);
    b.(journal := b.journal[st := Prepared(w, st, p, touched, count).journal[st].(lifecycle := UnsafeWritten, result := Some({p}))], pc := Free)
  }

  lemma CanRecount(w: World, st: string, p: PartAt, touched: set<string>, count: nat)
    requires Writable(w, st, p)
    ensures HonestNext(Taken(w, st, p, touched, count), Account(p), Recounted(w, st, p, touched, count))
  {
    hide ConvergeNext, ResolveNext, WorldOk, Active, Derived, Next, WithRecord;
    var c := TakenCell(w, st, p, count);
    CrashedAt(Filled(w, st, p, touched, count), p.at);
    FilledAt(w, st, p, touched, count, p.at);
    assert At(Taken(w, st, p, touched, count), p.at) == c;
    NameIsNew(w, st, p);
    CanRecord(p.at, c, p.name);
  }

  lemma RecountedIs(w: World, st: string, p: PartAt, touched: set<string>, count: nat)
    ensures var b := Recounted(w, st, p, touched, count);
      && b.pc == Assembling(st, {p}) && st in b.journal && b.journal[st] == Prepared(w, st, p, touched, count).journal[st]
      && p.name in At(b, p.at).led.intakeParts
  {
    hide Active, Derived, PartHash, Add;
  }

  lemma CanResave(w: World, st: string, p: PartAt, touched: set<string>, count: nat)
    requires Writable(w, st, p)
    ensures HonestNext(Recounted(w, st, p, touched, count), SaveWritten, Resaved(w, st, p, touched, count))
  {
    hide ConvergeNext, ResolveNext, WorldOk, Next, At, Recounted, Prepared;
    RecountedIs(w, st, p, touched, count);
    FilledRecord(w, st, p, touched, count);
  }

  /** Prepare, insert, crash; then convergence finds the write complete, counts it
      and saves the claim. */
  lemma CompleteWriteConverges(w: World, st: string, p: PartAt, touched: set<string>, count: nat) returns (done: World)
    requires Writable(w, st, p) && p.at.partition in touched && count > 0
    ensures WorldPath(w, done, 6) && done.pc.Free? && Claimed(done, st) && done.journal[st].result == Some({p})
    ensures done.rows == w.rows[p := multiset(Derived(p.at.table, st, count))]
  {
    hide WorldOk, HonestNext, Prepared, Filled, Crashed, Taken, Recounted, Resaved, Ids, Derived, Claimed, WorldPath;
    var w1, w2 := Prepared(w, st, p, touched, count), Filled(w, st, p, touched, count);
    done := Resaved(w, st, p, touched, count);
    CanPrepare(w, st, p, touched, count);
    CanInsert(w, st, p, touched, count);
    CanCrash(w2);
    CanConvergeComplete(w, st, p, touched, count);
    CanRecount(w, st, p, touched, count);
    CanResave(w, st, p, touched, count);
    ResavedIs(w, st, p, touched, count);
    assert WorldPath(w, w, 0) by { StartPath(w); }
    WorldGoes(w, w, 0, Prepare(st, p.at.table, touched, count), w1);
    WorldGoes(w, w1, 1, Insert(p, Ids(st, p, count)), w2);
    WorldGoes(w, w2, 2, Crash, Crashed(w2));
    WorldGoes(w, Crashed(w2), 3, ConvergeComplete(st), Taken(w, st, p, touched, count));
    WorldGoes(w, Taken(w, st, p, touched, count), 4, Account(p), Recounted(w, st, p, touched, count));
    WorldGoes(w, Recounted(w, st, p, touched, count), 5, SaveWritten, done);
  }

  lemma ResavedIs(w: World, st: string, p: PartAt, touched: set<string>, count: nat)
    ensures var done := Resaved(w, st, p, touched, count);
      && done.pc.Free? && Claimed(done, st) && done.journal[st].result == Some({p})
      && done.rows == w.rows[p := multiset(Derived(p.at.table, st, count))]
  {
    hide Active, PartHash, Add, Derived, At, WithPart, WithRecord;
  }

  // ---- nothing written -----------------------------------------------------------------------------

  ghost function GivenUp(w: World, st: string, p: PartAt, touched: set<string>, count: nat): World {
    var c := Crashed(Prepared(w, st, p, touched, count));
    c.(journal := c.journal[st := Prepared(w, st, p, touched, count).journal[st].(lifecycle := AbortPending, abort := Some({}))])
  }

  ghost function CleanedUp(w: World, st: string, p: PartAt, touched: set<string>, count: nat): World {
    var c := GivenUp(w, st, p, touched, count);
    c.(journal := c.journal[st := Prepared(w, st, p, touched, count).journal[st].(lifecycle := Intake.Cleaned, abort := Some({}))])
  }

  lemma AttributesNothing(w: World, st: string, p: PartAt, touched: set<string>, count: nat)
    ensures var c := Crashed(Prepared(w, st, p, touched, count));
      st in c.journal && c.journal[st] == Prepared(w, st, p, touched, count).journal[st] && Attributed(c, c.journal[st]) == {}
  {
    hide At;
    CrashedActive(Prepared(w, st, p, touched, count), p.at.table);
    PreparedActive(w, st, p, touched, count);
  }

  lemma PreparedActive(w: World, st: string, p: PartAt, touched: set<string>, count: nat)
    ensures Active(Prepared(w, st, p, touched, count), p.at.table) == Active(w, p.at.table)
  {}

  lemma CanGiveUp(w: World, st: string, p: PartAt, touched: set<string>, count: nat)
    requires Writable(w, st, p)
    ensures HonestNext(Crashed(Prepared(w, st, p, touched, count)), ConvergePartial(st), GivenUp(w, st, p, touched, count))
  {
    hide PrepareNext, ResolveNext, WorldOk, Derived, Attributed, Active, At, RowsOf, Next, Prepared;
    var c := Crashed(Prepared(w, st, p, touched, count));
    AttributesNothing(w, st, p, touched, count);
    FilledRecord(w, st, p, touched, count);
    EmptyRows(c.rows);
    NoNames(Attributed(c, c.journal[st]));
  }

  lemma NoNames(parts: set<PartAt>)
    requires parts == {}
    ensures (set q | q in parts :: q.name) == {}
  {}

  lemma CanCleanUp(w: World, st: string, p: PartAt, touched: set<string>, count: nat)
    requires Writable(w, st, p)
    ensures HonestNext(GivenUp(w, st, p, touched, count), SaveCleaned(st), CleanedUp(w, st, p, touched, count))
  {
    hide PrepareNext, ConvergeNext, WorldOk, Active, At, Next, Prepared;
    FilledRecord(w, st, p, touched, count);
  }

  /** Prepare, crash; then convergence finds nothing written and cleans the
      statement, which can be prepared again. */
  lemma NothingWrittenIsCleaned(w: World, st: string, p: PartAt, touched: set<string>, count: nat) returns (done: World)
    requires Writable(w, st, p)
    ensures WorldPath(w, done, 4) && Writable(done, st, p) && done.rows == w.rows
    ensures st in done.journal && done.journal[st].lifecycle.Cleaned?
  {
    hide WorldOk, HonestNext, Prepared, Crashed, GivenUp, CleanedUp, WorldPath;
    var w1 := Prepared(w, st, p, touched, count);
    done := CleanedUp(w, st, p, touched, count);
    CanPrepare(w, st, p, touched, count);
    CanCrash(w1);
    CanGiveUp(w, st, p, touched, count);
    CanCleanUp(w, st, p, touched, count);
    CleanedUpIs(w, st, p, touched, count);
    assert WorldPath(w, w, 0) by { StartPath(w); }
    WorldGoes(w, w, 0, Prepare(st, p.at.table, touched, count), w1);
    WorldGoes(w, w1, 1, Crash, Crashed(w1));
    WorldGoes(w, Crashed(w1), 2, ConvergePartial(st), GivenUp(w, st, p, touched, count));
    WorldGoes(w, GivenUp(w, st, p, touched, count), 3, SaveCleaned(st), done);
    WorldPathOk(w, done, 4);
  }

  lemma CleanedUpIs(w: World, st: string, p: PartAt, touched: set<string>, count: nat)
    ensures var done := CleanedUp(w, st, p, touched, count);
      done.pc.Free? && st in done.journal && done.journal[st].lifecycle.Cleaned? && done.rows == w.rows
  {
    hide Active;
  }
}
