/** Insertion, accounting and crashes keep the intake invariant, and so does
    every honest run. */
module IntakeWrites {
  import opened LtHash
  import opened Ledger
  import opened PartSums
  import opened Partition
  import opened Publication
  import opened Books
  import opened Intake
  import opened IntakeProof
  import opened IntakeSteps

  // ---- insertion ------------------------------------------------------------------

  lemma IdsAreOfStatement(w: World, st: string, r: Row)
    requires r in IdsOf(w, st)
    ensures r.statement == st
  {}

  /** The world after one insertion for the statement that holds the lock. */
  ghost predicate Inserts(w: World, p: PartAt, rows: multiset<Row>, w': World) {
    && w.pc.Writing? && Open(w, w.pc.statement)
    && var rec := w.journal[w.pc.statement];
    && p.at.table == rec.table && p.at.partition in rec.touched && Within(rows, IdsOf(w, w.pc.statement))
    && (forall q :: q in w.rows && q.at.table == p.at.table ==> q.name != p.name)
    && var c := At(w, p.at);
    && p.name !in c.written
    && w' == World(w.cells[p.at := c.(unsafe := c.unsafe + {p.name}, written := c.written[p.name := rows])],
                   w.journal, w.pc, w.rows[p := rows], w.owner[p := w.pc.statement])
  }

  lemma InsertNames(rows: map<PartAt, multiset<Row>>, p: PartAt, inserted: multiset<Row>)
    requires NamesUnique(rows) && (forall q :: q in rows && q.at.table == p.at.table ==> q.name != p.name)
    ensures NamesUnique(rows[p := inserted])
  {}

  lemma InsertOwned(rows: map<PartAt, multiset<Row>>, owner: map<PartAt, string>, p: PartAt, inserted: multiset<Row>, st: string)
    requires RowsOwned(rows, owner) && forall r :: r in inserted ==> r.statement == st
    ensures RowsOwned(rows[p := inserted], owner[p := st])
  {}

  lemma InsertHistory(w: World, p: PartAt, rows: multiset<Row>, w': World)
    requires HistoryAgrees(w) && Inserts(w, p, rows, w')
    ensures HistoryAgrees(w')
  {
    hide At, IdsOf, InHistory;
    var c' := w'.cells[p.at];
    AtMove(w, p.at, c', w');
    forall k, n | n in At(w', k).written ensures InHistory(w'.rows, k, n) {
      HistoryGrows(w.rows, p, rows, k, n);
    }
    forall q | q in w'.rows ensures q.name in At(w', q.at).written && At(w', q.at).written[q.name] == w'.rows[q] {
      if q != p { assert q.at != p.at || q.name != p.name; }
    }
  }

  lemma HistoryGrows(rows: map<PartAt, multiset<Row>>, p: PartAt, inserted: multiset<Row>, k: PartitionKey, n: string)
    requires PartAt(k, n) == p || InHistory(rows, k, n)
    ensures InHistory(rows[p := inserted], k, n)
  {}

  lemma InsertParts(w: World, p: PartAt, rows: multiset<Row>, w': World)
    requires PartsOk(w) && Inserts(w, p, rows, w')
    ensures PartsOk(w')
  {
    hide At, IdsOf, HistoryAgrees, NamesUnique, RowsOwned;
    InsertHistory(w, p, rows, w');
    InsertNames(w.rows, p, rows);
    forall r | r in rows ensures r.statement == w.pc.statement {
      IdsAreOfStatement(w, w.pc.statement, r);
    }
    InsertOwned(w.rows, w.owner, p, rows, w.pc.statement);
  }

  lemma InsertKept(w: World, p: PartAt, rows: multiset<Row>, w': World, st: string)
    requires p !in w.rows && w.rows.Keys == w.owner.Keys && Inserts(w, p, rows, w')
    requires p.name !in At(w, p.at).discarded
    ensures Kept(w', st) == if st == w.pc.statement then Kept(w, st) + {p} else Kept(w, st)
  {
    hide At, IdsOf, Within;
    AtMove(w, p.at, w'.cells[p.at], w');
  }

  lemma InsertGrows(w: World, p: PartAt, rows: multiset<Row>, w': World)
    requires RowsOwned(w.rows, w.owner) && Inserts(w, p, rows, w')
    ensures Grows(w, w') && p !in w.rows
  {
    hide At, IdsOf, Within;
  }

  lemma InsertUntouched(w: World, p: PartAt, rows: multiset<Row>, w': World, st: string)
    requires RowsOwned(w.rows, w.owner) && Inserts(w, p, rows, w') && st != w.pc.statement
    requires p.name !in At(w, p.at).discarded
    ensures Untouched(w, w', st)
  {
    hide At, IdsOf, Within, Grows, Kept, LiveRecords;
    InsertGrows(w, p, rows, w');
    InsertKept(w, p, rows, w', st);
    AtMove(w, p.at, w'.cells[p.at], w');
  }

  lemma InsertOwnStatement(w: World, p: PartAt, rows: multiset<Row>, w': World)
    requires WorldOk(w) && Inserts(w, p, rows, w')
    ensures StatementOk(w', w.pc.statement)
  {
    hide At, CellsOk, NamedOk, NamesUnique, HistoryAgrees, Recorded, Derived, ExactlyOnce, Kept, Active;
    var st := w.pc.statement;
    assert StatementOk(w, st);
    FreshName(w, p);
    InsertGrows(w, p, rows, w');
    InsertKept(w, p, rows, w', st);
    AtMove(w, p.at, w'.cells[p.at], w');
    assert IdsOf(w', st) == IdsOf(w, st);
    InsertUnaccounted(w, p, rows, w');
  }

  lemma InsertUnaccounted(w: World, p: PartAt, rows: multiset<Row>, w': World)
    requires WorldOk(w) && Inserts(w, p, rows, w')
    ensures forall q :: q in Kept(w', w.pc.statement) ==> !Accounted(w', q)
  {
    hide At, CellsOk, NamedOk, NamesUnique, HistoryAgrees, LiveRecords, IdsOf, ExactlyOnce, Kept, Active, StatementOk;
    FreshName(w, p);
    InsertGrows(w, p, rows, w');
    InsertKept(w, p, rows, w', w.pc.statement);
    AtMove(w, p.at, w'.cells[p.at], w');
  }

  lemma InsertActive(w: World, p: PartAt, rows: multiset<Row>, w': World)
    requires Inserts(w, p, rows, w')
    ensures Active(w', p.at.table) <= Active(w, p.at.table) + {p}
  {
    hide At, IdsOf, Within;
    AtMove(w, p.at, w'.cells[p.at], w');
  }

  lemma InsertLock(w: World, p: PartAt, rows: multiset<Row>, w': World)
    requires WorldOk(w) && Inserts(w, p, rows, w')
    ensures LockOk(w')
  {
    hide At, CellsOk, NamedOk, NamesUnique, HistoryAgrees, Accounted, IdsOf, ExactlyOnce, Kept, StatementOk, Active,
         Within;
    var st, table := w.pc.statement, p.at.table;
    FreshName(w, p);
    InsertGrows(w, p, rows, w');
    InsertKept(w, p, rows, w', st);
    InsertActive(w, p, rows, w');
    InsertUnaccounted(w, p, rows, w');
    forall q | q in Active(w', table) - w.pc.before ensures OwnedBy(w', q, st) {
      assert q == p || OwnedBy(w, q, st);
    }
  }

  lemma FreshName(w: World, p: PartAt)
    requires CellsOk(w) && p.name !in At(w, p.at).written
    ensures p.name !in At(w, p.at).discarded && p.name !in Recorded(At(w, p.at))
  {
    hide Publishable, Balanced, DutiesHeld, LiveRecords, PartsHaveRows, Promising;
    assert Sound(At(w, p.at));
    RecordsAreKeys(At(w, p.at).led.intakeParts);
  }

  lemma InsertKeepsWorld(w: World, p: PartAt, rows: multiset<Row>, w': World)
    requires WorldOk(w) && NextWorld(w, Insert(p, rows), w')
    ensures WorldOk(w')
  {
    hide ConvergeNext, ResolveNext, At, CellsOk, NamedOk, NamesUnique, HistoryAgrees, StatementOk, Recorded, IdsOf,
         Untouched;
    var c' :| Next(p.at, At(w, p.at), Write(p.name, rows), c') && w' == Move(w, p.at, c').(rows := w.rows[p := rows], owner := w.owner[p := w.pc.statement]);
    assert Inserts(w, p, rows, w');
    FreshName(w, p);
    MoveKeepsCells(w, p.at, Write(p.name, rows), c', w');
    InsertParts(w, p, rows, w');
    InsertGrows(w, p, rows, w');
    InsertOwnStatement(w, p, rows, w');
    InsertLock(w, p, rows, w');
    MoveNamed(w, p.at, Write(p.name, rows), c', w');
    forall st | st != w.pc.statement ensures StatementOk(w', st) {
      InsertUntouched(w, p, rows, w', st);
      UntouchedStatement(w, w', st);
    }
  }

  // ---- accounting -----------------------------------------------------------------

  /** Parts that hold each row id once share no row. */
  lemma OnceIsApart(w: World, parts: set<PartAt>, st: string, p: PartAt, q: PartAt)
    requires ExactlyOnce(w, parts, st) && p in parts && q in parts && p != q
    ensures Content(w.rows, p) !! Content(w.rows, q)
  {
    hide RowsOf, IdsOf;
    RowsOfPick(parts, w.rows, p);
    RowsOfPick(parts - {p}, w.rows, q);
    forall r | r in Content(w.rows, p) ensures r !in Content(w.rows, q) {
      assert multiset(IdsOf(w, st))[r] <= 1;
    }
  }

  lemma HistoryContent(w: World, p: PartAt)
    requires PartsOk(w) && p in w.rows
    ensures Content(At(w, p.at).written, p.name) == w.rows[p]
  {}

  lemma AccountKeepsWorld(w: World, p: PartAt, w': World)
    requires WorldOk(w) && NextWorld(w, Account(p), w')
    ensures WorldOk(w')
  {
    hide ConvergeNext, ResolveNext, At, CellsOk, NamedOk, NamesUnique, HistoryAgrees, StatementOk, Recorded, IdsOf,
         Untouched, PartHash, Add, LockOk,
      Next, Accounts;
    var c' :| Next(p.at, At(w, p.at), Record(p.name), c') && w' == Move(w, p.at, c');
    RecordAccounts(w, p, c', w');
    MoveKeepsCells(w, p.at, Record(p.name), c', w');
    AccountParts(w, p, c', w');
    AccountStatement(w, p, c', w');
    MoveNamed(w, p.at, Record(p.name), c', w');
    forall st | st != w.pc.statement ensures StatementOk(w', st) {
      AccountUntouched(w, p, c', w', st);
      UntouchedStatement(w, w', st);
    }
  }

  /** What accounting for `p` changes in its partition. */
  ghost predicate Accounts(w: World, p: PartAt, c': Cell, w': World) {
    && w' == Move(w, p.at, c')
    && var c := At(w, p.at);
    && c' == c.(led := c'.led) && Recorded(c') <= Recorded(c) + {p.name}
    && c.led.intakeParts.Keys <= c'.led.intakeParts.Keys
  }

  lemma RecordAccounts(w: World, p: PartAt, c': Cell, w': World)
    requires Next(p.at, At(w, p.at), Record(p.name), c') && w' == Move(w, p.at, c')
    ensures Accounts(w, p, c', w') && c'.discarded == At(w, p.at).discarded
  {
    hide Builds, Answers, Cleans, At, PartHash, Add;
  }

  lemma AccountParts(w: World, p: PartAt, c': Cell, w': World)
    requires PartsOk(w) && Accounts(w, p, c', w')
    ensures PartsOk(w')
  {
    hide NamesUnique, RowsOwned, InHistory, At, Recorded;
    AtMove(w, p.at, c', w');
  }

  lemma AccountKept(w: World, p: PartAt, c': Cell, w': World, st: string)
    requires Accounts(w, p, c', w')
    ensures Kept(w', st) == Kept(w, st)
  {
    hide At, Recorded;
    AtMove(w, p.at, c', w');
  }

  lemma AccountUntouched(w: World, p: PartAt, c': Cell, w': World, st: string)
    requires WorldOk(w) && w.pc.Assembling? && p in w.pc.parts && Accounts(w, p, c', w') && st != w.pc.statement
    ensures Untouched(w, w', st)
  {
    hide At, CellsOk, NamedOk, NamesUnique, HistoryAgrees, StatementOk, LiveRecords, IdsOf, ExactlyOnce, Kept;
    KeptOwned(w, w.pc.statement, p);
    AtMove(w, p.at, c', w');
    AccountKept(w, p, c', w', st);
    forall q | q in Kept(w, st) && Accounted(w', q) ensures Accounted(w, q) {
      KeptOwned(w, st, q);
    }
  }

  lemma AccountStatement(w: World, p: PartAt, c': Cell, w': World)
    requires WorldOk(w) && w.pc.Assembling? && p in w.pc.parts && Accounts(w, p, c', w')
    ensures StatementOk(w', w.pc.statement) && LockOk(w')
  {
    hide At, CellsOk, NamedOk, NamesUnique, HistoryAgrees, LiveRecords, Derived, RowsOf, Kept;
    var st := w.pc.statement;
    assert StatementOk(w, st);
    AtMove(w, p.at, c', w');
    AccountKept(w, p, c', w', st);
    assert IdsOf(w', st) == IdsOf(w, st);
  }

  // ---- crash and runs -----------------------------------------------------------------

  lemma CrashCell(w: World, w': World, k: PartitionKey)
    requires NextWorld(w, Crash, w')
    ensures At(w', k) == At(w, k).(pc := Idle) && Next(k, At(w, k), Stop, At(w', k))
  {}

  lemma CrashUntouched(w: World, w': World, st: string)
    requires PartsOk(w) && NextWorld(w, Crash, w')
    ensures Untouched(w, w', st)
  {
    hide PrepareNext, ConvergeNext, ResolveNext, Next, At, LiveRecords, NamesUnique, HistoryAgrees;
    forall k ensures At(w', k) == At(w, k).(pc := Idle) { CrashCell(w, w', k); }
    assert Kept(w', st) == Kept(w, st);
  }

  lemma CrashKeepsWorld(w: World, w': World)
    requires WorldOk(w) && NextWorld(w, Crash, w')
    ensures WorldOk(w')
  {
    hide PrepareNext, ConvergeNext, ResolveNext, Next, At, Sound, NamesUnique, RowsOwned, StatementOk,
         Untouched, InHistory;
    forall k ensures At(w', k) == At(w, k).(pc := Idle) && Sound(At(w', k)) {
      CrashCell(w, w', k);
      assert Sound(At(w, k));
      StepKeepsSound(k, At(w, k), Stop, At(w', k));
    }
    forall st ensures StatementOk(w', st) {
      CrashUntouched(w, w', st);
      UntouchedStatement(w, w', st);
    }
  }

  /** An operation that fails gives up the lock and leaves its record open. */
  lemma FailKeepsWorld(w: World, w': World)
    requires WorldOk(w) && NextWorld(w, Fail, w')
    ensures WorldOk(w')
  {
    hide PrepareNext, ConvergeNext, ResolveNext, WorldOk;
    PcKeepsWorld(w, w');
  }

  /** Every honest step keeps the intake invariant. */
  lemma StepKeepsWorld(w: World, s: IntakeStep, w': World)
    requires WorldOk(w) && NextWorld(w, s, w') && HonestWorld(w, s)
    ensures WorldOk(w')
  {
    hide WorldOk, NextWorld, HonestWorld;
    match s
    case AtPartition(k, step) => OthersKeepWorld(w, k, step, w');
    case Crash => CrashKeepsWorld(w, w');
    case Fail => FailKeepsWorld(w, w');
    case Prepare(_, _, _, _) => PrepareKeepsWorld(w, s, w');
    case Insert(p, rows) => InsertKeepsWorld(w, p, rows, w');
    case InsertReturned => InsertReturnedKeepsWorld(w, w');
    case Account(p) => AccountKeepsWorld(w, p, w');
    case SaveWritten => SaveWrittenKeepsWorld(w, w');
    case ConvergeFails(st) => ConvergeFailsKeepsWorld(w, st, w');
    case ConvergeComplete(st) => ConvergeCompleteKeepsWorld(w, st, w');
    case ConvergePartial(st) => ConvergePartialKeepsWorld(w, st, w');
    case Bind(st) => BindKeepsWorld(w, st, w');
    case Abort(st, names) => AbortKeepsWorld(w, st, names, w');
    case AbortDrop(st, p) => AbortDropKeepsWorld(w, st, p, w');
    case AbortExclude(st, p) => AbortExcludeKeepsWorld(w, st, p, w');
    case SaveCleaned(st) => SaveCleanedKeepsWorld(w, st, w');
  }

  const EmptyWorld: World := World(map[], map[], Free, map[], map[])

  /** A run of honest steps from an empty node. */
  ghost predicate HonestHistory(ws: seq<World>, steps: seq<IntakeStep>) {
    && |ws| == |steps| + 1 && ws[0] == EmptyWorld
    && forall i :: 0 <= i < |steps| ==> NextWorld(ws[i], steps[i], ws[i + 1]) && HonestWorld(ws[i], steps[i])
  }

  lemma EmptyWorldOk()
    ensures WorldOk(EmptyWorld)
  {
    hide Sound;
    FreshSound();
    forall st ensures StatementOk(EmptyWorld, st) { assert Kept(EmptyWorld, st) == {}; }
  }

  /** The intake invariant holds in every world of every honest run, crashes
      included. */
  lemma {:induction false} EveryWorldOk(ws: seq<World>, steps: seq<IntakeStep>, i: nat)
    requires HonestHistory(ws, steps) && i < |ws|
    ensures WorldOk(ws[i])
  {
    hide WorldOk, NextWorld, HonestWorld;
    if i == 0 {
      EmptyWorldOk();
    } else {
      EveryWorldOk(ws, steps, i - 1);
      StepKeepsWorld(ws[i - 1], steps[i - 1], ws[i]);
    }
  }
}
