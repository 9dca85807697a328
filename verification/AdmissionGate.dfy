/** No intake behind the purge gate. Preparing a statement checks the registry
    once, then saves its record, all under the intake lock; judging a table
    quiescent takes the same lock; the registry moves at any time. */
module AdmissionGate {
  import I = Intake

  /** One table's registry status, which only moves forward; a name that is
      gone can come back as a new incarnation. */
  datatype Phase = Pending | Active | Retiring | Purging | Gone

  function Rank(p: Phase): nat {
    match p
    case Pending => 0
    case Active => 1
    case Retiring => 2
    case Purging => 3
    case Gone => 4
  }

  datatype Record = Record(lifecycle: I.Lifecycle, table: string)

  /** What the holder of the intake lock has established. */
  datatype Stage = Entered | MaySave | Saved

  datatype Holder = Free | Held(statement: string, table: string, stage: Stage)

  datatype State = State(registry: map<string, Phase>, journal: map<string, Record>, lock: Holder)

  const Start: State := State(map[], map[], Free)

  function PhaseOf(s: State, table: string): Phase {
    if table in s.registry then s.registry[table] else Gone
  }

  /** Work the purge gate waits for. */
  predicate Open(l: I.Lifecycle) {
    l.Preparing? || l.AbortPending? || l.UnsafeWritten?
  }

  /** Everything but a bound claim and a cleaned statement. */
  lemma OpenMeans(l: I.Lifecycle)
    ensures Open(l) <==> !l.RCBound? && !l.Cleaned?
  {}

  /** No record, or a cleaned one: a fresh admission. */
  predicate FreshFor(s: State, statement: string) {
    statement in s.journal ==> s.journal[statement].lifecycle.Cleaned?
  }

  datatype Event =
    | Advance(table: string, phase: Phase)      // the registry accepts a new version
    | Reincarnate(table: string)
    | Enter(statement: string, table: string)
    | Admit                                   // requireAdmissible passed
    | Converge(to: I.Lifecycle)               // of the record the prepare found
    | Save                                    // the Preparing record
    | Finish                                  // the record becomes UnsafeWritten
    | Leave                                   // returns or fails
    | Crash
    | Move(statement: string, to: I.Lifecycle) // a claim, an abort or a startup convergence
    | Judge(table: string)                     // tableQuiescent answered true

  /** A change of an existing record that is not a new preparation. */
  predicate Proceeds(from: I.Lifecycle, to: I.Lifecycle) {
    I.ValidTransition(from, to) && !(from.Cleaned? && to.Preparing?)
  }

  ghost predicate Next(s: State, e: Event, s': State) {
    match e
    case Advance(t, to) => t in s.registry && Rank(s.registry[t]) < Rank(to) && s' == s.(registry := s.registry[t := to])
    case Reincarnate(t) => PhaseOf(s, t).Gone? && s' == s.(registry := s.registry[t := Pending])
    case Enter(st, t) =>
      s.lock.Free? && (st in s.journal ==> s.journal[st].table == t) && s' == s.(lock := Held(st, t, Entered))
    case Admit =>
      && s.lock.Held? && s.lock.stage.Entered? && FreshFor(s, s.lock.statement) && PhaseOf(s, s.lock.table).Active?
      && s' == s.(lock := s.lock.(stage := MaySave))
    case Converge(to) =>
      && s.lock.Held? && s.lock.stage.Entered? && s.lock.statement in s.journal
      && var rec := s.journal[s.lock.statement];
      && (rec.lifecycle.Preparing? || rec.lifecycle.AbortPending?) && Proceeds(rec.lifecycle, to)
      && s' == s.(journal := s.journal[s.lock.statement := rec.(lifecycle := to)],
                  lock := s.lock.(stage := if to.Cleaned? then MaySave else Entered))
    case Save =>
      && s.lock.Held? && s.lock.stage.MaySave? && FreshFor(s, s.lock.statement)
      && s' == s.(journal := s.journal[s.lock.statement := Record(I.Preparing, s.lock.table)], lock := s.lock.(stage := Saved))
    case Finish =>
      && s.lock.Held? && s.lock.stage.Saved? && s.lock.statement in s.journal && s.journal[s.lock.statement].lifecycle.Preparing?
      && s' == s.(journal := s.journal[s.lock.statement := s.journal[s.lock.statement].(lifecycle := I.UnsafeWritten)])
    case Leave => s.lock.Held? && s' == s.(lock := Free)
    case Crash => s' == s.(lock := Free)
    case Move(st, to) =>
      && s.lock.Free? && st in s.journal && Proceeds(s.journal[st].lifecycle, to)
      && s' == s.(journal := s.journal[st := s.journal[st].(lifecycle := to)])
    case Judge(t) =>
      && s.lock.Free? && Rank(PhaseOf(s, t)) > Rank(Active) && NoneOpen(s, t)
      && s' == s
  }

  ghost predicate NoneOpen(s: State, table: string) {
    forall st :: st in s.journal && s.journal[st].table == table ==> !Open(s.journal[st].lifecycle)
  }

  /** The holder's statement and the journal name the same table. */
  ghost predicate LockAgrees(s: State) {
    s.lock.Held? && s.lock.statement in s.journal ==> s.journal[s.lock.statement].table == s.lock.table
  }

  /** Nothing of the table is open, and the holder cannot open anything. */
  ghost predicate Shut(s: State, table: string) {
    NoneOpen(s, table) && (s.lock.Held? && s.lock.table == table ==> s.lock.stage.Entered?)
  }

  lemma StepKeepsLock(s: State, e: Event, s': State)
    requires LockAgrees(s) && Next(s, e, s')
    ensures LockAgrees(s')
  {}

  /** Every step keeps a table shut unless it is Active when admitted. */
  lemma StepKeepsShut(s: State, e: Event, s': State, t: string)
    requires LockAgrees(s) && Shut(s, t) && !PhaseOf(s, t).Active? && Next(s, e, s')
    ensures Shut(s', t)
  {}

  ghost predicate IsRun(ss: seq<State>, es: seq<Event>) {
    && |ss| == |es| + 1 && ss[0] == Start
    && forall i :: 0 <= i < |es| ==> Next(ss[i], es[i], ss[i + 1])
  }

  lemma {:induction false} LockAlwaysAgrees(ss: seq<State>, es: seq<Event>, i: nat)
    requires IsRun(ss, es) && i < |ss|
    ensures LockAgrees(ss[i])
  {
    if i > 0 {
      LockAlwaysAgrees(ss, es, i - 1);
      StepKeepsLock(ss[i - 1], es[i - 1], ss[i]);
    }
  }

  /** Once a table past Active was judged quiescent, whatever prepares, crashes
      and registry versions follow, it has no open intake record until a state
      in which an incarnation of it is Active again. */
  lemma {:induction false} NoIntakeBehindGate(ss: seq<State>, es: seq<Event>, i: nat, j: nat, t: string)
    requires IsRun(ss, es) && i < j < |ss| && es[i] == Judge(t)
    requires forall n :: i < n < j ==> !PhaseOf(ss[n], t).Active?
    ensures Shut(ss[j], t)
  {
    LockAlwaysAgrees(ss, es, j - 1);
    assert Next(ss[j - 1], es[j - 1], ss[j]);
    if j > i + 1 {
      NoIntakeBehindGate(ss, es, i, j - 1, t);
      StepKeepsShut(ss[j - 1], es[j - 1], ss[j], t);
    }
  }

  /** The status moves forward, so only a new incarnation ends the guarantee:
      without one the table stays past Active. */
  lemma {:induction false} PastActiveStays(ss: seq<State>, es: seq<Event>, i: nat, j: nat, t: string)
    requires IsRun(ss, es) && i <= j < |ss| && Rank(PhaseOf(ss[i], t)) > Rank(Active)
    requires forall n :: i <= n < j ==> es[n] != Reincarnate(t)
    ensures Rank(PhaseOf(ss[j], t)) > Rank(Active)
    decreases j
  {
    if i < j {
      PastActiveStays(ss, es, i, j - 1, t);
      assert Next(ss[j - 1], es[j - 1], ss[j]);
    }
  }

  /** The gate as it is used: judged once, a table without a new incarnation
      never has an open record again. */
  lemma GateStaysShut(ss: seq<State>, es: seq<Event>, i: nat, j: nat, t: string)
    requires IsRun(ss, es) && i < j < |ss| && es[i] == Judge(t)
    requires forall n :: i <= n < j ==> es[n] != Reincarnate(t)
    ensures NoneOpen(ss[j], t)
  {
    assert Next(ss[i], es[i], ss[i + 1]);
    forall n | i < n < j ensures !PhaseOf(ss[n], t).Active? {
      PastActiveStays(ss, es, i, n, t);
    }
    NoIntakeBehindGate(ss, es, i, j, t);
  }

  /** Some run from the start ends in `s`. */
  ghost predicate Reachable(s: State) {
    exists ss, es :: IsRun(ss, es) && ss[|es|] == s
  }

  lemma ReachesNext(s: State, e: Event, s': State)
    requires Reachable(s) && Next(s, e, s')
    ensures Reachable(s')
  {
    hide Next;
    var ss, es :| IsRun(ss, es) && ss[|es|] == s;
    assert IsRun(ss + [s'], es + [e]);
  }

  lemma StartIsReachable()
    ensures Reachable(Start)
  {
    assert IsRun([Start], []);
  }

  /** A statement left Preparing by a crash, its table retiring since. */
  lemma LeftOpen(st: string, t: string) returns (s: State)
    ensures Reachable(s) && s == State(map[t := Retiring], map[st := Record(I.Preparing, t)], Free)
  {
    hide Reachable, IsRun;
    var active, preparing := map[t := Active], map[st := Record(I.Preparing, t)];
    StartIsReachable();
    ReachesNext(Start, Reincarnate(t), State(map[t := Pending], map[], Free));
    ReachesNext(State(map[t := Pending], map[], Free), Advance(t, Active), State(active, map[], Free));
    ReachesNext(State(active, map[], Free), Enter(st, t), State(active, map[], Held(st, t, Entered)));
    ReachesNext(State(active, map[], Held(st, t, Entered)), Admit, State(active, map[], Held(st, t, MaySave)));
    ReachesNext(State(active, map[], Held(st, t, MaySave)), Save, State(active, preparing, Held(st, t, Saved)));
    ReachesNext(State(active, preparing, Held(st, t, Saved)), Crash, State(active, preparing, Free));
    s := State(map[t := Retiring], preparing, Free);
    ReachesNext(State(active, preparing, Free), Advance(t, Retiring), s);
  }

  /** Judging is needed: a prepare that finds an unfinished record, converges
      it to Cleaned and goes on does not read the registry again, so a table
      that left Active can still get a new Preparing record. */
  lemma UncheckedPrepare(st: string, t: string) returns (s: State, s': State)
    ensures Reachable(s) && Next(s, Save, s') && PhaseOf(s, t).Retiring?
    ensures st in s'.journal && s'.journal[st] == Record(I.Preparing, t) && s'.journal != s.journal
  {
    hide Reachable, IsRun;
    var retiring := map[t := Retiring];
    var aborting, cleaned := map[st := Record(I.AbortPending, t)], map[st := Record(I.Cleaned, t)];
    var left := LeftOpen(st, t);
    ReachesNext(left, Enter(st, t), left.(lock := Held(st, t, Entered)));
    ReachesNext(left.(lock := Held(st, t, Entered)), Converge(I.AbortPending), State(retiring, aborting, Held(st, t, Entered)));
    s := State(retiring, cleaned, Held(st, t, MaySave));
    ReachesNext(State(retiring, aborting, Held(st, t, Entered)), Converge(I.Cleaned), s);
    s' := State(retiring, left.journal, Held(st, t, Saved));
  }
}
