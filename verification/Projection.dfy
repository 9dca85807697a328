/** What one partition goes through in a run of the whole node is an honest run
    of the partition, so what is proved of its runs holds on the node: exactly
    when the unpromoted sum is conserved, and exactly when the whole purge gate
    opens over an unaccepted cleanup. */
module Projection {
  import opened Ledger
  import opened Options
  import opened Keys
  import opened StateStore
  import opened PartSums
  import opened Partition
  import opened Books
  import opened ReadSurface
  import opened PurgeGate
  import opened Intake
  import opened IntakeProof
  import opened IntakeSteps
  import opened IntakeWrites
  import opened TableGate

  /** The step a partition takes in a step of the node, if any. */
  function StepAt(s: IntakeStep, k: PartitionKey): Option<Step> {
    match s
    case AtPartition(k', step) => if k' == k then Some(step) else None
    case Crash => Some(Stop)
    case Insert(p, inserted) => if p.at == k then Some(Write(p.name, inserted)) else None
    case Account(p) => if p.at == k then Some(Record(p.name)) else None
    case AbortDrop(_, p) => if p.at == k then Some(Discard(p.name)) else None
    case AbortExclude(_, p) => if p.at == k then Some(Exclude(p.name)) else None
    case _ => None
  }

  function StepsAt(steps: seq<IntakeStep>, k: PartitionKey): seq<Step> {
    if steps == [] then []
    else
      var last := |steps| - 1;
      StepsAt(steps[..last], k) + (if StepAt(steps[last], k).Some? then [StepAt(steps[last], k).value] else [])
  }

  ghost predicate Projects(w: World, s: IntakeStep, w': World, k: PartitionKey) {
    var step := StepAt(s, k);
    if step.None? then At(w', k) == At(w, k)
    else Next(k, At(w, k), step.value, At(w', k)) && Honest(At(w, k), step.value)
  }

  lemma MoveProjects(w: World, k': PartitionKey, s: Step, c': Cell, w': World, k: PartitionKey)
    requires Next(k', At(w, k'), s, c') && Honest(At(w, k'), s) && w'.cells == w.cells[k' := c']
    ensures if k' == k then Next(k, At(w, k), s, At(w', k)) && Honest(At(w, k), s) else At(w', k) == At(w, k)
  {
    hide Next, Honest, At;
    AtMove(w, k', c', w');
  }

  lemma OthersProject(w: World, k': PartitionKey, s: Step, w': World, k: PartitionKey)
    requires NextWorld(w, AtPartition(k', s), w') && HonestWorld(w, AtPartition(k', s))
    ensures Projects(w, AtPartition(k', s), w', k)
  {
    hide PrepareNext, ConvergeNext, ResolveNext, Next, Honest, At;
    var c' :| Next(k', At(w, k'), s, c') && w' == Move(w, k', c');
    MoveProjects(w, k', s, c', w', k);
  }

  lemma PrepareProjects(w: World, s: IntakeStep, w': World, k: PartitionKey)
    requires NextWorld(w, s, w') && (s.Insert? || s.Account?)
    ensures Projects(w, s, w', k)
  {
    hide ConvergeNext, ResolveNext, Next, At, Active, IdsOf;
    if s.Insert? {
      var c' :| Next(s.p.at, At(w, s.p.at), Write(s.p.name, s.inserted), c')
        && w' == Move(w, s.p.at, c').(rows := w.rows[s.p := s.inserted], owner := w.owner[s.p := w.pc.statement]);
      MoveProjects(w, s.p.at, Write(s.p.name, s.inserted), c', w', k);
    } else {
      var c' :| Next(s.p.at, At(w, s.p.at), Record(s.p.name), c') && w' == Move(w, s.p.at, c');
      MoveProjects(w, s.p.at, Record(s.p.name), c', w', k);
    }
  }

  lemma AbortProjects(w: World, s: IntakeStep, w': World, k: PartitionKey)
    requires WorldOk(w) && NextWorld(w, s, w') && (s.AbortDrop? || s.AbortExclude?)
    ensures Projects(w, s, w', k)
  {
    hide WorldOk, PrepareNext, ConvergeNext, Next, At, Active, Aborting;
    if s.AbortDrop? {
      var c' :| Next(s.p.at, At(w, s.p.at), Discard(s.p.name), c') && w' == Move(w, s.p.at, c');
      MoveProjects(w, s.p.at, Discard(s.p.name), c', w', k);
    } else {
      var c' :| Next(s.p.at, At(w, s.p.at), Exclude(s.p.name), c') && w' == Move(w, s.p.at, c');
      AbortedIsRecorded(w, s.statement, s.p);
      MoveProjects(w, s.p.at, Exclude(s.p.name), c', w', k);
    }
  }

  lemma OtherStepsProject(w: World, s: IntakeStep, w': World, k: PartitionKey)
    requires NextWorld(w, s, w') && !s.AtPartition? && !s.Crash? && !s.Insert? && !s.Account? && !s.AbortDrop? && !s.AbortExclude?
    ensures Projects(w, s, w', k)
  {
    hide Next, Honest, Active, IdsOf, RowsOf, Aborting, Attributed;
    assert w'.cells == w.cells;
  }

  lemma StepProjects(w: World, s: IntakeStep, w': World, k: PartitionKey)
    requires WorldOk(w) && NextWorld(w, s, w') && HonestWorld(w, s)
    ensures Projects(w, s, w', k)
  {
    hide WorldOk, NextWorld, HonestWorld, Projects, Next, At;
    match s
    case AtPartition(k', step) => OthersProject(w, k', step, w', k);
    case Crash => CrashProjects(w, w', k);
    case Insert(_, _) => PrepareProjects(w, s, w', k);
    case Account(_) => PrepareProjects(w, s, w', k);
    case AbortDrop(_, _) => AbortProjects(w, s, w', k);
    case AbortExclude(_, _) => AbortProjects(w, s, w', k);
    case _ => OtherStepsProject(w, s, w', k);
  }

  lemma CrashProjects(w: World, w': World, k: PartitionKey)
    requires NextWorld(w, Crash, w')
    ensures Projects(w, Crash, w', k)
  {
    hide NextWorld, Next, At;
    CrashCell(w, w', k);
  }

  /** The partition's share of a run of the node is an honest run of it. */
  lemma {:induction false} HistoryProjects(ws: seq<World>, steps: seq<IntakeStep>, i: nat, k: PartitionKey) returns (cells: seq<Cell>)
    requires HonestHistory(ws, steps) && i < |ws|
    ensures HonestRun(k, cells, StepsAt(steps[..i], k)) && cells[|StepsAt(steps[..i], k)|] == At(ws[i], k)
  {
    hide WorldOk, NextWorld, HonestWorld, Next, Honest, HonestRun;
    if i == 0 {
      cells := [Fresh];
      NoSteps(k);
    } else {
      cells := HistoryProjects(ws, steps, i - 1, k);
      EveryWorldOk(ws, steps, i - 1);
      StepProjects(ws[i - 1], steps[i - 1], ws[i], k);
      assert steps[..i][..i - 1] == steps[..i - 1];
      RunSize(k, cells, StepsAt(steps[..i - 1], k));
      var step := StepAt(steps[i - 1], k);
      if step.Some? {
        HonestRunGrows(k, cells, StepsAt(steps[..i - 1], k), step.value, At(ws[i], k));
        cells := cells + [At(ws[i], k)];
      } else {
        assert StepsAt(steps[..i], k) == StepsAt(steps[..i - 1], k);
      }
    }
  }

  lemma RunSize(k: PartitionKey, cells: seq<Cell>, steps: seq<Step>)
    requires HonestRun(k, cells, steps)
    ensures |cells| == |steps| + 1
  {}

  // ---- conservation on the node ---------------------------------------------------------

  /** An abort takes the part back, or a rejected-part cleanup that names it
      executes. */
  predicate TakesOut(s: IntakeStep, p: PartAt) {
    (s.AbortExclude? && s.p == p) || (s.AtPartition? && s.at == p.at && Removes(s.step, p.name))
  }

  lemma {:induction false} TakenOutOnNode(steps: seq<IntakeStep>, p: PartAt)
    ensures TakenOut(StepsAt(steps, p.at), p.name) ==> exists s :: s in steps && TakesOut(s, p)
    ensures (exists s :: s in steps && TakesOut(s, p)) ==> TakenOut(StepsAt(steps, p.at), p.name)
  {
    if steps != [] {
      var last, rest := steps[|steps| - 1], steps[..|steps| - 1];
      TakenOutOnNode(rest, p);
      assert steps == rest + [last];
      assert TakesOut(last, p) <==> StepAt(last, p.at).Some? && Removes(StepAt(last, p.at).value, p.name);
      assert TakenOut(StepsAt(steps, p.at), p.name) <==>
        TakenOut(StepsAt(rest, p.at), p.name) || (StepAt(last, p.at).Some? && Removes(StepAt(last, p.at).value, p.name)) by {
        TakenOutMore(StepsAt(rest, p.at), StepAt(last, p.at), p.name);
      }
    }
  }

  lemma TakenOutMore(steps: seq<Step>, more: Option<Step>, n: string)
    ensures TakenOut(steps + (if more.Some? then [more.value] else []), n) <==>
      TakenOut(steps, n) || (more.Some? && Removes(more.value, n))
  {
    hide Removes;
    if more.Some? {
      var all := steps + [more.value];
      assert more.value in all && forall s :: s in steps ==> s in all;
    } else {
      assert steps + [] == steps;
    }
  }

  /** In every world of every honest run the unpromoted sum of a partition is the
      root of its unpromoted parts exactly when no part of it was both promoted
      and taken out by an abort or a rejected-part cleanup. */
  lemma ConservedExactlyUnlessCrossed(ws: seq<World>, steps: seq<IntakeStep>, i: nat, k: PartitionKey)
    requires HonestHistory(ws, steps) && i < |ws|
    ensures Conserved(At(ws[i], k)) <==>
      forall n, s :: n in At(ws[i], k).applied && s in steps[..i] ==> !TakesOut(s, PartAt(k, n))
  {
    hide WorldOk, NextWorld, HonestWorld, Sound, Conserved, At, TakenOut, TakesOut, HonestRun, TakenBack, StepsAt;
    var c := At(ws[i], k);
    var cells := HistoryProjects(ws, steps, i, k);
    RunSize(k, cells, StepsAt(steps[..i], k));
    EveryHonestRunSound(k, cells, StepsAt(steps[..i], k), |cells| - 1);
    ConservedExactly(c);
    assert StepsAt(steps[..i], k)[..|cells| - 1] == StepsAt(steps[..i], k);
    forall n | n in c.applied ensures n in TakenBack(c.led.intakeParts) <==> exists s :: s in steps[..i] && TakesOut(s, PartAt(k, n)) {
      RemovedExactlyWhenTakenOut(k, cells, StepsAt(steps[..i], k), |cells| - 1, n);
      TakenOutOnNode(steps[..i], PartAt(k, n));
    }
    assert Overlap(c) == {} <==> forall n :: n in c.applied ==> n !in TakenBack(c.led.intakeParts) by {
      assert forall n :: n in Overlap(c) <==> n in c.applied && n in TakenBack(c.led.intakeParts);
    }
  }

  // ---- the whole gate ---------------------------------------------------------------------

  /** The whole gate, records included, opens over an unaccepted cleanup only if
      the cleanup was overtaken or a promoted part was taken out; and where that
      cleanup is all that is left to do in the table, exactly if it was
      overtaken. */
  lemma WholeGateExactly(ws: seq<World>, steps: seq<IntakeStep>, i: nat, s: LocalState, k: PartitionKey, id: CleanupId)
    requires HonestHistory(ws, steps) && i < |ws| && Mirrors(s, ws[i]) && Plain(k) && OpenCleanup(At(ws[i], k), id)
    ensures GateOpen(s, ws[i], k.table) ==> Overtaken(StepsAt(steps[..i], k), At(ws[i], k), id) || !Conserved(At(ws[i], k))
    ensures OnlyCleanup(At(ws[i], k), id) && Conserved(At(ws[i], k)) && NoneUnfinished(ws[i], k.table)
            && (forall k' :: Plain(k') && k' != k && k'.table == k.table ==> Quiescent(EntryOf(s, k'))) ==>
      (GateOpen(s, ws[i], k.table) <==> Overtaken(StepsAt(steps[..i], k), At(ws[i], k), id))
  {
    hide WorldOk, NextWorld, HonestWorld, Sound, Conserved, At, HonestRun, Overtaken, EntryOf, Quiescent, NoneUnfinished, Plain, Crossed, StepsAt,
         LiveRecords;
    var all := StepsAt(steps[..i], k);
    var cells := HistoryProjects(ws, steps, i, k);
    RunSize(k, cells, all);
    assert all[..|all|] == all;
    ConservedExactlyUntilCrossed(k, cells, all, |all|);
    OpenCleanupShutsGate(k, cells, all, |all|, s, id);
    if OnlyCleanup(At(ws[i], k), id) {
      GateOpensExactlyWhenOvertaken(k, cells, all, |all|, id);
    }
  }
}
