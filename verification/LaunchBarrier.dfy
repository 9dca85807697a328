/** The launch barrier of the role's workers, under every scheduling of the
    workers, every moment of cancellation and a ready callback that may panic.
    Channels are the sets of messages in them. */
module LaunchBarrier {

  /** One worker goroutine. */
  datatype Stage = Created | Parked | Running | Posted | Exited

  /** The goroutine that calls run. */
  datatype Pc =
    | Launching                       // receiving from launched
    | Launched                        // before the first cancellation check
    | InReady
    | Deciding                        // after ready, before the second check
    | Joining(panicking: bool)        // receiving from results
    | Waiting(panicking: bool)        // on the wait group
    | Ended(panicking: bool)

  datatype State = State(
    workers: seq<Stage>,
    launched: set<nat>,               // the launched channel, by sender
    seen: set<nat>,                   // received from it
    results: set<nat>,                // the results channel, by sender
    got: set<nat>,                    // received from it
    pc: Pc,
    cancelled: bool,
    activated: bool,
    aborted: bool,
    // history
    readyCalls: nat,
    bodies: set<nat>)                 // workers whose body began

  function Start(n: nat, cancelled: bool): State {
    State(seq(n, _ => Created), {}, {}, {}, {}, Launching, cancelled, false, false, 0, {})
  }

  datatype Step =
    | Cancel
    | Launch(worker: nat)
    | Activate(worker: nat)
    | Skip(worker: nat)
    | Finish(worker: nat)
    | Exit(worker: nat)
    | ReceiveLaunched(worker: nat)
    | AllLaunched
    | FirstCheck(hasReady: bool)
    | ReadyReturns
    | ReadyPanics
    | Decide
    | ReceiveResult(worker: nat)
    | AllReceived
    | AllExited

  /** abortWorkers, when nothing was decided before. */
  function Abort(s: State): State {
    s.(cancelled := true, aborted := true)
  }

  ghost predicate Next(s: State, e: Step, s': State) {
    match e
    case Cancel => s' == s.(cancelled := true)
    case Launch(i) =>
      i < |s.workers| && s.workers[i].Created? && s' == s.(workers := s.workers[i := Parked], launched := s.launched + {i})
    case Activate(i) =>
      i < |s.workers| && s.workers[i].Parked? && s.activated && s' == s.(workers := s.workers[i := Running], bodies := s.bodies + {i})
    case Skip(i) =>
      i < |s.workers| && s.workers[i].Parked? && s.aborted && s' == s.(workers := s.workers[i := Posted], results := s.results + {i})
    case Finish(i) =>
      i < |s.workers| && s.workers[i].Running? && s' == s.(workers := s.workers[i := Posted], results := s.results + {i})
    case Exit(i) =>
      i < |s.workers| && s.workers[i].Posted? && s' == s.(workers := s.workers[i := Exited])
    case ReceiveLaunched(i) =>
      && s.pc.Launching? && |s.seen| < |s.workers| && i in s.launched
      && s' == s.(launched := s.launched - {i}, seen := s.seen + {i})
    case AllLaunched =>
      s.pc.Launching? && |s.seen| == |s.workers| && s' == s.(pc := Launched)
    case FirstCheck(hasReady) =>
      && s.pc.Launched?
      && s' == if s.cancelled then Abort(s).(pc := Joining(false))
               else if hasReady then s.(pc := InReady, readyCalls := s.readyCalls + 1)
               else s.(pc := Deciding)
    case ReadyReturns => s.pc.InReady? && s' == s.(pc := Deciding)
    case ReadyPanics => s.pc.InReady? && s' == Abort(s).(pc := Joining(true))
    case Decide =>
      s.pc.Deciding? && s' == if s.cancelled then Abort(s).(pc := Joining(false)) else s.(activated := true, pc := Joining(false))
    case ReceiveResult(i) =>
      && s.pc.Joining? && |s.got| < |s.workers| && i in s.results
      && s' == s.(results := s.results - {i}, got := s.got + {i}, cancelled := s.cancelled || s.got == {})
    case AllReceived =>
      s.pc.Joining? && |s.got| == |s.workers| && s' == s.(pc := Waiting(s.pc.panicking))
    case AllExited =>
      s.pc.Waiting? && (forall i :: 0 <= i < |s.workers| ==> s.workers[i].Exited?) && s' == s.(pc := Ended(s.pc.panicking))
  }

  // ---- the invariant ----------------------------------------------------------------------------

  predicate PastLaunch(w: Stage) {
    !w.Created?
  }

  predicate PastBody(w: Stage) {
    w.Posted? || w.Exited?
  }

  ghost function All(n: nat): (r: set<nat>)
    ensures |r| == n && forall i: nat :: i in r <==> i < n
  {
    if n == 0 then {} else All(n - 1) + {n - 1}
  }

  ghost predicate Undecided(pc: Pc) {
    pc.Launching? || pc.Launched? || pc.InReady? || pc.Deciding?
  }

  /** A message of each worker past some point is in the channel or received. */
  ghost predicate Sent(channel: set<nat>, received: set<nat>, ws: seq<Stage>, past: Stage -> bool) {
    && (forall i: nat :: i in channel ==> i < |ws| && past(ws[i]) && i !in received)
    && (forall i: nat :: i in received ==> i < |ws| && past(ws[i]))
    && (forall i: nat :: i < |ws| && past(ws[i]) ==> i in channel || i in received)
  }

  /** Each worker announces itself once and posts one result. */
  ghost predicate MessagesOk(s: State) {
    && Sent(s.launched, s.seen, s.workers, PastLaunch) && Sent(s.results, s.got, s.workers, PastBody)
    && (!s.pc.Launching? ==> s.seen == All(|s.workers|))
    && (s.pc.Waiting? || s.pc.Ended? ==> s.got == All(|s.workers|))
    && (s.pc.Ended? ==> forall i :: 0 <= i < |s.workers| ==> s.workers[i].Exited?)
  }

  /** One decision, and ready before it. */
  ghost predicate DecisionOk(s: State) {
    && !(s.activated && s.aborted) && (Undecided(s.pc) <==> !s.activated && !s.aborted)
    && s.readyCalls <= 1 && (s.pc.Launching? || s.pc.Launched? ==> s.readyCalls == 0)
    && ((s.pc.Joining? || s.pc.Waiting? || s.pc.Ended?) && s.pc.panicking ==> s.aborted)
  }

  /** Bodies begin after the decision to activate, and a worker without one has
      not posted its result. */
  ghost predicate BodiesOk(s: State) {
    && (forall i: nat :: i in s.bodies ==> i < |s.workers| && s.activated && s.workers[i] in {Running, Posted, Exited})
    && (forall i: nat :: i < |s.workers| && s.workers[i].Running? ==> i in s.bodies)
    && (s.activated ==> forall i: nat :: i < |s.workers| && PastBody(s.workers[i]) ==> i in s.bodies)
    && (Undecided(s.pc) ==> forall i: nat :: i < |s.workers| ==> s.workers[i] in {Created, Parked})
  }

  ghost predicate Inv(s: State) {
    MessagesOk(s) && DecisionOk(s) && BodiesOk(s)
  }

  lemma SmallerSet(x: set<nat>, n: nat)
    requires x <= All(n)
    ensures |x| <= n && (|x| == n ==> x == All(n))
  {
    var rest := All(n) - x;
    assert |All(n)| == |x| + |rest|;
    if |x| == n {
      assert rest == {};
      assert All(n) == x + rest;
    }
  }

  predicate ByWorker(e: Step) {
    e.Launch? || e.Activate? || e.Skip? || e.Finish? || e.Exit?
  }

  /** A worker that moves past the point sends its message. */
  lemma WorkerMoves(channel: set<nat>, received: set<nat>, ws: seq<Stage>, past: Stage -> bool, i: nat, to: Stage)
    requires Sent(channel, received, ws, past) && i < |ws| && (past(ws[i]) ==> past(to))
    ensures Sent(if past(ws[i]) || !past(to) then channel else channel + {i}, received, ws[i := to], past)
  {}

  lemma WorkerKeepsMessages(s: State, e: Step, s': State)
    requires MessagesOk(s) && Next(s, e, s') && ByWorker(e)
    ensures MessagesOk(s')
  {
    hide All, Sent;
    var i := e.worker;
    WorkerMoves(s.launched, s.seen, s.workers, PastLaunch, i, s'.workers[i]);
    WorkerMoves(s.results, s.got, s.workers, PastBody, i, s'.workers[i]);
  }

  predicate Receives(e: Step) {
    e.ReceiveLaunched? || e.ReceiveResult?
  }

  /** Receiving a message keeps it counted once. */
  lemma ReceivedOne(channel: set<nat>, received: set<nat>, ws: seq<Stage>, past: Stage -> bool, i: nat)
    requires Sent(channel, received, ws, past) && i in channel
    ensures Sent(channel - {i}, received + {i}, ws, past) && i !in received && |received + {i}| == |received| + 1
  {}

  lemma ReceiveKeepsMessages(s: State, e: Step, s': State)
    requires MessagesOk(s) && Next(s, e, s') && Receives(e)
    ensures MessagesOk(s')
  {
    hide All, Sent;
    if e.ReceiveLaunched? {
      ReceivedOne(s.launched, s.seen, s.workers, PastLaunch, e.worker);
    } else {
      ReceivedOne(s.results, s.got, s.workers, PastBody, e.worker);
    }
  }

  lemma CoordinatorKeepsMessages(s: State, e: Step, s': State)
    requires MessagesOk(s) && Next(s, e, s') && !ByWorker(e) && !Receives(e)
    ensures MessagesOk(s')
  {
    hide All;
    if e.AllLaunched? {
      SmallerSet(s.seen, |s.workers|);
    } else if e.AllReceived? {
      SmallerSet(s.got, |s.workers|);
    }
  }

  lemma StepKeepsDecision(s: State, e: Step, s': State)
    requires DecisionOk(s) && Next(s, e, s')
    ensures DecisionOk(s')
  {}

  lemma WorkerKeepsBodies(s: State, e: Step, s': State)
    requires DecisionOk(s) && BodiesOk(s) && Next(s, e, s') && ByWorker(e)
    ensures BodiesOk(s')
  {
    hide Abort;
  }

  lemma CoordinatorKeepsBodies(s: State, e: Step, s': State)
    requires DecisionOk(s) && BodiesOk(s) && Next(s, e, s') && !ByWorker(e)
    ensures BodiesOk(s')
  {
    assert s'.workers == s.workers && s'.bodies == s.bodies;
  }

  lemma StepKeepsBodies(s: State, e: Step, s': State)
    requires DecisionOk(s) && BodiesOk(s) && Next(s, e, s')
    ensures BodiesOk(s')
  {
    hide DecisionOk, BodiesOk, Next;
    if ByWorker(e) {
      WorkerKeepsBodies(s, e, s');
    } else {
      CoordinatorKeepsBodies(s, e, s');
    }
  }

  lemma StepKeepsInv(s: State, e: Step, s': State)
    requires Inv(s) && Next(s, e, s')
    ensures Inv(s')
  {
    hide MessagesOk, DecisionOk, BodiesOk, Next;
    if ByWorker(e) {
      WorkerKeepsMessages(s, e, s');
    } else if Receives(e) {
      ReceiveKeepsMessages(s, e, s');
    } else {
      CoordinatorKeepsMessages(s, e, s');
    }
    StepKeepsDecision(s, e, s');
    StepKeepsBodies(s, e, s');
  }

  // ---- progress -----------------------------------------------------------------------------------

  function StepsLeft(w: Stage): nat {
    match w
    case Created => 4
    case Parked => 3
    case Running => 2
    case Posted => 1
    case Exited => 0
  }

  function WorkLeft(ws: seq<Stage>): nat {
    if ws == [] then 0 else StepsLeft(ws[0]) + WorkLeft(ws[1..])
  }

  function CoordinationLeft(s: State): int {
    var n := |s.workers|;
    match s.pc
    case Launching => 2 * n + 6 - |s.seen|
    case Launched => n + 5
    case InReady => n + 4
    case Deciding => n + 3
    case Joining(_) => n + 2 - |s.got|
    case Waiting(_) => 1
    case Ended(_) => 0
  }

  function Rank(s: State): int {
    WorkLeft(s.workers) + CoordinationLeft(s)
  }

  lemma {:induction false} WorkMoved(ws: seq<Stage>, i: nat, to: Stage)
    requires i < |ws|
    ensures WorkLeft(ws[i := to]) == WorkLeft(ws) - StepsLeft(ws[i]) + StepsLeft(to)
  {
    if i == 0 {
      assert ws[i := to][1..] == ws[1..];
    } else {
      assert ws[i := to][1..] == ws[1..][i - 1 := to];
      WorkMoved(ws[1..], i - 1, to);
    }
  }

  lemma WorkerLowersRank(s: State, e: Step, s': State)
    requires Next(s, e, s') && ByWorker(e)
    ensures Rank(s') < Rank(s)
  {
    hide WorkLeft;
    WorkMoved(s.workers, e.worker, s'.workers[e.worker]);
  }

  lemma ReceiveLowersRank(s: State, e: Step, s': State)
    requires MessagesOk(s) && Next(s, e, s') && Receives(e)
    ensures Rank(s') < Rank(s)
  {
    hide WorkLeft, All, Sent;
    if e.ReceiveLaunched? {
      ReceivedOne(s.launched, s.seen, s.workers, PastLaunch, e.worker);
    } else {
      ReceivedOne(s.results, s.got, s.workers, PastBody, e.worker);
    }
  }

  lemma CoordinatorLowersRank(s: State, e: Step, s': State)
    requires MessagesOk(s) && Next(s, e, s') && !ByWorker(e) && !Receives(e)
    ensures if e.Cancel? then Rank(s') == Rank(s) else Rank(s') < Rank(s)
  {
    hide WorkLeft, All, Sent;
    MessagesBounded(s);
  }

  /** Every step but a cancellation uses up rank. */
  lemma StepLowersRank(s: State, e: Step, s': State)
    requires Inv(s) && Next(s, e, s')
    ensures if e.Cancel? then Rank(s') == Rank(s) else Rank(s') < Rank(s)
  {
    hide Rank, Next, MessagesOk;
    if ByWorker(e) {
      WorkerLowersRank(s, e, s');
    } else if Receives(e) {
      ReceiveLowersRank(s, e, s');
    } else {
      CoordinatorLowersRank(s, e, s');
    }
  }

  lemma MessagesBounded(s: State)
    requires MessagesOk(s)
    ensures |s.seen| <= |s.workers| && |s.got| <= |s.workers|
  {
    SmallerSet(s.seen, |s.workers|);
    SmallerSet(s.got, |s.workers|);
  }

  ghost predicate CanMove(s: State) {
    exists e, s' :: Next(s, e, s') && !e.Cancel?
  }

  lemma Moves(s: State, e: Step, s': State)
    requires Next(s, e, s') && !e.Cancel?
    ensures CanMove(s)
  {}

  lemma Missing(x: set<nat>, n: nat) returns (i: nat)
    requires x <= All(n) && |x| < n
    ensures i < n && i !in x
  {
    hide All;
    var rest := All(n) - x;
    assert All(n) == x + rest;
    assert |rest| > 0;
    i :| i in rest;
  }

  lemma LaunchedMoves(s: State)
    requires s.pc.Launching? && |s.seen| == |s.workers|
    ensures CanMove(s)
  {
    Moves(s, AllLaunched, s.(pc := Launched));
  }

  lemma WorkerCanLaunch(s: State, i: nat)
    requires MessagesOk(s) && s.pc.Launching? && |s.seen| < |s.workers| && i < |s.workers| && i !in s.seen
    ensures CanMove(s)
  {
    if s.workers[i].Created? {
      Moves(s, Launch(i), s.(workers := s.workers[i := Parked], launched := s.launched + {i}));
    } else {
      Moves(s, ReceiveLaunched(i), s.(launched := s.launched - {i}, seen := s.seen + {i}));
    }
  }

  lemma DecisionMoves(s: State)
    requires s.pc.Launched? || s.pc.InReady? || s.pc.Deciding?
    ensures CanMove(s)
  {
    if s.pc.Launched? {
      Moves(s, FirstCheck(false), if s.cancelled then Abort(s).(pc := Joining(false)) else s.(pc := Deciding));
    } else if s.pc.InReady? {
      Moves(s, ReadyReturns, s.(pc := Deciding));
    } else {
      Moves(s, Decide, if s.cancelled then Abort(s).(pc := Joining(false)) else s.(activated := true, pc := Joining(false)));
    }
  }

  lemma WorkerCanPost(s: State, i: nat)
    requires Inv(s) && s.pc.Joining? && |s.got| < |s.workers| && i < |s.workers| && i !in s.got
    ensures CanMove(s)
  {
    if PastBody(s.workers[i]) {
      Moves(s, ReceiveResult(i), s.(results := s.results - {i}, got := s.got + {i}, cancelled := s.cancelled || s.got == {}));
    } else if s.workers[i].Running? {
      Moves(s, Finish(i), s.(workers := s.workers[i := Posted], results := s.results + {i}));
    } else {
      if s.activated {
        Moves(s, Activate(i), s.(workers := s.workers[i := Running], bodies := s.bodies + {i}));
      } else {
        Moves(s, Skip(i), s.(workers := s.workers[i := Posted], results := s.results + {i}));
      }
    }
  }

  lemma EndMoves(s: State)
    requires MessagesOk(s) && (s.pc.Waiting? || (s.pc.Joining? && |s.got| == |s.workers|))
    ensures CanMove(s)
  {
    if s.pc.Joining? {
      Moves(s, AllReceived, s.(pc := Waiting(s.pc.panicking)));
    } else if i: nat :| i < |s.workers| && !s.workers[i].Exited? {
      Moves(s, Exit(i), s.(workers := s.workers[i := Exited]));
    } else {
      Moves(s, AllExited, s.(pc := Ended(s.pc.panicking)));
    }
  }

  /** Until it has ended, some goroutine can go on. */
  lemma NeverStuck(s: State)
    requires Inv(s) && !s.pc.Ended?
    ensures CanMove(s)
  {
    MessagesBounded(s);
    MessagesWithin(s);
    hide Next, CanMove;
    match s.pc {
    case Launching =>
      if |s.seen| == |s.workers| {
        LaunchedMoves(s);
      } else {
        var i := Missing(s.seen, |s.workers|);
        WorkerCanLaunch(s, i);
      }
    case Joining(p) =>
      if |s.got| == |s.workers| {
        EndMoves(s);
      } else {
        var i := Missing(s.got, |s.workers|);
        WorkerCanPost(s, i);
      }
    case Waiting(p) => EndMoves(s);
    case _ => DecisionMoves(s);
    }
  }

  lemma MessagesWithin(s: State)
    requires MessagesOk(s)
    ensures s.seen <= All(|s.workers|) && s.got <= All(|s.workers|)
  {}

  // ---- runs -----------------------------------------------------------------------------------------

  ghost predicate IsRun(n: nat, cancelled: bool, ss: seq<State>, es: seq<Step>) {
    && |ss| == |es| + 1 && ss[0] == Start(n, cancelled)
    && forall i :: 0 <= i < |es| ==> Next(ss[i], es[i], ss[i + 1])
  }

  lemma {:induction false} EveryStateOk(n: nat, cancelled: bool, ss: seq<State>, es: seq<Step>, i: nat)
    requires IsRun(n, cancelled, ss, es) && i < |ss|
    ensures Inv(ss[i]) && |ss[i].workers| == n
  {
    hide Inv;
    if i == 0 {
      StartOk(n, cancelled);
    } else {
      EveryStateOk(n, cancelled, ss, es, i - 1);
      StepKeepsInv(ss[i - 1], es[i - 1], ss[i]);
    }
  }

  lemma StartOk(n: nat, cancelled: bool)
    ensures Inv(Start(n, cancelled))
  {
    var s := Start(n, cancelled);
    assert forall i :: 0 <= i < n ==> s.workers[i].Created?;
  }

  /** In every state of every run: ready was called at most once; if it was
      called all workers had launched; while it has not returned no body has
      begun; and no body ever begins if ready panicked or the workers were
      aborted. */
  lemma ReadyComesFirst(n: nat, cancelled: bool, ss: seq<State>, es: seq<Step>, i: nat)
    requires IsRun(n, cancelled, ss, es) && i < |ss|
    ensures ss[i].readyCalls <= 1
    ensures ss[i].readyCalls == 1 ==> |ss[i].workers| == n && forall j :: 0 <= j < n ==> !ss[i].workers[j].Created?
    ensures Undecided(ss[i].pc) || ss[i].aborted ==> ss[i].bodies == {}
  {
    EveryStateOk(n, cancelled, ss, es, i);
    var s := ss[i];
    if s.readyCalls == 1 {
      forall j: nat | j < n ensures !s.workers[j].Created? {
        assert j in All(n) && PastLaunch(s.workers[j]);
      }
    }
  }

  /** A run that ended received one result from every worker, and either every
      body ran or none did. */
  lemma AllOrNone(n: nat, cancelled: bool, ss: seq<State>, es: seq<Step>, i: nat)
    requires IsRun(n, cancelled, ss, es) && i < |ss| && ss[i].pc.Ended?
    ensures ss[i].got == All(n) && ss[i].results == {}
    ensures ss[i].bodies == if ss[i].activated then All(n) else {}
    ensures ss[i].pc.panicking ==> ss[i].bodies == {}
  {
    EveryStateOk(n, cancelled, ss, es, i);
    var s := ss[i];
    forall j: nat | s.activated && j < n ensures j in s.bodies {
      assert PastBody(s.workers[j]);
    }
  }

  /** Cancelled before the decision, or aborted by it. */
  ghost predicate CalledOff(s: State) {
    s.cancelled && (Undecided(s.pc) || s.aborted)
  }

  lemma CalledOffStays(s: State, e: Step, s': State)
    requires CalledOff(s) && Next(s, e, s')
    ensures CalledOff(s') && (!s.pc.InReady? ==> !s'.pc.InReady? && s'.readyCalls == s.readyCalls)
  {}

  /** A cancellation before the decision is honoured in every later state: no body
      ever begins, and ready is not called if it was not called before. */
  lemma {:induction false} CancelledInTime(n: nat, cancelled: bool, ss: seq<State>, es: seq<Step>, i: nat, j: nat)
    requires IsRun(n, cancelled, ss, es) && i <= j < |ss| && ss[i].cancelled && Undecided(ss[i].pc)
    ensures CalledOff(ss[j]) && ss[j].bodies == {}
    ensures !ss[i].pc.InReady? ==> !ss[j].pc.InReady? && ss[j].readyCalls == ss[i].readyCalls
    decreases j
  {
    hide Next, Inv;
    if i < j {
      CancelledInTime(n, cancelled, ss, es, i, j - 1);
      CalledOffStays(ss[j - 1], es[j - 1], ss[j]);
    }
    ReadyComesFirst(n, cancelled, ss, es, j);
  }

  lemma DecidesToRun(s: State, s': State)
    requires Next(s, Decide, s') && !s.cancelled
    ensures s'.activated
  {}

  lemma ActivatedStays(s: State, e: Step, s': State)
    requires s.activated && Next(s, e, s')
    ensures s'.activated
  {}

  /** Without a cancellation by then the decision is to run: every body has run
      when the run ends. */
  lemma {:induction false} UncancelledRuns(n: nat, cancelled: bool, ss: seq<State>, es: seq<Step>, i: nat, j: nat)
    requires IsRun(n, cancelled, ss, es) && i < j < |ss| && es[i].Decide? && !ss[i].cancelled
    ensures ss[j].activated && (ss[j].pc.Ended? ==> ss[j].bodies == All(n))
    decreases j
  {
    hide Next, Inv;
    if j == i + 1 {
      DecidesToRun(ss[i], ss[j]);
    } else {
      UncancelledRuns(n, cancelled, ss, es, i, j - 1);
      ActivatedStays(ss[j - 1], es[j - 1], ss[j]);
    }
    if ss[j].pc.Ended? { AllOrNone(n, cancelled, ss, es, j); }
  }

  ghost function Moved(es: seq<Step>): nat {
    if es == [] then 0 else Moved(es[..|es| - 1]) + if es[|es| - 1].Cancel? then 0 else 1
  }

  lemma {:induction false} RankPaysForMoves(n: nat, cancelled: bool, ss: seq<State>, es: seq<Step>)
    requires IsRun(n, cancelled, ss, es)
    ensures Moved(es) + Rank(ss[|es|]) <= Rank(Start(n, cancelled))
    decreases |es|
  {
    hide Next;
    if es != [] {
      var k := |es| - 1;
      RankPaysForMoves(n, cancelled, ss[..|es|], es[..k]);
      EveryStateOk(n, cancelled, ss, es, k);
      StepLowersRank(ss[k], es[k], ss[|es|]);
    }
  }

  lemma {:induction false} WorkAtStart(n: nat)
    ensures WorkLeft(seq(n, _ => Created)) == 4 * n
  {
    if n > 0 {
      WorkAtStart(n - 1);
      assert seq(n, _ => Created)[1..] == seq(n - 1, _ => Created);
    }
  }

  /** Every run ends: it makes at most 6n + 6 moves besides cancellations, and
      as long as it has not ended a move is possible. */
  lemma EveryRunEnds(n: nat, cancelled: bool, ss: seq<State>, es: seq<Step>)
    requires IsRun(n, cancelled, ss, es)
    ensures Moved(es) <= 6 * n + 6
    ensures ss[|es|].pc.Ended? || CanMove(ss[|es|])
  {
    hide Next, CanMove, Inv;
    RankPaysForMoves(n, cancelled, ss, es);
    WorkAtStart(n);
    EveryStateOk(n, cancelled, ss, es, |es|);
    if !ss[|es|].pc.Ended? { NeverStuck(ss[|es|]); }
    RankNonNegative(ss[|es|]);
  }

  lemma RankNonNegative(s: State)
    requires Inv(s)
    ensures Rank(s) >= 0
  {
    MessagesBounded(s);
  }
}
