/** Replay through memos shared by concurrent calls and closable runs: the
    answers are the executor's, and a closed run leaves nothing behind. A call
    is two steps, its lookup and its return, each under the run's lock. */
module MemoRuns {
  import opened Options
  import opened Memo

  datatype Outcome = Ok(result: string) | Fail(error: string)

  /** What a caller gets: an outcome, or its context's error. */
  datatype Answer = Answered(outcome: Outcome) | Cancelled

  /** The executor and the encodings, which the memo treats as given. */
  datatype Env = Env(
    exec: string -> Outcome, digest: string -> string,
    encode: string -> Option<string>, decode: string -> Option<string>)

  /** Digests do not collide and a result survives its encoding. */
  ghost predicate Sound(env: Env) {
    && (forall a, b :: env.digest(a) == env.digest(b) ==> a == b)
    && (forall r :: env.encode(r).Some? ==> env.decode(env.encode(r).value) == Some(r))
  }

  datatype Run = Run(closed: bool, owner: Option<nat>)

  datatype Call = Call(memo: nat, run: nat, request: string)

  datatype Runtime = Runtime(memos: map<nat, Table>, runs: map<nat, Run>, flying: multiset<Call>)

  const Started: Runtime := Runtime(map[], map[], multiset{})

  datatype Event =
    | OpenMemo(memo: nat)
    | OpenRun(run: nat)
    | Lookup(call: Call, checks: nat)     // how many of the step's context checks
    | Return(call: Call, checks: nat)     // find the context not cancelled
    | CloseRun(run: nat)
    | ForgetRun(run: nat)

  function KeyOf(env: Env, call: Call): Key {
    Key(call.run, env.digest(call.request))
  }

  ghost function DropRun(rt: Runtime, run: nat): map<nat, Table>
    requires run in rt.runs
  {
    var owner := rt.runs[run].owner;
    if owner.Some? && owner.value in rt.memos then rt.memos[owner.value := RemoveRunSpec(rt.memos[owner.value], run)] else rt.memos
  }

  ghost predicate Usable(rt: Runtime, call: Call)
    requires call.run in rt.runs
  {
    !rt.runs[call.run].closed && rt.runs[call.run].owner in {None, Some(call.memo)}
  }

  /** A call's lookup, and its answer if it gets one. */
  ghost predicate LooksUp(env: Env, rt: Runtime, call: Call, checks: nat, rt': Runtime, answer: Option<Answer>) {
    && call.memo in rt.memos && call.run in rt.runs
    && if checks == 0 then rt' == rt && answer == Some(Cancelled)
       else if !Usable(rt, call) then rt' == rt && answer == Some(Answered(env.exec(call.request)))
       else
         var runs := rt.runs[call.run := rt.runs[call.run].(owner := Some(call.memo))];
         var t, k := rt.memos[call.memo], KeyOf(env, call);
         if k !in t.entries then
           rt' == rt.(runs := runs, flying := rt.flying + multiset{call}) && answer.None?
         else
           var memos := rt.memos[call.memo := MoveToFront(t, k)];
           var decoded := env.decode(t.entries[k].value);
           if decoded.Some? then
             && rt' == rt.(runs := runs, memos := memos)
             && answer == Some(if checks > 1 then Answered(Ok(decoded.value)) else Cancelled)
           else rt' == rt.(runs := runs, memos := memos, flying := rt.flying + multiset{call}) && answer.None?
  }

  /** The return of a call that reached the executor. */
  ghost predicate Returns(env: Env, rt: Runtime, call: Call, checks: nat, rt': Runtime, answer: Option<Answer>) {
    && call in rt.flying && call.memo in rt.memos && call.run in rt.runs
    && var done := rt.(flying := rt.flying - multiset{call});
    && var o := env.exec(call.request);
    && if o.Fail? then rt' == done && answer == Some(Answered(o))
       else if checks == 0 then rt' == done && answer == Some(Cancelled)
       else if env.encode(o.result).None? || env.decode(env.encode(o.result).value).None? then
         rt' == done && answer == Some(Answered(o))
       else
         && answer == Some(if checks > 2 then Answered(Ok(env.decode(env.encode(o.result).value).value)) else Cancelled)
         && rt' == if checks > 1 && !rt.runs[call.run].closed
                   then done.(memos := rt.memos[call.memo := PutSpec(rt.memos[call.memo], KeyOf(env, call), env.encode(o.result).value)])
                   else done
  }

  /** One step, with the answer a caller gets from it, if any. */
  ghost predicate Steps(env: Env, rt: Runtime, e: Event, rt': Runtime, answer: Option<Answer>) {
    match e
    case OpenMemo(m) => m !in rt.memos && rt' == rt.(memos := rt.memos[m := EmptyTable]) && answer.None?
    case OpenRun(r) => r !in rt.runs && rt' == rt.(runs := rt.runs[r := Run(false, None)]) && answer.None?
    case Lookup(call, checks) => LooksUp(env, rt, call, checks, rt', answer)
    case Return(call, checks) => Returns(env, rt, call, checks, rt', answer)
    case CloseRun(r) =>
      r in rt.runs && rt' == rt.(memos := DropRun(rt, r), runs := rt.runs[r := rt.runs[r].(closed := true)]) && answer.None?
    case ForgetRun(r) =>
      r in rt.runs && rt' == rt.(memos := DropRun(rt, r)) && answer.None?
  }

  // ---- the invariant ------------------------------------------------------------------------------

  /** The entry holds the encoded answer of the executor to the request its key
      stands for. */
  ghost predicate Truthful(env: Env, k: Key, v: Cached) {
    exists q :: env.digest(q) == k.digest && env.exec(q).Ok? && env.encode(env.exec(q).result) == Some(v.value)
  }

  ghost predicate TableOk(env: Env, rt: Runtime, m: nat, t: Table) {
    && Valid(t)
    && forall k :: k in t.entries ==>
      && Truthful(env, k, t.entries[k])
      && k.run in rt.runs && !rt.runs[k.run].closed && rt.runs[k.run].owner == Some(m)
  }

  ghost predicate Inv(env: Env, rt: Runtime) {
    && (forall m :: m in rt.memos ==> TableOk(env, rt, m, rt.memos[m]))
    && (forall c :: c in rt.flying ==> c.run in rt.runs && rt.runs[c.run].owner == Some(c.memo))
  }

  lemma MoveKeepsTable(env: Env, rt: Runtime, m: nat, t: Table, k: Key)
    requires TableOk(env, rt, m, t) && k in t.entries
    ensures TableOk(env, rt, m, MoveToFront(t, k))
  {
    MoveKeepsValid(t, k);
  }

  lemma PutKeepsTable(env: Env, rt: Runtime, m: nat, t: Table, k: Key, value: string)
    requires TableOk(env, rt, m, t) && Truthful(env, k, Cached(value, |value| + ENTRY_OVERHEAD))
    requires k.run in rt.runs && !rt.runs[k.run].closed && rt.runs[k.run].owner == Some(m)
    ensures TableOk(env, rt, m, PutSpec(t, k, value))
  {
    hide Valid, Truthful, EvictFor;
    PutKeepsValid(t, k, value);
    if |value| <= MEMO_BYTES - ENTRY_OVERHEAD && k !in t.entries {
      EvictKeepsRecent(t, |value| + ENTRY_OVERHEAD);
    }
  }

  lemma RemoveRunKeepsTable(env: Env, rt: Runtime, rt': Runtime, m: nat, t: Table, r: nat)
    requires TableOk(env, rt, m, t)
    requires forall x :: x in rt.runs && x != r ==> x in rt'.runs && rt'.runs[x] == rt.runs[x]
    ensures TableOk(env, rt', m, RemoveRunSpec(t, r)) && forall k :: k in RemoveRunSpec(t, r).entries ==> k.run != r
  {
    hide Truthful;
    RemoveRunKeepsValid(t, r);
  }

  lemma RemoveRunKeepsValid(t: Table, r: nat)
    requires Valid(t)
    ensures Valid(RemoveRunSpec(t, r))
  {
    hide Except, TotalCost, NoRepeats;
    var gone := OfRun(t, r);
    var rest := Except(t.lru, gone);
    ExceptNoRepeats(t.lru, gone);
    forall k ensures k in rest <==> k in t.lru && k !in gone { ExceptMembers(t.lru, gone, k); }
    CostFrame(rest, t.entries, t.entries - gone);
    CostExceptLess(t.lru, gone, t.entries);
  }

  lemma {:induction false} CostExceptLess(lru: seq<Key>, gone: set<Key>, entries: map<Key, Cached>)
    ensures TotalCost(Except(lru, gone), entries) <= TotalCost(lru, entries)
  {
    if lru != [] {
      var h, rest := lru[0], lru[1..];
      assert lru == [h] + rest;
      CostExceptLess(rest, gone, entries);
      CostConcat([h], rest, entries);
      CostConcat([h], Except(rest, gone), entries);
    }
  }

  // ---- the steps ------------------------------------------------------------------------------------

  lemma LookupKeepsInv(env: Env, rt: Runtime, call: Call, checks: nat, rt': Runtime, answer: Option<Answer>)
    requires Inv(env, rt) && Steps(env, rt, Lookup(call, checks), rt', answer)
    ensures Inv(env, rt')
  {
    hide DropRun, PutSpec, RemoveRunSpec, Valid, Truthful, MoveToFront;
    if checks > 0 && Usable(rt, call) {
      var t, k := rt.memos[call.memo], KeyOf(env, call);
      var moved := if k in t.entries then MoveToFront(t, k) else t;
      if k in t.entries { MoveKeepsTable(env, rt, call.memo, t, k); }
      forall m | m in rt'.memos ensures TableOk(env, rt', m, rt'.memos[m]) {
        OwnerKnown(env, rt, rt', m, if m == call.memo then moved else rt.memos[m], call);
      }
    }
  }

  /** Recording the owner of a usable run changes no table's standing. */
  lemma OwnerKnown(env: Env, rt: Runtime, rt': Runtime, m: nat, t: Table, call: Call)
    requires TableOk(env, rt, m, t) && call.run in rt.runs && Usable(rt, call)
    requires rt'.runs == rt.runs[call.run := rt.runs[call.run].(owner := Some(call.memo))]
    ensures TableOk(env, rt', m, t)
  {
    hide Valid, Truthful;
  }

  lemma ReturnKeepsInv(env: Env, rt: Runtime, call: Call, checks: nat, rt': Runtime, answer: Option<Answer>)
    requires Sound(env) && Inv(env, rt) && Steps(env, rt, Return(call, checks), rt', answer)
    ensures Inv(env, rt')
  {
    hide Valid, PutSpec, LooksUp, DropRun;
    var o := env.exec(call.request);
    if o.Ok? && env.encode(o.result).Some? && checks > 1 && !rt.runs[call.run].closed {
      var value := env.encode(o.result).value;
      assert Truthful(env, KeyOf(env, call), Cached(value, |value| + ENTRY_OVERHEAD));
      PutKeepsTable(env, rt, call.memo, rt.memos[call.memo], KeyOf(env, call), value);
    }
  }

  lemma DropKeepsInv(env: Env, rt: Runtime, r: nat, e: Event, rt': Runtime, answer: Option<Answer>)
    requires Inv(env, rt) && Steps(env, rt, e, rt', answer) && (e == CloseRun(r) || e == ForgetRun(r))
    ensures Inv(env, rt')
  {
    hide Valid, Truthful, RemoveRunSpec;
    forall m | m in rt'.memos ensures TableOk(env, rt', m, rt'.memos[m]) {
      if rt.runs[r].owner == Some(m) {
        RemoveRunKeepsTable(env, rt, rt', m, rt.memos[m], r);
      }
    }
  }

  lemma OpenKeepsInv(env: Env, rt: Runtime, e: Event, rt': Runtime, answer: Option<Answer>)
    requires Inv(env, rt) && Steps(env, rt, e, rt', answer) && (e.OpenMemo? || e.OpenRun?)
    ensures Inv(env, rt')
  {
    hide Truthful, Valid, LooksUp, Returns, DropRun;
    EmptyIsValid();
  }

  lemma EmptyIsValid()
    ensures Valid(EmptyTable)
  {}

  lemma StepKeepsInv(env: Env, rt: Runtime, e: Event, rt': Runtime, answer: Option<Answer>)
    requires Sound(env) && Inv(env, rt) && Steps(env, rt, e, rt', answer)
    ensures Inv(env, rt')
  {
    hide Inv, Steps;
    match e
    case OpenMemo(m) => OpenKeepsInv(env, rt, e, rt', answer);
    case OpenRun(r) => OpenKeepsInv(env, rt, e, rt', answer);
    case Lookup(call, checks) => LookupKeepsInv(env, rt, call, checks, rt', answer);
    case Return(call, checks) => ReturnKeepsInv(env, rt, call, checks, rt', answer);
    case CloseRun(r) => DropKeepsInv(env, rt, r, e, rt', answer);
    case ForgetRun(r) => DropKeepsInv(env, rt, r, e, rt', answer);
  }

  ghost predicate IsRun(env: Env, rts: seq<Runtime>, es: seq<Event>, answers: seq<Option<Answer>>) {
    && |rts| == |es| + 1 && |answers| == |es| && rts[0] == Started
    && forall i :: 0 <= i < |es| ==> Steps(env, rts[i], es[i], rts[i + 1], answers[i])
  }

  lemma {:induction false} EveryRuntimeOk(env: Env, rts: seq<Runtime>, es: seq<Event>, answers: seq<Option<Answer>>, i: nat)
    requires Sound(env) && IsRun(env, rts, es, answers) && i < |rts|
    ensures Inv(env, rts[i])
  {
    hide Steps, Inv;
    if i == 0 {
      assert Inv(env, Started) by { StartedOk(env); }
    } else {
      EveryRuntimeOk(env, rts, es, answers, i - 1);
      StepKeepsInv(env, rts[i - 1], es[i - 1], rts[i], answers[i - 1]);
    }
  }

  lemma StartedOk(env: Env)
    ensures Inv(env, Started)
  {}

  // ---- main results -----------------------------------------------------------------------------------

  /** Whatever the interleaving, a call is answered with what the executor
      answers to its request, or with its context's error, and with that only if
      the context was cancelled before the step's last check. */
  lemma AnswersAreTheExecutors(env: Env, rts: seq<Runtime>, es: seq<Event>, answers: seq<Option<Answer>>, i: nat)
    requires Sound(env) && IsRun(env, rts, es, answers) && i < |es| && answers[i].Some?
    ensures es[i].Lookup? || es[i].Return?
    ensures answers[i].value in {Answered(env.exec(es[i].call.request)), Cancelled}
    ensures answers[i].value.Cancelled? ==> es[i].checks < if es[i].Lookup? then 2 else 3
  {
    hide Valid;
    EveryRuntimeOk(env, rts, es, answers, i);
    assert Steps(env, rts[i], es[i], rts[i + 1], answers[i]);
    if es[i].Lookup? && es[i].checks > 1 && Usable(rts[i], es[i].call) {
      var t, k := rts[i].memos[es[i].call.memo], KeyOf(env, es[i].call);
      assert TableOk(env, rts[i], es[i].call.memo, t);
      assert Truthful(env, k, t.entries[k]);
      var q :| env.digest(q) == k.digest && env.exec(q).Ok? && env.encode(env.exec(q).result) == Some(t.entries[k].value);
    }
  }

  lemma ClosedStaysClosed(env: Env, rt: Runtime, e: Event, rt': Runtime, answer: Option<Answer>, r: nat)
    requires Steps(env, rt, e, rt', answer) && r in rt.runs && rt.runs[r].closed
    ensures r in rt'.runs && rt'.runs[r].closed
  {
    hide PutSpec, RemoveRunSpec, MoveToFront;
  }

  lemma ClosedHasNoEntries(env: Env, rt: Runtime, r: nat)
    requires Inv(env, rt) && r in rt.runs && rt.runs[r].closed
    ensures forall m, k :: m in rt.memos && k in rt.memos[m].entries ==> k.run != r
  {
    hide Valid, Truthful;
  }

  /** Once a run is closed it stays closed, and no memo holds or ever again
      stores an entry of it. */
  lemma {:induction false} ClosedRunIsGone(env: Env, rts: seq<Runtime>, es: seq<Event>, answers: seq<Option<Answer>>, i: nat, j: nat, r: nat)
    requires Sound(env) && IsRun(env, rts, es, answers) && i <= j < |rts| && r in rts[i].runs && rts[i].runs[r].closed
    ensures r in rts[j].runs && rts[j].runs[r].closed
    ensures forall m, k :: m in rts[j].memos && k in rts[j].memos[m].entries ==> k.run != r
    decreases j
  {
    hide Inv, Steps;
    EveryRuntimeOk(env, rts, es, answers, j);
    if j > i {
      ClosedRunIsGone(env, rts, es, answers, i, j - 1, r);
      ClosedStaysClosed(env, rts[j - 1], es[j - 1], rts[j], answers[j - 1], r);
    }
    ClosedHasNoEntries(env, rts[j], r);
  }

  // ---- the memo answers ---------------------------------------------------------------------------------

  /** The executor's answer to the request can be stored. */
  ghost predicate Storable(env: Env, request: string) {
    && env.exec(request).Ok? && env.encode(env.exec(request).result).Some?
    && env.decode(env.encode(env.exec(request).result).value).Some?
    && |env.encode(env.exec(request).result).value| <= MEMO_BYTES - ENTRY_OVERHEAD
  }

  ghost predicate Holds(env: Env, rt: Runtime, call: Call) {
    && call.memo in rt.memos && KeyOf(env, call) in rt.memos[call.memo].entries
    && call.run in rt.runs && !rt.runs[call.run].closed && rt.runs[call.run].owner == Some(call.memo)
  }

  /** A call that returns to an open run with a storable answer stores it. */
  lemma ReturnStores(env: Env, rt: Runtime, call: Call, checks: nat, rt': Runtime, answer: Option<Answer>)
    requires Inv(env, rt) && Steps(env, rt, Return(call, checks), rt', answer)
    requires checks > 1 && !rt.runs[call.run].closed && Storable(env, call.request)
    ensures Holds(env, rt', call)
  {
    hide PutSpec, Truthful, Valid, LooksUp, DropRun, FullBeyond, Fronted;
    var value := env.encode(env.exec(call.request).result).value;
    assert TableOk(env, rt, call.memo, rt.memos[call.memo]);
    PutStores(rt.memos[call.memo], KeyOf(env, call), value);
  }

  /** A request whose answer is held is answered by the memo: the executor is not
      reached. */
  lemma HeldIsAnswered(env: Env, rt: Runtime, call: Call, checks: nat, rt': Runtime, answer: Option<Answer>)
    requires Sound(env) && Inv(env, rt) && Holds(env, rt, call) && Steps(env, rt, Lookup(call, checks), rt', answer) && checks > 1
    ensures answer == Some(Answered(env.exec(call.request))) && rt'.flying == rt.flying && Holds(env, rt', call)
  {
    hide Valid;
    var t, k := rt.memos[call.memo], KeyOf(env, call);
    assert TableOk(env, rt, call.memo, t) && Truthful(env, k, t.entries[k]);
    var q :| env.digest(q) == k.digest && env.exec(q).Ok? && env.encode(env.exec(q).result) == Some(t.entries[k].value);
  }

  /** The event may take the answer away: another answer is stored in the memo, or
      the run is closed or forgotten. */
  predicate MayEvict(e: Event, call: Call) {
    || (e.Return? && e.call.memo == call.memo)
    || (e.CloseRun? && e.run == call.run) || (e.ForgetRun? && e.run == call.run)
  }

  lemma HeldStays(env: Env, rt: Runtime, e: Event, rt': Runtime, answer: Option<Answer>, call: Call)
    requires Holds(env, rt, call) && Steps(env, rt, e, rt', answer) && !MayEvict(e, call)
    ensures Holds(env, rt', call)
  {
    hide PutSpec, Except, LooksUp, Returns, DropRun;
    match e
    case Lookup(c, checks) => LookupHolds(env, rt, c, checks, rt', answer, call);
    case Return(c, checks) => ReturnHolds(env, rt, c, checks, rt', answer, call);
    case CloseRun(r) => DropHolds(env, rt, r, call);
    case ForgetRun(r) => DropHolds(env, rt, r, call);
    case _ =>
  }

  lemma LookupHolds(env: Env, rt: Runtime, c: Call, checks: nat, rt': Runtime, answer: Option<Answer>, call: Call)
    requires Holds(env, rt, call) && LooksUp(env, rt, c, checks, rt', answer)
    ensures Holds(env, rt', call)
  {
    hide Except;
  }

  lemma ReturnHolds(env: Env, rt: Runtime, c: Call, checks: nat, rt': Runtime, answer: Option<Answer>, call: Call)
    requires Holds(env, rt, call) && Returns(env, rt, c, checks, rt', answer) && c.memo != call.memo
    ensures Holds(env, rt', call)
  {
    hide PutSpec;
  }

  lemma DropHolds(env: Env, rt: Runtime, r: nat, call: Call)
    requires Holds(env, rt, call) && r in rt.runs && r != call.run
    ensures call.memo in DropRun(rt, r) && KeyOf(env, call) in DropRun(rt, r)[call.memo].entries
  {
    hide Except, TotalCost;
  }

  /** From the return of a call on, until something may evict its answer, every
      call of the same request is answered without the executor. */
  lemma {:induction false} SecondCallHits(env: Env, rts: seq<Runtime>, es: seq<Event>, answers: seq<Option<Answer>>, i: nat, j: nat)
    requires Sound(env) && IsRun(env, rts, es, answers) && i < j < |es|
    requires es[i].Return? && es[i].checks > 1 && es[i].call.run in rts[i].runs && !rts[i].runs[es[i].call.run].closed
    requires Storable(env, es[i].call.request)
    requires forall n :: i < n < j ==> !MayEvict(es[n], es[i].call)
    requires es[j].Lookup? && es[j].call == es[i].call && es[j].checks > 1
    ensures answers[j] == Some(Answered(env.exec(es[i].call.request))) && rts[j + 1].flying == rts[j].flying
  {
    hide Steps, Inv, Holds, Storable;
    var call := es[i].call;
    EveryRuntimeOk(env, rts, es, answers, i);
    ReturnStores(env, rts[i], call, es[i].checks, rts[i + 1], answers[i]);
    for n := i + 1 to j
      invariant Holds(env, rts[n], call)
    {
      HeldStays(env, rts[n], es[n], rts[n + 1], answers[n], call);
    }
    EveryRuntimeOk(env, rts, es, answers, j);
    HeldIsAnswered(env, rts[j], call, es[j].checks, rts[j + 1], answers[j]);
  }
}
