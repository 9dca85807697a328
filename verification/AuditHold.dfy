/** Which tables the owner audit holds back, and for how long. */
module AuditHold {
  import opened Ledger
  import opened Options
  import opened AuditReference

  /** What decides whether a table is held. */
  datatype Hold = Hold(pendingAll: bool, pending: set<string>, findings: set<PartitionKey>)

  ghost predicate Blocks(h: Hold, table: string) {
    h.pendingAll || table in h.pending || exists k :: k in h.findings && k.table == table
  }

  function Begun(h: Hold, tables: set<string>): Hold {
    h.(pendingAll := false, pending := tables)
  }

  function Forgot(h: Hold, table: string): Hold {
    h.(pending := h.pending - {table}, findings := set k | k in h.findings && k.table != table)
  }

  datatype Trigger = Startup | ByPromotion | ClickHouseRestart

  datatype Finding = Finding(at: PartitionKey, reason: Reason, parts: seq<string>, trigger: Trigger)

  class OwnerAuditState {
    var pendingAll: bool
    var trigger: Trigger
    var pending: set<string>
    var findings: map<PartitionKey, Finding>
    var restarts: nat

    ghost function Value(): Hold
      reads this
    {
      Hold(pendingAll, pending, findings.Keys)
    }

    constructor (due: bool)
      ensures Value() == Hold(due, {}, {}) && trigger == Startup && restarts == 0
    {
      pendingAll, trigger, pending, findings, restarts := due, Startup, {}, map[], 0;
    }

    method IsHeld(table: string) returns (held: bool)
      ensures held <==> Blocks(Value(), table)
    {
      if pendingAll || table in pending {
        return true;
      }
      var left := findings.Keys;
      while left != {}
        invariant left <= findings.Keys
        invariant forall k :: k in findings.Keys - left ==> k.table != table
        decreases |left|
      {
        var k :| k in left;
        if k.table == table {
          return true;
        }
        left := left - {k};
      }
      return false;
    }

    method Restarted()
      modifies this
      ensures Value() == old(Value()).(pendingAll := true)
      ensures trigger == ClickHouseRestart && restarts == old(restarts) + 1 && findings == old(findings)
    {
      restarts := restarts + 1;
      pendingAll, trigger := true, ClickHouseRestart;
    }

    method Begin(tables: seq<string>) returns (why: Trigger)
      modifies this`pendingAll, this`pending
      ensures Value() == Begun(old(Value()), set t | t in tables)
      ensures why == trigger
    {
      pendingAll := false;
      pending := {};
      for i := 0 to |tables|
        invariant pending == (set t | t in tables[..i])
        invariant !pendingAll
      {
        assert tables[..i + 1] == tables[..i] + [tables[i]];
        pending := pending + {tables[i]};
      }
      assert tables[..|tables|] == tables;
      return trigger;
    }

    method TableDone(table: string)
      modifies this`pending
      ensures Value() == old(Value()).(pending := old(pending) - {table})
    {
      pending := pending - {table};
    }

    method IsDue() returns (due: bool)
      ensures due <==> pendingAll || pending != {}
    {
      return pendingAll || |pending| > 0;
    }

    /** Reports whether the finding differs from the one it replaces. */
    method Set(f: Finding) returns (changed: bool)
      modifies this`findings
      ensures Value() == old(Value()).(findings := old(Value()).findings + {f.at})
      ensures findings == old(findings)[f.at := f]
      ensures !changed <==> f.at in old(findings) && old(findings)[f.at] == f.(at := old(findings)[f.at].at)
    {
      changed := f.at !in findings || findings[f.at].reason != f.reason || findings[f.at].trigger != f.trigger
                 || findings[f.at].parts != f.parts;
      findings := findings[f.at := f];
    }

    method Clear(k: PartitionKey)
      modifies this`findings
      ensures Value() == old(Value()).(findings := old(Value()).findings - {k})
      ensures findings == old(findings) - {k}
    {
      findings := findings - {k};
    }

    method ForgetTable(table: string)
      modifies this`pending, this`findings
      ensures Value() == Forgot(old(Value()), table)
      ensures forall k :: k in findings ==> findings[k] == old(findings)[k]
    {
      pending := pending - {table};
      var left := findings.Keys;
      while left != {}
        invariant left <= findings.Keys <= old(findings.Keys)
        invariant forall k :: k in old(findings) && k !in findings ==> k.table == table
        invariant forall k :: k in findings.Keys - left ==> k.table != table
        invariant forall k :: k in findings ==> findings[k] == old(findings)[k]
        invariant pending == old(pending) - {table}
        decreases |left|
      {
        var k :| k in left;
        left := left - {k};
        if k.table == table {
          findings := findings - {k};
        }
      }
    }
  }

  // ---- passes, restarts and audits, interleaved -----------------------------------------

  /** The hold, and the pass that holds auditPassMu: `returned` is the table
      whose audit came back without error and is not yet marked done. */
  datatype Auditor = Auditor(hold: Hold, running: bool, returned: Option<string>)

  datatype Event =
    | Restart
    | BeginPass(tables: set<string>)
    | AuditReturns(table: string, ok: bool)
    | MarkDone(table: string)
    | EndPass                                // all tables visited, or cancelled
    | FindingSet(at: PartitionKey)           // by this pass, a promotion or a re-audit
    | FindingCleared(at: PartitionKey)
    | TableForgotten(table: string)

  ghost predicate Follows(a: Auditor, e: Event, a': Auditor) {
    match e
    case Restart => a' == a.(hold := a.hold.(pendingAll := true))
    case BeginPass(tables) => !a.running && a' == Auditor(Begun(a.hold, tables), true, None)
    case AuditReturns(t, ok) => a.running && a.returned.None? && a' == a.(returned := if ok then Some(t) else None)
    case MarkDone(t) => a.running && a.returned == Some(t) && a' == a.(hold := a.hold.(pending := a.hold.pending - {t}), returned := None)
    case EndPass => a.running && a' == a.(running := false, returned := None)
    case FindingSet(k) => a' == a.(hold := a.hold.(findings := a.hold.findings + {k}))
    case FindingCleared(k) => a' == a.(hold := a.hold.(findings := a.hold.findings - {k}))
    case TableForgotten(t) => a' == a.(hold := Forgot(a.hold, t))
  }

  const AtStart: Auditor := Auditor(Hold(true, {}, {}), false, None)

  ghost predicate IsHistory(states: seq<Auditor>, es: seq<Event>) {
    && |states| == |es| + 1 && states[0] == AtStart
    && forall i :: 0 <= i < |es| ==> Follows(states[i], es[i], states[i + 1])
  }

  /** After the first `n` events a pass is due: the last restart, or the start,
      came after the last pass began. */
  predicate PassDue(es: seq<Event>, n: nat)
    requires n <= |es|
  {
    n == 0 || es[n - 1].Restart? || (!es[n - 1].BeginPass? && PassDue(es, n - 1))
  }

  lemma {:induction false} DueIsPendingAll(states: seq<Auditor>, es: seq<Event>, n: nat)
    requires IsHistory(states, es) && n < |states|
    ensures states[n].hold.pendingAll <==> PassDue(es, n)
    ensures states[n].returned.Some? ==> states[n].running
  {
    if n > 0 {
      DueIsPendingAll(states, es, n - 1);
      assert Follows(states[n - 1], es[n - 1], states[n]);
    }
  }

  /** An audit of `t` came back without error from a pass that began after the
      last restart before it. */
  predicate AuditedAfresh(es: seq<Event>, n: nat, t: string)
    requires n < |es|
  {
    es[n] == AuditReturns(t, true) && !PassDue(es, n)
  }

  lemma {:induction false} StaysPending(states: seq<Auditor>, es: seq<Event>, i: nat, m: nat, t: string)
    requires IsHistory(states, es) && i <= m < |states| && PassDue(es, i)
    requires forall n :: i <= n < m && es[n].BeginPass? ==> t in es[n].tables
    requires forall n :: i <= n < m ==> !AuditedAfresh(es, n, t) && es[n] != TableForgotten(t)
    ensures states[m].hold.pendingAll || (t in states[m].hold.pending && states[m].returned != Some(t))
  {
    DueIsPendingAll(states, es, m);
    if m > i {
      assert Follows(states[m - 1], es[m - 1], states[m]);
      StaysPending(states, es, i, m - 1, t);
      DueIsPendingAll(states, es, m - 1);
    }
  }

  /** From any moment a pass is due, at the start or once ClickHouse restarted, a
      table that every later pass covers is held in every state until an audit
      of it, by a pass begun since the last restart, came back without error (or
      the table itself was forgotten). */
  lemma HeldUntilAuditedAfresh(states: seq<Auditor>, es: seq<Event>, i: nat, m: nat, t: string)
    requires IsHistory(states, es) && i <= m < |states| && PassDue(es, i)
    requires forall n :: i <= n < m && es[n].BeginPass? ==> t in es[n].tables
    requires forall n :: i <= n < m ==> !AuditedAfresh(es, n, t) && es[n] != TableForgotten(t)
    ensures Blocks(states[m].hold, t)
  {
    StaysPending(states, es, i, m, t);
  }

  /** While a restart's pass has not begun, every table is held. */
  lemma RestartHoldsAll(states: seq<Auditor>, es: seq<Event>, m: nat, t: string)
    requires IsHistory(states, es) && m < |states| && PassDue(es, m)
    ensures Blocks(states[m].hold, t)
  {
    DueIsPendingAll(states, es, m);
  }

  /** After event `i` set a finding, only clearing that finding or forgetting
      its table ends the hold it causes. */
  lemma {:induction false} FindingHolds(states: seq<Auditor>, es: seq<Event>, i: nat, m: nat, k: PartitionKey)
    requires IsHistory(states, es) && i < m < |states| && es[i] == FindingSet(k)
    requires forall n :: i < n < m ==> es[n] != FindingCleared(k) && es[n] != TableForgotten(k.table)
    ensures k in states[m].hold.findings && Blocks(states[m].hold, k.table)
  {
    assert Follows(states[m - 1], es[m - 1], states[m]);
    if m > i + 1 { FindingHolds(states, es, i, m - 1, k); }
  }

  /** Marking a table done frees it exactly when no pass became due meanwhile
      and none of its partitions has a finding. */
  lemma DoneFreesUnlessDueOrFound(states: seq<Auditor>, es: seq<Event>, n: nat)
    requires IsHistory(states, es) && n < |es| && es[n].MarkDone?
    ensures !Blocks(states[n + 1].hold, es[n].table) <==>
      !PassDue(es, n) && forall k :: k in states[n].hold.findings ==> k.table != es[n].table
  {
    assert Follows(states[n], es[n], states[n + 1]);
    DueIsPendingAll(states, es, n);
  }

  /** A forgotten table is held only by a pass that is due. */
  lemma ForgottenIsFree(states: seq<Auditor>, es: seq<Event>, n: nat)
    requires IsHistory(states, es) && n < |es| && es[n].TableForgotten?
    ensures Blocks(states[n + 1].hold, es[n].table) <==> PassDue(es, n)
    ensures forall t :: t != es[n].table ==> (Blocks(states[n + 1].hold, t) <==> Blocks(states[n].hold, t))
  {
    assert Follows(states[n], es[n], states[n + 1]);
    DueIsPendingAll(states, es, n);
    forall t | t != es[n].table ensures Blocks(states[n + 1].hold, t) <==> Blocks(states[n].hold, t) {
      if k :| k in states[n].hold.findings && k.table == t { assert k in states[n + 1].hold.findings; }
    }
  }
}
