/** A statement from its preparation to its readers: written, claimed, bound and
    seen once. */
module ServedClaim {
  import opened LtHash
  import opened Ledger
  import opened PartSums
  import opened Partition
  import opened Publication
  import opened Books
  import opened Intake
  import opened IntakeProof
  import opened IntakeTheorems
  import opened IntakeProgress

  ghost function Bound(w: World, st: string): World
    requires st in w.journal
  {
    w.(journal := w.journal[st := w.journal[st].(lifecycle := RCBound)])
  }

  lemma CanBind(w: World, st: string)
    requires w.pc.Free? && Claimed(w, st)
    ensures HonestNext(w, Bind(st), Bound(w, st))
  {
    hide PrepareNext, ConvergeNext, Next, At, Active;
  }

  lemma SavedPart(w: World, st: string, p: PartAt, touched: set<string>, count: nat)
    requires Writable(w, st, p)
    ensures var c := At(Saved(w, st, p, touched, count), p.at);
      p.name in c.written && p.name !in c.discarded && c.led.intent == At(w, p.at).led.intent
  {
    hide Active, PartHash, Add, Derived, WorldOk;
    NameIsNew(w, st, p);
    NewIsKept(w, p);
  }

  lemma NewIsKept(w: World, p: PartAt)
    requires WorldOk(w) && p.name !in At(w, p.at).written
    ensures p.name !in At(w, p.at).discarded
  {
    hide PartsOk, LockOk, NamedOk, StatementOk, Publishable, Balanced, DutiesHeld, PartsHaveRows, Marked, Promising;
    assert Sound(At(w, p.at));
  }

  lemma BoundIs(w: World, st: string, k: PartitionKey)
    requires Claimed(w, st)
    ensures var w' := Bound(w, st);
      && Claimed(w', st) && w'.journal[st].lifecycle.RCBound? && w'.journal[st].result == w.journal[st].result
      && At(w', k) == At(w, k) && w'.rows == w.rows && IdsOf(w', st) == IdsOf(w, st)
  {
    hide Derived;
  }

  /** Six honest steps write a new statement, save its claim and bind it; between
      promotions a reader then sees each of its rows once, exactly unless a
      promoted part of an aborted attempt echoes the row. */
  lemma StatementIsServed(w: World, st: string, p: PartAt, touched: set<string>, count: nat) returns (done: World)
    requires Writable(w, st, p) && p.at.partition in touched && count > 0
    ensures WorldPath(w, done, 6) && WorldOk(done) && done.pc.Free? && st in done.journal && done.journal[st].lifecycle.RCBound?
    ensures IdsOf(done, st) == Derived(p.at.table, st, count)
    ensures At(w, p.at).led.intent.None? ==>
      forall r :: r in Derived(p.at.table, st, count) ==> (Surface(done, p.at)[r] == 1 <==> !Echoed(done, r, p, p.at))
  {
    hide WorldOk, WorldPath, Saved, HonestNext, Writable, At, Surface, Echoed, Derived, NextWorld, HonestWorld;
    var saved := StatementCompletes(w, st, p, touched, count);
    SavedPart(w, st, p, touched, count);
    done := Bound(saved, st);
    BoundIs(saved, st, p.at);
    CanBind(saved, st);
    WorldGoes(w, saved, 5, Bind(st), done);
    WorldPathOk(w, done, 6) by { WritableIsOk(w, st, p); }
    if At(w, p.at).led.intent.None? {
      forall r | r in Derived(p.at.table, st, count) ensures Surface(done, p.at)[r] == 1 <==> !Echoed(done, r, p, p.at) {
        assert HeldBy(done, st, r, p);
        ReadersSeeOnce(done, st, r, p, p.at);
      }
    }
  }

  lemma WritableIsOk(w: World, st: string, p: PartAt)
    requires Writable(w, st, p)
    ensures WorldOk(w)
  {}
}
