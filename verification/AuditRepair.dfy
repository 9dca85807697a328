/** The audit's repair: what it may drop, what it leaves, and that it stops. */
module AuditRepair {
  import opened Options
  import opened Sorting
  import opened AuditReference
  import opened AuditPlan

  ghost function PartSet(parts: seq<AuditPart>): set<AuditPart> {
    set p | p in parts
  }

  ghost function HashSet(parts: seq<AuditPart>): set<string> {
    set p | p in parts :: p.physHash
  }

  /** No two active parts share a name, so DROP PART names one of them. */
  ghost predicate DistinctNames(parts: seq<AuditPart>) {
    forall i, j :: 0 <= i < j < |parts| ==> parts[i].name != parts[j].name
  }

  lemma {:induction false} OfKindMembers(parts: seq<AuditPart>, active: seq<AuditPart>, ref: seq<AuditPart>, kind: Kind, n: string)
    ensures n in OfKind(parts, active, ref, kind) <==> exists p :: p in parts && p.name == n && KindOf(active, ref, p) == kind
  {
    hide KindOf;
    if parts != [] { OfKindMembers(parts[1..], active, ref, kind, n); }
  }

  lemma SortMembers(s: seq<string>, n: string)
    ensures n in Sort(s, StringLe) <==> n in s
    ensures Sort(s, StringLe) == [] <==> s == []
  {
    assert n in Sort(s, StringLe) <==> n in multiset(Sort(s, StringLe));
    assert n in s <==> n in multiset(s);
    if s != [] { assert s[0] in multiset(Sort(s, StringLe)); }
    if Sort(s, StringLe) != [] { assert Sort(s, StringLe)[0] in multiset(s); }
  }

  lemma {:induction false} NoneOfKind(parts: seq<AuditPart>, active: seq<AuditPart>, ref: seq<AuditPart>, kind: Kind)
    ensures OfKind(parts, active, ref, kind) == [] <==> forall p :: p in parts ==> KindOf(active, ref, p) != kind
  {
    hide KindOf;
    if parts != [] { NoneOfKind(parts[1..], active, ref, kind); }
  }

  lemma {:induction false} NoneMissing(ref: seq<AuditPart>, active: seq<AuditPart>)
    ensures Missing(ref, active) == [] <==> forall p :: p in ref ==> p in active
  {
    if ref != [] { NoneMissing(ref[1..], active); }
  }

  /** What each list of the verdict being empty says about the partition. */
  lemma EmptyLists(active: seq<AuditPart>, ref: seq<AuditPart>)
    ensures OfKind(active, active, ref, Stranger) == [] <==> forall p :: p in active ==> HasKept(active, ref, p.physHash)
    ensures OfKind(active, active, ref, Twin) == [] <==> forall p :: p in active && HasKept(active, ref, p.physHash) ==> p in ref
    ensures Missing(ref, active) == [] <==> forall p :: p in ref ==> p in active
  {
    hide OfKind, Missing;
    forall p | p in active && p in ref ensures HasKept(active, ref, p.physHash) {}
    NoneOfKind(active, active, ref, Stranger);
    NoneOfKind(active, active, ref, Twin);
    NoneMissing(ref, active);
  }

  /** A partition is judged clean exactly when its active parts are the
      reference's, name and hash. */
  lemma CleanIffReference(ref: Reference, active: seq<AuditPart>)
    ensures Verdict(Some(ref), active).reason.None? <==> PartSet(active) == PartSet(ref.parts)
  {
    hide OfKind, Missing, Sort;
    EmptyLists(active, ref.parts);
    SortMembers(OfKind(active, active, ref.parts, Stranger), "");
    SortMembers(OfKind(active, active, ref.parts, Twin), "");
    SortMembers(Missing(ref.parts, active), "");
    if PartSet(active) == PartSet(ref.parts) {
      forall p ensures p in active <==> p in ref.parts {
        assert p in active <==> p in PartSet(active);
        assert p in ref.parts <==> p in PartSet(ref.parts);
      }
    }
  }

  // ---- what each verdict says ---------------------------------------------------------

  /** Some active reference part has the same file as `p`. */
  ghost predicate Backed(active: seq<AuditPart>, ref: seq<AuditPart>, p: AuditPart) {
    exists q :: q in active && q in ref && q.physHash == p.physHash
  }

  /** Every part the reference lists is active, every active part is backed by
      one of them, and something more is active than the reference lists. */
  ghost predicate Repairable(active: seq<AuditPart>, ref: seq<AuditPart>) {
    && (forall p :: p in ref ==> p in active)
    && (forall p :: p in active ==> Backed(active, ref, p))
    && exists p :: p in active && p !in ref
  }

  /** The list names exactly the parts of `from` that satisfy `bad`, in order. */
  ghost predicate NamesExactly(names: seq<string>, from: seq<AuditPart>, bad: set<AuditPart>) {
    Ordered(names, StringLe) && forall n :: n in names <==> exists p :: p in from && p in bad && p.name == n
  }

  ghost function Strangers(active: seq<AuditPart>, ref: seq<AuditPart>): set<AuditPart> {
    set p | p in active && !Backed(active, ref, p)
  }

  ghost function Extras(active: seq<AuditPart>, ref: seq<AuditPart>): set<AuditPart> {
    set p | p in active && p !in ref
  }

  lemma SortedNames(s: seq<string>, from: seq<AuditPart>, bad: set<AuditPart>)
    requires forall n :: n in s <==> exists p :: p in from && p in bad && p.name == n
    ensures NamesExactly(Sort(s, StringLe), from, bad)
  {
    hide Sort;
    StringOrder();
    SortOrdered(s, StringLe);
    forall n ensures n in Sort(s, StringLe) <==> n in s { SortMembers(s, n); }
  }

  lemma StrangersListed(active: seq<AuditPart>, ref: seq<AuditPart>)
    ensures NamesExactly(Sort(OfKind(active, active, ref, Stranger), StringLe), active, Strangers(active, ref))
    ensures OfKind(active, active, ref, Stranger) == [] <==> Strangers(active, ref) == {}
  {
    hide OfKind, Sort, NamesExactly;
    var s := OfKind(active, active, ref, Stranger);
    forall p | p in active ensures KindOf(active, ref, p) == Stranger <==> p in Strangers(active, ref) {
      if p in ref { assert Backed(active, ref, p); }
    }
    forall n ensures n in s <==> exists p :: p in active && p in Strangers(active, ref) && p.name == n {
      OfKindMembers(active, active, ref, Stranger, n);
    }
    SortedNames(s, active, Strangers(active, ref));
    NoneOfKind(active, active, ref, Stranger);
  }

  lemma TwinsListed(active: seq<AuditPart>, ref: seq<AuditPart>)
    requires Strangers(active, ref) == {}
    ensures NamesExactly(Sort(OfKind(active, active, ref, Twin), StringLe), active, Extras(active, ref))
    ensures OfKind(active, active, ref, Twin) == [] <==> Extras(active, ref) == {}
  {
    hide OfKind, Sort, NamesExactly;
    var s := OfKind(active, active, ref, Twin);
    forall p | p in active ensures KindOf(active, ref, p) == Twin <==> p in Extras(active, ref) {
      assert p !in Strangers(active, ref);
    }
    forall n ensures n in s <==> exists p :: p in active && p in Extras(active, ref) && p.name == n {
      OfKindMembers(active, active, ref, Twin, n);
    }
    SortedNames(s, active, Extras(active, ref));
    NoneOfKind(active, active, ref, Twin);
  }

  lemma MissingListed(ref: seq<AuditPart>, active: seq<AuditPart>)
    ensures NamesExactly(Sort(Missing(ref, active), StringLe), ref, Extras(ref, active))
    ensures Missing(ref, active) == [] <==> Extras(ref, active) == {}
  {
    hide Sort, NamesExactly, Missing;
    forall n ensures n in Missing(ref, active) <==> exists p :: p in ref && p in Extras(ref, active) && p.name == n {
      MissingMembers(ref, active, n);
    }
    SortedNames(Missing(ref, active), ref, Extras(ref, active));
    NoneMissing(ref, active);
    if Missing(ref, active) == [] {
      forall p ensures p !in Extras(ref, active) {}
    } else {
      var p :| p in ref && p !in active;
      assert p in Extras(ref, active);
    }
  }

  lemma {:induction false} MissingMembers(ref: seq<AuditPart>, active: seq<AuditPart>, n: string)
    ensures n in Missing(ref, active) <==> exists p :: p in ref && p !in active && p.name == n
  {
    if ref != [] { MissingMembers(ref[1..], active, n); }
  }

  /** When each reason is given, which names it lists, and when anything is
      dropped: with a part of an unknown file nothing is, nor with a listed part
      missing; only surplus copies of active listed files are. */
  lemma VerdictMeans(ref: Reference, active: seq<AuditPart>)
    ensures var plan, strangers, missing, extras :=
        Verdict(Some(ref), active), Strangers(active, ref.parts), Extras(ref.parts, active), Extras(active, ref.parts);
      && (strangers != {} ==>
        plan.reason == Some(UnacknowledgedPart) && plan.drop == [] && NamesExactly(plan.parts, active, strangers))
      && (strangers == {} && missing != {} ==>
        plan.reason == Some(AcknowledgedPartMissing) && plan.drop == [] && NamesExactly(plan.parts, ref.parts, missing))
      && (strangers == {} && missing == {} && extras != {} ==>
        plan.reason == Some(UnacknowledgedPart) && plan.drop == plan.parts != [] && NamesExactly(plan.drop, active, extras))
      && (strangers == {} && missing == {} && extras == {} ==> plan == Clean)
    ensures Verdict(Some(ref), active).drop != [] <==> Repairable(active, ref.parts)
  {
    hide OfKind, Missing, Sort, NamesExactly;
    StrangersListed(active, ref.parts);
    MissingListed(ref.parts, active);
    if Strangers(active, ref.parts) == {} { TwinsListed(active, ref.parts); }
    SortMembers(OfKind(active, active, ref.parts, Stranger), "");
    SortMembers(OfKind(active, active, ref.parts, Twin), "");
    SortMembers(Missing(ref.parts, active), "");
    RepairableIs(active, ref.parts);
  }

  lemma RepairableIs(active: seq<AuditPart>, ref: seq<AuditPart>)
    ensures Repairable(active, ref) <==> Strangers(active, ref) == {} && Extras(ref, active) == {} && Extras(active, ref) != {}
  {
    hide Backed;
    if Repairable(active, ref) {
      var p :| p in active && p !in ref;
      assert p in Extras(active, ref);
    }
    if Strangers(active, ref) == {} && Extras(ref, active) == {} && Extras(active, ref) != {} {
      forall p | p in ref ensures p in active { assert p !in Extras(ref, active); }
      forall p | p in active ensures Backed(active, ref, p) { assert p !in Strangers(active, ref); }
      var p :| p in Extras(active, ref);
    }
  }

  /** Without a reference every active part is listed and nothing is dropped. */
  lemma NoReferenceMeans(active: seq<AuditPart>)
    ensures active == [] ==> Verdict(None, active) == Clean
    ensures active != [] ==>
      && var plan := Verdict(None, active);
      && plan.reason == Some(NoAcknowledgedInventory) && plan.drop == [] && NamesExactly(plan.parts, active, PartSet(active))
  {
    hide Sort, NamesExactly;
    forall n ensures n in PartNames(active) <==> exists p :: p in active && p in PartSet(active) && p.name == n {
      if n in PartNames(active) {
        var i :| 0 <= i < |active| && PartNames(active)[i] == n;
        assert active[i] in active;
      }
      if p :| p in active && p.name == n {
        var i :| 0 <= i < |active| && active[i] == p;
        assert PartNames(active)[i] == n;
      }
    }
    SortedNames(PartNames(active), active, PartSet(active));
  }

  // ---- dropping -----------------------------------------------------------------------

  /** The partition without the named parts. */
  function Remaining(active: seq<AuditPart>, names: seq<string>): seq<AuditPart> {
    if active == [] then []
    else (if active[0].name in names then [] else [active[0]]) + Remaining(active[1..], names)
  }

  lemma {:induction false} RemainingMembers(active: seq<AuditPart>, names: seq<string>, p: AuditPart)
    ensures p in Remaining(active, names) <==> p in active && p.name !in names
  {
    if active != [] { RemainingMembers(active[1..], names, p); }
  }

  /** What a plan that drops anything says. */
  lemma DropPlan(ref: Reference, active: seq<AuditPart>)
    requires Verdict(Some(ref), active).drop != []
    ensures forall p :: p in ref.parts ==> p in active
    ensures forall p :: p in active ==> HasKept(active, ref.parts, p.physHash)
    ensures forall n :: n in Verdict(Some(ref), active).drop <==> exists p :: p in active && p.name == n && p !in ref.parts
  {
    hide OfKind, Missing, Sort;
    var twins := OfKind(active, active, ref.parts, Twin);
    EmptyLists(active, ref.parts);
    SortMembers(OfKind(active, active, ref.parts, Stranger), "");
    SortMembers(Missing(ref.parts, active), "");
    forall n ensures n in Sort(twins, StringLe) <==> exists p :: p in active && p.name == n && KindOf(active, ref.parts, p) == Twin {
      SortMembers(twins, n);
      OfKindMembers(active, active, ref.parts, Twin, n);
    }
  }

  lemma NamesApart(active: seq<AuditPart>, p: AuditPart, q: AuditPart)
    requires DistinctNames(active) && p in active && q in active && p.name == q.name
    ensures p == q
  {
    var i :| 0 <= i < |active| && active[i] == p;
    var j :| 0 <= j < |active| && active[j] == q;
    assert i == j;
  }

  /** Dropping any of the planned parts, in any order and stopping anywhere,
      keeps every reference part and loses no file content. */
  lemma DropsAreLossless(ref: Reference, active: seq<AuditPart>, dropped: seq<string>)
    requires DistinctNames(active) && Verdict(Some(ref), active).drop != []
    requires forall n :: n in dropped ==> n in Verdict(Some(ref), active).drop
    ensures PartSet(ref.parts) <= PartSet(Remaining(active, dropped))
    ensures HashSet(Remaining(active, dropped)) == HashSet(active)
  {
    hide Verdict, Remaining;
    DropPlan(ref, active);
    var rest := Remaining(active, dropped);
    forall p ensures p in rest <==> p in active && p.name !in dropped { RemainingMembers(active, dropped, p); }
    forall p | p in ref.parts ensures p in rest {
      forall q | q in active && q.name == p.name ensures q in ref.parts { NamesApart(active, p, q); }
    }
    forall h | h in HashSet(active) ensures h in HashSet(rest) {
      var p :| p in active && p.physHash == h;
      var q :| q in active && q in ref.parts && q.physHash == h;
      assert q in rest;
    }
  }

  /** Dropping all of them leaves exactly the reference, which is clean. */
  lemma DropsAreExact(ref: Reference, active: seq<AuditPart>, dropped: seq<string>)
    requires DistinctNames(active) && Verdict(Some(ref), active).drop != []
    requires forall n :: n in dropped <==> n in Verdict(Some(ref), active).drop
    ensures PartSet(Remaining(active, dropped)) == PartSet(ref.parts)
    ensures Verdict(Some(ref), Remaining(active, dropped)) == Clean
  {
    hide Verdict, Remaining;
    DropsAreLossless(ref, active, dropped);
    DropPlan(ref, active);
    forall p | p in Remaining(active, dropped) ensures p in ref.parts { RemainingMembers(active, dropped, p); }
    CleanIffReference(ref, Remaining(active, dropped));
    CleanHasNoLists(Some(ref), Remaining(active, dropped));
  }

  lemma CleanHasNoLists(ref: Option<Reference>, active: seq<AuditPart>)
    ensures Verdict(ref, active).reason.None? ==> Verdict(ref, active) == Clean
  {}

  // ---- the repair -----------------------------------------------------------------------

  datatype Outcome = Audited(plan: Plan) | Failed

  /** One hg_safe partition as ClickHouse holds it. */
  class SafePartition {
    var active: seq<AuditPart>
    var droppedTwins: nat

    constructor (parts: seq<AuditPart>)
      ensures active == parts && droppedTwins == 0
    {
      active, droppedTwins := parts, 0;
    }

    /** dropResurrectedTwins; `accepted` says how many DROP PARTs ClickHouse
        takes before one fails. */
    method DropResurrectedTwins(ref: Reference, plan: Plan, accepted: nat) returns (out: Outcome)
      requires DistinctNames(active) && plan == Verdict(Some(ref), active) && plan.drop != []
      modifies this
      ensures out == if accepted < |plan.drop| then Failed else Audited(Clean)
      ensures PartSet(ref.parts) <= PartSet(active) <= PartSet(old(active))
      ensures HashSet(active) == HashSet(old(active))
      ensures out.Audited? ==> PartSet(active) == PartSet(ref.parts)
      ensures droppedTwins == old(droppedTwins) + if out.Failed? then accepted else |plan.drop|
    {
      hide Verdict, Remaining;
      RemainingAll(active);
      assert plan.drop[..0] == [];
      for i := 0 to |plan.drop|
        invariant i <= accepted
        invariant active == Remaining(old(active), plan.drop[..i]) && droppedTwins == old(droppedTwins) + i
      {
        if i == accepted {
          DropsAreLossless(ref, old(active), plan.drop[..i]);
          RemainingSubset(old(active), plan.drop[..i]);
          return Failed;
        }
        RemainingMore(old(active), plan.drop[..i], plan.drop[i]);
        assert plan.drop[..i + 1] == plan.drop[..i] + [plan.drop[i]];
        active := Remaining(active, [plan.drop[i]]);
        droppedTwins := droppedTwins + 1;
      }
      assert plan.drop[..|plan.drop|] == plan.drop;
      DropsAreLossless(ref, old(active), plan.drop);
      DropsAreExact(ref, old(active), plan.drop);
      RemainingSubset(old(active), plan.drop);
      var after := PlanAudit(Some(ref), active);
      if after.drop != [] {
        after := after.(drop := []);
      }
      return Audited(after);
    }

    /** auditPartitionLocked: chooses the reference, plans, and repairs when
        the mode allows it. A clean answer means hg_safe is the reference. */
    method Audit(ins: Inputs, repair: bool, accepted: nat) returns (out: Outcome, choice: Choice)
      requires DistinctNames(active)
      modifies this
      ensures choice == Choose(ins)
      ensures choice.Refused? ==> active == old(active) && out == Audited(Plan(Some(choice.reason), Sort(PartNames(active), StringLe), []))
      ensures choice.NoReference? ==> active == old(active) && out == Audited(Verdict(None, active))
      ensures out.Audited? && out.plan.reason.None? ==>
        if choice.NoReference? then active == [] else choice.Chosen? && PartSet(active) == PartSet(choice.ref.parts)
      ensures active != old(active) ==>
        repair && choice.Chosen? && PartSet(choice.ref.parts) <= PartSet(active) <= PartSet(old(active)) && HashSet(active) == HashSet(old(active))
      ensures choice.Chosen? && repair && Repairable(old(active), choice.ref.parts) && accepted >= |old(active)| ==>
        out == Audited(Clean) && PartSet(active) == PartSet(choice.ref.parts)
      ensures choice.Chosen? && !(repair && Repairable(old(active), choice.ref.parts)) ==>
        active == old(active) && out == Audited(Verdict(Some(choice.ref), active))
    {
      hide Verdict, Sort, Newer, Agree, Repairable;
      choice := ReferenceFor(ins);
      if choice.Refused? {
        return Audited(Plan(Some(choice.reason), Sort(PartNames(active), StringLe), [])), choice;
      }
      var ref := if choice.Chosen? then Some(choice.ref) else None;
      var plan := PlanAudit(ref, active);
      NothingToDropWithout(ref, active);
      if choice.Chosen? {
        VerdictMeans(choice.ref, active);
        FewDrops(choice.ref, active);
      }
      if plan.drop != [] && repair {
        out := DropResurrectedTwins(choice.ref, plan, accepted);
        return out, choice;
      }
      if choice.Chosen? { CleanIffReference(choice.ref, active); }
      return Audited(plan), choice;
    }
  }

  lemma {:induction false} FewOfKind(parts: seq<AuditPart>, active: seq<AuditPart>, ref: seq<AuditPart>, kind: Kind)
    ensures |OfKind(parts, active, ref, kind)| <= |parts|
  {
    hide KindOf;
    if parts != [] { FewOfKind(parts[1..], active, ref, kind); }
  }

  lemma FewDrops(ref: Reference, active: seq<AuditPart>)
    ensures |Verdict(Some(ref), active).drop| <= |active|
  {
    hide OfKind, Missing;
    var twins := OfKind(active, active, ref.parts, Twin);
    FewOfKind(active, active, ref.parts, Twin);
    assert |multiset(Sort(twins, StringLe))| == |multiset(twins)|;
  }

  lemma {:induction false} OfKindOnce(parts: seq<AuditPart>, active: seq<AuditPart>, ref: seq<AuditPart>, kind: Kind, n: string)
    requires DistinctNames(parts)
    ensures multiset(OfKind(parts, active, ref, kind))[n] <= 1
  {
    hide KindOf;
    if parts != [] {
      var rest := OfKind(parts[1..], active, ref, kind);
      var head := if KindOf(active, ref, parts[0]) == kind then [parts[0].name] else [];
      OfKindOnce(parts[1..], active, ref, kind, n);
      OfKindMembers(parts[1..], active, ref, kind, n);
      assert multiset(head + rest) == multiset(head) + multiset(rest);
      if parts[0].name == n {
        forall p | p in parts[1..] ensures p.name != n {
          var i :| 0 <= i < |parts[1..]| && parts[1..][i] == p;
          assert parts[i + 1].name != parts[0].name;
        }
        assert n !in rest;
      }
    }
  }

  /** No part is to be dropped twice. */
  lemma DropsOnce(ref: Reference, active: seq<AuditPart>, n: string)
    requires DistinctNames(active)
    ensures multiset(Verdict(Some(ref), active).drop)[n] <= 1
  {
    hide OfKind, Missing, DistinctNames;
    OfKindOnce(active, active, ref.parts, Twin, n);
  }

  lemma NothingToDropWithout(ref: Option<Reference>, active: seq<AuditPart>)
    ensures ref.None? ==> Verdict(ref, active).drop == [] && (Verdict(ref, active).reason.None? ==> active == [])
  {}

  lemma RemainingSubset(active: seq<AuditPart>, names: seq<string>)
    ensures PartSet(Remaining(active, names)) <= PartSet(active)
  {
    forall p | p in Remaining(active, names) ensures p in active { RemainingMembers(active, names, p); }
  }

  lemma {:induction false} RemainingAll(active: seq<AuditPart>)
    ensures Remaining(active, []) == active
  {
    if active != [] { RemainingAll(active[1..]); }
  }

  lemma RemainingStep(p: AuditPart, rest: seq<AuditPart>, names: seq<string>)
    ensures Remaining([p] + rest, names) == (if p.name in names then [] else [p]) + Remaining(rest, names)
  {
    assert ([p] + rest)[1..] == rest;
  }

  lemma {:induction false} RemainingMore(active: seq<AuditPart>, names: seq<string>, n: string)
    ensures Remaining(Remaining(active, names), [n]) == Remaining(active, names + [n])
  {
    if active != [] {
      var p, rest := active[0], active[1..];
      assert active == [p] + rest;
      RemainingMore(rest, names, n);
      RemainingStep(p, rest, names + [n]);
      RemainingStep(p, rest, names);
      RemainingStep(p, Remaining(rest, names), [n]);
      hide Remaining;
      if p.name in names {
        assert Remaining(active, names) == Remaining(rest, names);
      }
    }
  }
}
