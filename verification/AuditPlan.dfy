/** The audit's verdict on one hg_safe partition and the repair it allows. */
module AuditPlan {
  import opened Options
  import opened Sorting
  import opened AuditReference

  /** No reason means clean. */
  datatype Plan = Plan(reason: Option<Reason>, parts: seq<string>, drop: seq<string>)

  const Clean: Plan := Plan(None, [], [])

  // ---- what the verdict means -----------------------------------------------------

  /** Acknowledged, a resurrected copy of an acknowledged active part, or neither. */
  datatype Kind = Acknowledged | Twin | Stranger

  predicate HasKept(active: seq<AuditPart>, ref: seq<AuditPart>, hash: string) {
    exists q :: q in active && q in ref && q.physHash == hash
  }

  function KindOf(active: seq<AuditPart>, ref: seq<AuditPart>, p: AuditPart): Kind {
    if p in ref then Acknowledged else if HasKept(active, ref, p.physHash) then Twin else Stranger
  }

  /** The names of the listed parts of one kind. */
  function OfKind(parts: seq<AuditPart>, active: seq<AuditPart>, ref: seq<AuditPart>, kind: Kind): seq<string> {
    if parts == [] then []
    else (if KindOf(active, ref, parts[0]) == kind then [parts[0].name] else []) + OfKind(parts[1..], active, ref, kind)
  }

  function Missing(ref: seq<AuditPart>, active: seq<AuditPart>): seq<string> {
    if ref == [] then []
    else (if ref[0] !in active then [ref[0].name] else []) + Missing(ref[1..], active)
  }

  function PartNames(parts: seq<AuditPart>): seq<string> {
    seq(|parts|, i requires 0 <= i < |parts| => parts[i].name)
  }

  function Verdict(ref: Option<Reference>, active: seq<AuditPart>): Plan {
    if ref.None? then
      if active == [] then Clean else Plan(Some(NoAcknowledgedInventory), Sort(PartNames(active), StringLe), [])
    else
      var acked := ref.value.parts;
      var strangers := Sort(OfKind(active, active, acked, Stranger), StringLe);
      var twins := Sort(OfKind(active, active, acked, Twin), StringLe);
      var missing := Sort(Missing(acked, active), StringLe);
      if strangers != [] then Plan(Some(UnacknowledgedPart), strangers, [])
      else if missing != [] then Plan(Some(AcknowledgedPartMissing), missing, [])
      else if twins != [] then Plan(Some(UnacknowledgedPart), twins, twins)
      else Clean
  }

  // ---- the comparison ----------------------------------------------------------------

  /** Like OfKind, for the parts whose hash is in `hashes`. */
  ghost function OfKindIn(parts: seq<AuditPart>, active: seq<AuditPart>, ref: seq<AuditPart>, kind: Kind, hashes: set<string>): seq<string> {
    if parts == [] then []
    else (if KindOf(active, ref, parts[0]) == kind && parts[0].physHash in hashes then [parts[0].name] else [])
         + OfKindIn(parts[1..], active, ref, kind, hashes)
  }

  function WithHash(parts: seq<AuditPart>, hash: string): seq<AuditPart> {
    if parts == [] then []
    else (if parts[0].physHash == hash then [parts[0]] else []) + WithHash(parts[1..], hash)
  }

  lemma {:induction false} WithHashAppends(parts: seq<AuditPart>, p: AuditPart, hash: string)
    ensures WithHash(parts + [p], hash) == WithHash(parts, hash) + if p.physHash == hash then [p] else []
  {
    if parts != [] {
      assert (parts + [p])[1..] == parts[1..] + [p];
      WithHashAppends(parts[1..], p, hash);
    }
  }

  lemma {:induction false} WithHashMembers(parts: seq<AuditPart>, hash: string)
    ensures forall p :: p in WithHash(parts, hash) <==> p in parts && p.physHash == hash
  {
    if parts != [] { WithHashMembers(parts[1..], hash); }
  }

  lemma {:induction false} NoHashes(parts: seq<AuditPart>, active: seq<AuditPart>, ref: seq<AuditPart>, kind: Kind)
    ensures OfKindIn(parts, active, ref, kind, {}) == []
  {
    if parts != [] { NoHashes(parts[1..], active, ref, kind); }
  }

  lemma {:induction false} AllHashes(parts: seq<AuditPart>, active: seq<AuditPart>, ref: seq<AuditPart>, kind: Kind, hashes: set<string>)
    requires forall p :: p in parts ==> p.physHash in hashes
    ensures OfKindIn(parts, active, ref, kind, hashes) == OfKind(parts, active, ref, kind)
  {
    if parts != [] { AllHashes(parts[1..], active, ref, kind, hashes); }
  }

  lemma HeadJoins(head: seq<string>, all: seq<string>, some: seq<string>, group: seq<string>)
    requires multiset(all) == multiset(some) + multiset(group)
    ensures multiset(head + all) == multiset(some) + multiset(head + group)
    ensures multiset(head + all) == multiset(head + some) + multiset(group)
  {
    assert multiset(head + all) == multiset(head) + multiset(all);
    assert multiset(head + group) == multiset(head) + multiset(group);
    assert multiset(head + some) == multiset(head) + multiset(some);
  }

  /** One more group adds the names of that group. */
  lemma {:induction false} OneMoreHash(parts: seq<AuditPart>, active: seq<AuditPart>, ref: seq<AuditPart>, kind: Kind, hashes: set<string>, h: string)
    requires h !in hashes
    ensures multiset(OfKindIn(parts, active, ref, kind, hashes + {h}))
         == multiset(OfKindIn(parts, active, ref, kind, hashes)) + multiset(OfKind(WithHash(parts, h), active, ref, kind))
  {
    hide KindOf;
    if parts != [] {
      var p, rest := parts[0], parts[1..];
      OneMoreHash(rest, active, ref, kind, hashes, h);
      var head := if KindOf(active, ref, p) == kind then [p.name] else [];
      var all, some := OfKindIn(rest, active, ref, kind, hashes + {h}), OfKindIn(rest, active, ref, kind, hashes);
      var group := OfKind(WithHash(rest, h), active, ref, kind);
      hide OfKindIn, OfKind, WithHash;
      HeadJoins(if p.physHash in hashes + {h} then head else [], all, some, group);
      OfKindInStep(parts, active, ref, kind, hashes);
      OfKindInStep(parts, active, ref, kind, hashes + {h});
      WithHashStep(parts, active, ref, kind, h);
    }
  }

  lemma OfKindInStep(parts: seq<AuditPart>, active: seq<AuditPart>, ref: seq<AuditPart>, kind: Kind, hashes: set<string>)
    requires parts != []
    ensures var head := if KindOf(active, ref, parts[0]) == kind then [parts[0].name] else [];
      OfKindIn(parts, active, ref, kind, hashes)
      == (if parts[0].physHash in hashes then head else []) + OfKindIn(parts[1..], active, ref, kind, hashes)
  {}

  lemma WithHashStep(parts: seq<AuditPart>, active: seq<AuditPart>, ref: seq<AuditPart>, kind: Kind, h: string)
    requires parts != []
    ensures var head := if KindOf(active, ref, parts[0]) == kind then [parts[0].name] else [];
      OfKind(WithHash(parts, h), active, ref, kind)
      == (if parts[0].physHash == h then head else []) + OfKind(WithHash(parts[1..], h), active, ref, kind)
  {
    if parts[0].physHash == h {
      assert WithHash(parts, h)[1..] == WithHash(parts[1..], h);
    } else {
      assert WithHash(parts, h) == WithHash(parts[1..], h);
    }
  }

  lemma {:induction false} OfKindAppends(parts: seq<AuditPart>, p: AuditPart, active: seq<AuditPart>, ref: seq<AuditPart>, kind: Kind)
    ensures OfKind(parts + [p], active, ref, kind)
         == OfKind(parts, active, ref, kind) + if KindOf(active, ref, p) == kind then [p.name] else []
  {
    if parts != [] {
      assert (parts + [p])[1..] == parts[1..] + [p];
      OfKindAppends(parts[1..], p, active, ref, kind);
    }
  }

  lemma {:induction false} MissingAppends(ref: seq<AuditPart>, p: AuditPart, active: seq<AuditPart>)
    ensures Missing(ref + [p], active) == Missing(ref, active) + if p !in active then [p.name] else []
  {
    if ref != [] {
      assert (ref + [p])[1..] == ref[1..] + [p];
      MissingAppends(ref[1..], p, active);
    }
  }

  method GroupByHash(active: seq<AuditPart>) returns (groups: map<string, seq<AuditPart>>)
    ensures forall p :: p in active ==> p.physHash in groups
    ensures forall h :: h in groups ==> groups[h] == WithHash(active, h)
  {
    groups := map[];
    for i := 0 to |active|
      invariant forall p :: p in active[..i] ==> p.physHash in groups
      invariant forall h :: h in groups ==> groups[h] == WithHash(active[..i], h)
      invariant forall h :: h !in groups ==> WithHash(active[..i], h) == []
    {
      var p := active[i];
      assert active[..i + 1] == active[..i] + [p];
      forall h ensures WithHash(active[..i + 1], h) == WithHash(active[..i], h) + if p.physHash == h then [p] else [] {
        WithHashAppends(active[..i], p, h);
      }
      groups := groups[p.physHash := (if p.physHash in groups then groups[p.physHash] else []) + [p]];
    }
    assert active[..|active|] == active;
  }

  lemma GroupKind(active: seq<AuditPart>, ref: seq<AuditPart>, hash: string, p: AuditPart)
    requires p in WithHash(active, hash)
    ensures KindOf(active, ref, p) == if p in ref then Acknowledged
                                      else if exists q :: q in WithHash(active, hash) && q in ref then Twin else Stranger
  {
    WithHashMembers(active, hash);
  }

  /** Splits one group of equal files into resurrected twins and strangers. */
  method SplitGroup(group: seq<AuditPart>, active: seq<AuditPart>, ref: seq<AuditPart>, hash: string) returns (twins: seq<string>, strangers: seq<string>)
    requires group == WithHash(active, hash)
    ensures twins == OfKind(group, active, ref, Twin) && strangers == OfKind(group, active, ref, Stranger)
  {
    hide KindOf, WithHash;
    WithHashMembers(active, hash);
    var kept := exists p :: p in group && p in ref;
    twins, strangers := [], [];
    for i := 0 to |group|
      invariant twins == OfKind(group[..i], active, ref, Twin) && strangers == OfKind(group[..i], active, ref, Stranger)
    {
      var p := group[i];
      assert group[..i + 1] == group[..i] + [p] && p.physHash == hash;
      OfKindAppends(group[..i], p, active, ref, Twin);
      OfKindAppends(group[..i], p, active, ref, Stranger);
      GroupKind(active, ref, hash, p);
      if p in ref {
      } else if kept {
        twins := twins + [p.name];
      } else {
        strangers := strangers + [p.name];
      }
    }
    assert group[..|group|] == group;
  }

  method FindMissing(ref: seq<AuditPart>, active: seq<AuditPart>) returns (missing: seq<string>)
    ensures missing == Missing(ref, active)
  {
    missing := [];
    for i := 0 to |ref|
      invariant missing == Missing(ref[..i], active)
    {
      assert ref[..i + 1] == ref[..i] + [ref[i]];
      MissingAppends(ref[..i], ref[i], active);
      if ref[i] !in active {
        missing := missing + [ref[i].name];
      }
    }
    assert ref[..|ref|] == ref;
  }

  /** The plan does not depend on the order the groups are visited in. */
  method PlanAudit(ref: Option<Reference>, active: seq<AuditPart>) returns (plan: Plan)
    ensures plan == Verdict(ref, active)
  {
    if ref.None? {
      if active == [] {
        return Clean;
      }
      return Plan(Some(NoAcknowledgedInventory), Sort(PartNames(active), StringLe), []);
    }
    var acked := ref.value.parts;
    var groups := GroupByHash(active);
    var twins, strangers := SplitAll(groups, active, acked);
    var missing := FindMissing(acked, active);
    strangers := Sort(strangers, StringLe);
    twins := Sort(twins, StringLe);
    missing := Sort(missing, StringLe);
    if strangers != [] {
      return Plan(Some(UnacknowledgedPart), strangers, []);
    } else if missing != [] {
      return Plan(Some(AcknowledgedPartMissing), missing, []);
    } else if twins != [] {
      return Plan(Some(UnacknowledgedPart), twins, twins);
    }
    return Clean;
  }

  method SplitAll(groups: map<string, seq<AuditPart>>, active: seq<AuditPart>, ref: seq<AuditPart>) returns (twins: seq<string>, strangers: seq<string>)
    requires forall p :: p in active ==> p.physHash in groups
    requires forall h :: h in groups ==> groups[h] == WithHash(active, h)
    ensures Sort(twins, StringLe) == Sort(OfKind(active, active, ref, Twin), StringLe)
    ensures Sort(strangers, StringLe) == Sort(OfKind(active, active, ref, Stranger), StringLe)
  {
    twins, strangers := [], [];
    var left := groups.Keys;
    NoHashes(active, active, ref, Twin);
    NoHashes(active, active, ref, Stranger);
    assert groups.Keys - left == {};
    while left != {}
      invariant left <= groups.Keys
      invariant multiset(twins) == multiset(OfKindIn(active, active, ref, Twin, groups.Keys - left))
      invariant multiset(strangers) == multiset(OfKindIn(active, active, ref, Stranger, groups.Keys - left))
      decreases |left|
    {
      var h :| h in left;
      var t, s := SplitGroup(groups[h], active, ref, h);
      OneMoreHash(active, active, ref, Twin, groups.Keys - left, h);
      OneMoreHash(active, active, ref, Stranger, groups.Keys - left, h);
      assert groups.Keys - (left - {h}) == groups.Keys - left + {h};
      twins, strangers, left := twins + t, strangers + s, left - {h};
    }
    assert groups.Keys - left == groups.Keys;
    AllHashes(active, active, ref, Twin, groups.Keys);
    AllHashes(active, active, ref, Stranger, groups.Keys);
    StringOrder();
    SortedEqual(twins, OfKind(active, active, ref, Twin), StringLe);
    SortedEqual(strangers, OfKind(active, active, ref, Stranger), StringLe);
  }
}
