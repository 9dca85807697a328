/** NormalizeConsensusParamsUpdate: it returns the canonical form of an update,
    and refuses exactly the updates that have none. */
module Normalize {
  import opened Options
  import opened Sorting
  import opened Canonical
  import opened Normalizer

  // ---- authority addresses ----------------------------------------------------------------------------

  /** Drops each element equal to the one before it. */
  function Compact(s: seq<string>): seq<string> {
    if |s| < 2 then s
    else if s[|s| - 2] == s[|s| - 1] then Compact(s[..|s| - 1])
    else Compact(s[..|s| - 1]) + [s[|s| - 1]]
  }

  lemma {:induction false} CompactMembers(s: seq<string>, x: string)
    ensures x in Compact(s) <==> x in s
  {
    if |s| >= 2 {
      CompactMembers(s[..|s| - 1], x);
      assert s == s[..|s| - 1] + [s[|s| - 1]];
      assert s[..|s| - 1][|s| - 2] == s[|s| - 2];
    }
  }

  lemma {:induction false} CompactStrict(s: seq<string>)
    requires Ordered(s, StringLe)
    ensures Strict(Compact(s), StringLt)
  {
    if |s| >= 2 {
      var n := |s| - 1;
      CompactStrict(s[..n]);
      if s[n - 1] != s[n] {
        var head := Compact(s[..n]);
        forall i | 0 <= i < |head| ensures StringLt(head[i], s[n]) {
          CompactMembers(s[..n], head[i]);
          var j :| 0 <= j < n && s[j] == head[i];
          StringLeTotal(s[j], s[n]);
          StringLeTotal(s[j], s[n - 1]);
          assert StringLe(s[j], s[n]) && StringLe(s[n - 1], s[n]);
          assert j < n - 1 ==> StringLe(s[j], s[n - 1]);
          StringLeTotal(s[n - 1], s[n]);
        }
      }
    }
  }

  lemma BadAddress(given: seq<string>, i: nat, o: seq<string>)
    requires i < |given| && !ValidAddress(Lower(given[i]))
    ensures !CanonicalAddresses(given, o)
  {
    assert Map(Lower, given)[i] == Lower(given[i]);
    assert Lower(given[i]) in Map(Lower, given);
  }

  method NormalizeAddresses(given: seq<string>) returns (out: Option<seq<string>>)
    ensures out.Some? ==> CanonicalAddresses(given, out.value)
    ensures out.None? ==> forall o :: !CanonicalAddresses(given, o)
  {
    hide ValidAddress, Lower, Strict, Sort, Compact;
    if given == [] {
      return None;
    }
    var lowered: seq<string> := [];
    for i := 0 to |given|
      invariant lowered == Map(Lower, given)[..i]
      invariant forall a :: a in lowered ==> ValidAddress(a)
    {
      var address := Lower(given[i]);
      if !ValidAddress(address) {
        forall o ensures !CanonicalAddresses(given, o) { BadAddress(given, i, o); }
        return None;
      }
      lowered := lowered + [address];
    }
    assert lowered == Map(Lower, given);
    StringOrder();
    var sorted := Sort(lowered, StringLe);
    SortOrdered(lowered, StringLe);
    CompactStrict(sorted);
    forall a ensures a in Compact(sorted) <==> a in lowered {
      CompactMembers(sorted, a);
      SameMembers(sorted, lowered, a);
    }
    return Some(Compact(sorted));
  }

  lemma SameMembers<T>(a: seq<T>, b: seq<T>, x: T)
    requires multiset(a) == multiset(b)
    ensures x in a <==> x in b
  {
    assert x in a <==> x in multiset(a);
    assert x in b <==> x in multiset(b);
  }

  // ---- indexers ------------------------------------------------------------------------------------------

  predicate IndexerLe(a: Indexer, b: Indexer) {
    a.id <= b.id
  }

  lemma BadIndexer(given: seq<Indexer>, maxWriters: nat, i: nat, o: seq<Indexer>)
    requires i < |given| && !IndexerOk(LowerIndexer(given[i]))
    ensures !CanonicalIndexers(given, maxWriters, o)
  {
    hide IndexerOk, LowerIndexer, Strict;
    assert Map(LowerIndexer, given)[i] == LowerIndexer(given[i]);
    if multiset(o) == multiset(Map(LowerIndexer, given)) { InPermuted(Map(LowerIndexer, given), o, i); }
  }

  /** The sorted prefix has no repeated id and no shared SNode. */
  ghost predicate PrefixOk(sorted: seq<Indexer>, i: nat, nodes: set<string>)
    requires i <= |sorted|
  {
    && (forall k :: 0 < k < i ==> sorted[k - 1].id < sorted[k].id)
    && (forall n :: n in nodes <==> exists k :: 0 <= k < i && sorted[k].snode == n)
    && (forall j, k :: 0 <= j < k < i ==> sorted[j].snode != sorted[k].snode)
  }

  method LowerIndexers(given: seq<Indexer>, maxWriters: nat) returns (lowered: Option<seq<Indexer>>)
    ensures lowered.Some? ==> lowered.value == Map(LowerIndexer, given) && forall e :: e in lowered.value ==> IndexerOk(e)
    ensures lowered.None? ==> forall o :: !CanonicalIndexers(given, maxWriters, o)
  {
    hide IndexerOk, LowerIndexer, CanonicalIndexers;
    var out: seq<Indexer> := [];
    for i := 0 to |given|
      invariant out == Map(LowerIndexer, given)[..i]
      invariant forall e :: e in out ==> IndexerOk(e)
    {
      var e := LowerIndexer(given[i]);
      if !IndexerOk(e) {
        forall o ensures !CanonicalIndexers(given, maxWriters, o) { BadIndexer(given, maxWriters, i, o); }
        return None;
      }
      out := out + [e];
    }
    return Some(out);
  }

  /** Two entries share an id or an SNode. */
  ghost predicate Clash(sorted: seq<Indexer>) {
    exists j, i :: 0 <= j < i < |sorted| && (sorted[j].id == sorted[i].id || (sorted[j].id < sorted[i].id && sorted[j].snode == sorted[i].snode))
  }

  method CheckIndexers(sorted: seq<Indexer>) returns (ok: bool, ghost nodes: set<string>)
    requires Ordered(sorted, IndexerLe)
    ensures ok ==> PrefixOk(sorted, |sorted|, nodes)
    ensures !ok ==> Clash(sorted)
  {
    hide PrefixOk, Ordered, Clash;
    var used: set<string> := {};
    assert PrefixOk(sorted, 0, used) by { PrefixNone(sorted); }
    for i := 0 to |sorted|
      invariant PrefixOk(sorted, i, used)
    {
      PrefixMore(sorted, i, used);
      if i > 0 && sorted[i - 1].id == sorted[i].id {
        return false, used;
      }
      if sorted[i].snode in used {
        return false, used;
      }
      used := used + {sorted[i].snode};
    }
    return true, used;
  }

  lemma PrefixNone(sorted: seq<Indexer>)
    ensures PrefixOk(sorted, 0, {})
  {}

  lemma PrefixMore(sorted: seq<Indexer>, i: nat, nodes: set<string>)
    requires i < |sorted| && PrefixOk(sorted, i, nodes) && Ordered(sorted, IndexerLe)
    ensures (i > 0 && sorted[i - 1].id == sorted[i].id) || sorted[i].snode in nodes ==> Clash(sorted)
    ensures !(i > 0 && sorted[i - 1].id == sorted[i].id) && sorted[i].snode !in nodes ==> PrefixOk(sorted, i + 1, nodes + {sorted[i].snode})
  {
    if i > 0 && sorted[i - 1].id == sorted[i].id {
      assert Clash(sorted);
    } else if sorted[i].snode in nodes {
      var j :| 0 <= j < i && sorted[j].snode == sorted[i].snode;
      PrefixIds(sorted, i, nodes, j);
    } else if i > 0 {
      assert IndexerLe(sorted[i - 1], sorted[i]);
    }
  }

  lemma ClashRefused(given: seq<Indexer>, maxWriters: nat, sorted: seq<Indexer>, o: seq<Indexer>)
    requires multiset(sorted) == multiset(Map(LowerIndexer, given)) && Clash(sorted)
    ensures !CanonicalIndexers(given, maxWriters, o)
  {
    hide IndexerOk, LowerIndexer, Strict, Map;
    var j, i :| 0 <= j < i < |sorted| && (sorted[j].id == sorted[i].id || (sorted[j].id < sorted[i].id && sorted[j].snode == sorted[i].snode));
    if multiset(o) == multiset(sorted) {
      if sorted[j].id == sorted[i].id {
        NoStrictOrder(sorted, o, IndexerLt, j, i);
      } else {
        InPermuted(sorted, o, i);
        InPermuted(sorted, o, j);
      }
    }
  }

  method NormalizeIndexers(given: seq<Indexer>, maxWriters: nat) returns (out: Option<seq<Indexer>>)
    ensures out.Some? ==> CanonicalIndexers(given, maxWriters, out.value)
    ensures out.None? ==> forall o :: !CanonicalIndexers(given, maxWriters, o)
  {
    hide IndexerOk, LowerIndexer, CanonicalIndexers, Sort, Map, PrefixOk, Clash, Ordered;
    if given == [] {
      EmptyIndexers(maxWriters);
      return Some([]);
    }
    var lowered := LowerIndexers(given, maxWriters);
    if lowered.None? {
      return None;
    }
    var sorted := Sort(lowered.value, IndexerLe);
    SortOrdered(lowered.value, IndexerLe);
    var ok, nodes := CheckIndexers(sorted);
    if !ok {
      forall o ensures !CanonicalIndexers(given, maxWriters, o) { ClashRefused(given, maxWriters, sorted, o); }
      return None;
    }
    IndexersDone(given, maxWriters, lowered.value, sorted, nodes);
    if maxWriters < |sorted| {
      forall o ensures !CanonicalIndexers(given, maxWriters, o) { TooMany(given, maxWriters, sorted, o); }
      return None;
    }
    return Some(sorted);
  }

  lemma EmptyIndexers(maxWriters: nat)
    ensures CanonicalIndexers([], maxWriters, [])
  {
    assert Map(LowerIndexer, []) == [];
  }

  lemma PrefixIds(sorted: seq<Indexer>, i: nat, nodes: set<string>, j: nat)
    requires i < |sorted| && PrefixOk(sorted, i, nodes) && j < i && (i > 0 ==> sorted[i - 1].id != sorted[i].id) && Ordered(sorted, IndexerLe)
    ensures sorted[j].id < sorted[i].id
  {
    assert IndexerLe(sorted[j], sorted[i - 1]) || j == i - 1;
    assert IndexerLe(sorted[i - 1], sorted[i]);
  }

  lemma IndexersDone(given: seq<Indexer>, maxWriters: nat, lowered: seq<Indexer>, sorted: seq<Indexer>, nodes: set<string>)
    requires lowered == Map(LowerIndexer, given) && multiset(sorted) == multiset(lowered) && (forall e :: e in lowered ==> IndexerOk(e))
    requires PrefixOk(sorted, |sorted|, nodes)
    ensures |sorted| <= maxWriters ==> CanonicalIndexers(given, maxWriters, sorted)
  {
    hide IndexerOk, Map;
    IndexerStrict();
    OrderedNeighbours(sorted, IndexerLt);
    forall e | e in sorted ensures IndexerOk(e) { SameMembers(sorted, lowered, e); }
    forall a, b | a in sorted && b in sorted && a != b ensures a.snode != b.snode {
      var j :| 0 <= j < |sorted| && sorted[j] == a;
      var k :| 0 <= k < |sorted| && sorted[k] == b;
      assert if j < k then sorted[j].snode != sorted[k].snode else sorted[k].snode != sorted[j].snode;
    }
  }

  lemma TooMany(given: seq<Indexer>, maxWriters: nat, sorted: seq<Indexer>, o: seq<Indexer>)
    requires multiset(sorted) == multiset(Map(LowerIndexer, given)) && maxWriters < |sorted|
    ensures !CanonicalIndexers(given, maxWriters, o)
  {
    hide Map, IndexerOk, Strict;
    if multiset(o) == multiset(sorted) { assert |multiset(o)| == |multiset(sorted)|; }
  }

  // ---- stage 3 ----------------------------------------------------------------------------------------------

  predicate DomainLe(a: Domain, b: Domain) {
    a.indexer <= b.indexer
  }

  /** Stage3Params.Validate. */
  predicate Stage3Valid(p: Stage3) {
    && BoundsOk(p)
    && (forall i :: 0 <= i < |p.domains| ==> ValidNodeId(p.domains[i].domain))
    && (forall i :: 0 < i < |p.domains| ==> p.domains[i - 1].indexer < p.domains[i].indexer)
  }

  lemma BoundsFrame(p: Stage3, domains: seq<Domain>)
    ensures BoundsOk(p.(domains := domains)) <==> BoundsOk(p)
  {
    hide SwitchOn;
    var q := p.(domains := domains);
    forall name ensures SwitchOn(q, name) == SwitchOn(p, name) { SwitchFrame(p, domains, name); }
  }

  lemma SwitchFrame(p: Stage3, domains: seq<Domain>, name: string)
    ensures SwitchOn(p.(domains := domains), name) == SwitchOn(p, name)
  {}

  /** What a domain list must be for the parameter to have a canonical form. */
  ghost predicate DomainsOk(p: Stage3, indexers: seq<Indexer>) {
    && Strict(p.domains, DomainLt)
    && (forall d :: d in p.domains ==> ValidNodeId(d.domain) && Enrolled(indexers, d.indexer))
    && (p.placement ==> forall e :: e in indexers ==> NamesDomain(p, e.id))
  }

  lemma DomainsPermuted(p: Stage3, q: Stage3, indexers: seq<Indexer>)
    requires q == p.(domains := q.domains) && multiset(p.domains) == multiset(q.domains) && Ordered(p.domains, DomainLe)
    requires DomainsOk(q, indexers)
    ensures DomainsOk(p, indexers)
  {
    hide ValidNodeId, Enrolled, BoundsOk;
    forall d ensures d in p.domains <==> d in q.domains { SameMembers(p.domains, q.domains, d); }
    forall i, j | 0 <= i < j < |p.domains| ensures DomainLt(p.domains[i], p.domains[j]) {
      if !DomainLt(p.domains[i], p.domains[j]) {
        assert DomainLe(p.domains[i], p.domains[j]);
        NoStrictOrder(p.domains, q.domains, DomainLt, i, j);
      }
    }
    forall e | p.placement && e in indexers ensures NamesDomain(p, e.id) {
      assert NamesDomain(q, e.id);
      var d :| d in q.domains && d.indexer == e.id;
      assert d in p.domains;
    }
  }

  /** With its domains sorted, a parameter is canonical or has no canonical form. */
  lemma Stage3Decides(given: Stage3, tracks: bool, indexers: seq<Indexer>, sorted: seq<Domain>, o: Option<Stage3>)
    requires multiset(sorted) == multiset(given.domains) && Ordered(sorted, DomainLe)
    requires CanonicalStage3(Some(given), tracks, indexers, o)
    ensures tracks && BoundsOk(given) && DomainsOk(given.(domains := sorted), indexers)
  {
    hide ValidNodeId, Enrolled, BoundsOk, Ordered, Strict;
    BoundsFrame(given, o.value.domains);
    assert DomainsOk(o.value, indexers);
    DomainsPermuted(given.(domains := sorted), o.value, indexers);
  }

  method AllEnrolled(domains: seq<Domain>, indexers: seq<Indexer>) returns (ok: bool)
    ensures ok <==> forall d :: d in domains ==> Enrolled(indexers, d.indexer)
  {
    var enrolled: set<nat> := {};
    for i := 0 to |indexers|
      invariant forall id :: id in enrolled <==> Enrolled(indexers[..i], id)
    {
      assert indexers[..i + 1] == indexers[..i] + [indexers[i]];
      enrolled := enrolled + {indexers[i].id};
    }
    assert indexers[..|indexers|] == indexers;
    for i := 0 to |domains|
      invariant forall j :: 0 <= j < i ==> Enrolled(indexers, domains[j].indexer)
    {
      if domains[i].indexer !in enrolled {
        assert domains[i] in domains;
        return false;
      }
    }
    return true;
  }

  method AllNamed(p: Stage3, indexers: seq<Indexer>) returns (ok: bool)
    ensures ok <==> forall e :: e in indexers ==> NamesDomain(p, e.id)
  {
    for i := 0 to |indexers|
      invariant forall j :: 0 <= j < i ==> NamesDomain(p, indexers[j].id)
    {
      if !NamesDomain(p, indexers[i].id) {
        assert indexers[i] in indexers;
        return false;
      }
    }
    return true;
  }

  method NormalizeStage3(given: Option<Stage3>, tracks: bool, indexers: seq<Indexer>) returns (out: Option<Option<Stage3>>)
    ensures out.Some? ==> CanonicalStage3(given, tracks, indexers, out.value)
    ensures out.None? ==> forall o :: !CanonicalStage3(given, tracks, indexers, o)
  {
    if given.None? {
      return Some(None);
    }
    var sorted := Sort(given.value.domains, DomainLe);
    SortOrdered(given.value.domains, DomainLe);
    var p := given.value.(domains := sorted);
    forall o | CanonicalStage3(given, tracks, indexers, o) ensures tracks && BoundsOk(given.value) && DomainsOk(p, indexers) {
      Stage3Decides(given.value, tracks, indexers, sorted, o);
    }
    BoundsFrame(given.value, sorted);
    ValidDomains(p, indexers);
    hide ValidNodeId, Enrolled, BoundsOk, Ordered, Strict, Sort, NamesDomain, SwitchOn;
    if !Stage3Valid(p) {
      return None;
    }
    if !tracks {
      return None;
    }
    var enrolled := AllEnrolled(sorted, indexers);
    if !enrolled {
      return None;
    }
    if p.placement {
      var named := AllNamed(p, indexers);
      if !named {
        return None;
      }
    }
    return Some(Some(p));
  }

  /** Validate's list check is the strict order. */
  lemma ValidDomains(p: Stage3, indexers: seq<Indexer>)
    ensures BoundsOk(p) && DomainsOk(p, indexers) ==> Stage3Valid(p)
    ensures Stage3Valid(p) ==> Strict(p.domains, DomainLt) && forall d :: d in p.domains ==> ValidNodeId(d.domain)
  {
    hide BoundsOk, ValidNodeId;
    if Stage3Valid(p) {
      DomainStrict();
      OrderedNeighbours(p.domains, DomainLt);
    }
    if DomainsOk(p, indexers) {
      forall i | 0 <= i < |p.domains| ensures ValidNodeId(p.domains[i].domain) { assert p.domains[i] in p.domains; }
      forall i | 0 < i < |p.domains| ensures p.domains[i - 1].indexer < p.domains[i].indexer {
        assert DomainLt(p.domains[i - 1], p.domains[i]);
      }
    }
  }

  // ---- verifiers ----------------------------------------------------------------------------------------------

  predicate VerifierLe(a: Verifier, b: Verifier) {
    StringLe(a.nodeId, b.nodeId)
  }

  lemma VerifierOrder()
    ensures Preorder(VerifierLe)
  {
    StringOrder();
  }

  /** Stage3Params.FailureDomain: the first entry for the indexer, else empty. */
  function FailureDomain(domains: seq<Domain>, id: nat): string {
    if domains == [] then "" else if domains[0].indexer == id then domains[0].domain else FailureDomain(domains[1..], id)
  }

  lemma {:induction false} LookupFinds(domains: seq<Domain>, id: nat, domain: string)
    requires Strict(domains, DomainLt) && domain != ""
    ensures FailureDomain(domains, id) == domain <==> Domain(id, domain) in domains
  {
    if domains != [] {
      DomainStrict();
      StrictTail(domains, DomainLt);
      LookupFinds(domains[1..], id, domain);
      forall d | d in domains[1..] ensures d.indexer > domains[0].indexer {
        var i :| 0 <= i < |domains[1..]| && domains[1..][i] == d;
        assert DomainLt(domains[0], domains[i + 1]);
      }
    }
  }

  lemma BadVerifier(given: seq<Verifier>, indexers: seq<Indexer>, stage3: Option<Stage3>, v: Verifier, o: seq<Verifier>)
    requires v in Map(LowerVerifier, given) && (!VerifierOk(v) || (IsMember(v) && !HostedOk(v, indexers, stage3)))
    ensures !CanonicalVerifiers(given, indexers, stage3, o)
  {
    hide VerifierOk, LowerVerifier, Strict, Map, HostedOk;
    if multiset(o) == multiset(Map(LowerVerifier, given)) { SameMembers(o, Map(LowerVerifier, given), v); }
  }

  method LowerVerifiers(given: seq<Verifier>, ghost indexers: seq<Indexer>, ghost stage3: Option<Stage3>) returns (lowered: Option<seq<Verifier>>)
    ensures lowered.Some? ==> lowered.value == Map(LowerVerifier, given) && forall v :: v in lowered.value ==> VerifierOk(v)
    ensures lowered.None? ==> forall o :: !CanonicalVerifiers(given, indexers, stage3, o)
  {
    hide VerifierOk, LowerVerifier, CanonicalVerifiers;
    var out: seq<Verifier> := [];
    for i := 0 to |given|
      invariant out == Map(LowerVerifier, given)[..i]
      invariant forall v :: v in out ==> VerifierOk(v)
    {
      var v := LowerVerifier(given[i]);
      if !VerifierOk(v) {
        assert Map(LowerVerifier, given)[i] == v;
        forall o ensures !CanonicalVerifiers(given, indexers, stage3, o) { BadVerifier(given, indexers, stage3, v, o); }
        return None;
      }
      out := out + [v];
    }
    return Some(out);
  }

  /** Two entries share a node id, a key or, as members, a signer. */
  predicate Same(a: Verifier, b: Verifier) {
    a.nodeId == b.nodeId || a.pubkey == b.pubkey || (IsMember(a) && IsMember(b) && a.signer == b.signer)
  }

  ghost predicate SomeSame(sorted: seq<Verifier>, n: nat)
    requires n <= |sorted|
  {
    exists j, i :: 0 <= j < i < n && Same(sorted[j], sorted[i])
  }

  ghost predicate KeyUsed(sorted: seq<Verifier>, i: nat, key: string)
    requires i <= |sorted|
  {
    exists j :: 0 <= j < i && sorted[j].pubkey == key
  }

  ghost predicate SignerUsed(sorted: seq<Verifier>, i: nat, signer: string)
    requires i <= |sorted|
  {
    exists j :: 0 <= j < i && IsMember(sorted[j]) && sorted[j].signer == signer
  }

  ghost predicate Used(sorted: seq<Verifier>, i: nat, keys: set<string>, signers: set<string>)
    requires i <= |sorted|
  {
    (forall k :: k in keys <==> KeyUsed(sorted, i, k)) && (forall k :: k in signers <==> SignerUsed(sorted, i, k))
  }

  lemma UsedGrows(sorted: seq<Verifier>, i: nat, keys: set<string>, signers: set<string>)
    requires i < |sorted| && Used(sorted, i, keys, signers)
    ensures Used(sorted, i + 1, keys + {sorted[i].pubkey}, if IsMember(sorted[i]) then signers + {sorted[i].signer} else signers)
  {
    forall k ensures KeyUsed(sorted, i + 1, k) <==> KeyUsed(sorted, i, k) || k == sorted[i].pubkey {}
    forall k ensures SignerUsed(sorted, i + 1, k) <==> SignerUsed(sorted, i, k) || (IsMember(sorted[i]) && k == sorted[i].signer) {}
  }

  lemma SameMore(sorted: seq<Verifier>, i: nat, keys: set<string>, signers: set<string>)
    requires i < |sorted| && Used(sorted, i, keys, signers) && Ordered(sorted, VerifierLe) && !SomeSame(sorted, i)
    ensures SomeSame(sorted, i + 1) <==>
      || (i > 0 && sorted[i - 1].nodeId == sorted[i].nodeId) || sorted[i].pubkey in keys
      || (IsMember(sorted[i]) && sorted[i].signer in signers)
  {
    hide VerifierLe;
    var v := sorted[i];
    if v.pubkey in keys {
      assert KeyUsed(sorted, i, v.pubkey);
      var j :| 0 <= j < i && sorted[j].pubkey == v.pubkey;
      assert Same(sorted[j], sorted[i]);
    } else if IsMember(v) && v.signer in signers {
      assert SignerUsed(sorted, i, v.signer);
      var j :| 0 <= j < i && IsMember(sorted[j]) && sorted[j].signer == v.signer;
      assert Same(sorted[j], sorted[i]);
    } else if i > 0 && sorted[i - 1].nodeId == v.nodeId {
      assert Same(sorted[i - 1], sorted[i]);
    } else {
      forall j | 0 <= j < i ensures !Same(sorted[j], v) {
        if sorted[j].nodeId == v.nodeId { SameBetween(sorted, j, i); }
        assert !KeyUsed(sorted, i, v.pubkey);
        assert IsMember(v) ==> !SignerUsed(sorted, i, v.signer);
      }
    }
  }

  lemma SameBetween(sorted: seq<Verifier>, j: nat, i: nat)
    requires j < i < |sorted| && Ordered(sorted, VerifierLe) && sorted[j].nodeId == sorted[i].nodeId
    ensures sorted[i - 1].nodeId == sorted[i].nodeId
  {
    if j < i - 1 {
      assert VerifierLe(sorted[j], sorted[i - 1]) && VerifierLe(sorted[i - 1], sorted[i]);
      StringLeTotal(sorted[i - 1].nodeId, sorted[i].nodeId);
    }
  }

  method CheckVerifiers(sorted: seq<Verifier>) returns (ok: bool)
    requires Ordered(sorted, VerifierLe)
    ensures ok <==> !SomeSame(sorted, |sorted|)
  {
    hide Used, SomeSame, Ordered;
    var keys: set<string>, signers: set<string> := {}, {};
    NoneUsed(sorted);
    for i := 0 to |sorted|
      invariant Used(sorted, i, keys, signers) && !SomeSame(sorted, i)
    {
      SameMore(sorted, i, keys, signers);
      UsedGrows(sorted, i, keys, signers);
      SameStays(sorted, i + 1);
      var v := sorted[i];
      if i > 0 && sorted[i - 1].nodeId == v.nodeId {
        return false;
      }
      if v.pubkey in keys {
        return false;
      }
      keys := keys + {v.pubkey};
      if IsMember(v) {
        if v.signer in signers {
          return false;
        }
        signers := signers + {v.signer};
      }
    }
    return true;
  }

  lemma NoneUsed(sorted: seq<Verifier>)
    ensures Used(sorted, 0, {}, {}) && !SomeSame(sorted, 0)
  {}

  lemma SameStays(sorted: seq<Verifier>, n: nat)
    requires n <= |sorted|
    ensures SomeSame(sorted, n) ==> SomeSame(sorted, |sorted|)
  {}

  /** Entries that clash leave no canonical form. */
  lemma SameRefused(given: seq<Verifier>, indexers: seq<Indexer>, stage3: Option<Stage3>, sorted: seq<Verifier>, o: seq<Verifier>)
    requires multiset(sorted) == multiset(Map(LowerVerifier, given)) && SomeSame(sorted, |sorted|)
    ensures !CanonicalVerifiers(given, indexers, stage3, o)
  {
    hide VerifierOk, HostedOk, Map, Strict;
    var j, i :| 0 <= j < i < |sorted| && Same(sorted[j], sorted[i]);
    if multiset(o) == multiset(sorted) {
      InPermuted(sorted, o, i);
      InPermuted(sorted, o, j);
      if sorted[j].nodeId == sorted[i].nodeId {
        NoStrictOrder(sorted, o, VerifierLt, j, i);
      } else {
        assert sorted[j] != sorted[i];
      }
    }
  }

  /** A sorted list without clashes is in strict order. */
  lemma NoneSameStrict(sorted: seq<Verifier>)
    requires Ordered(sorted, VerifierLe) && !SomeSame(sorted, |sorted|)
    ensures Strict(sorted, VerifierLt)
    ensures forall a, b :: a in sorted && b in sorted && a != b ==> !Same(a, b)
  {
    forall i, j | 0 <= i < j < |sorted| ensures VerifierLt(sorted[i], sorted[j]) {
      assert VerifierLe(sorted[i], sorted[j]) && !Same(sorted[i], sorted[j]);
    }
    forall a, b | a in sorted && b in sorted && a != b ensures !Same(a, b) {
      var i :| 0 <= i < |sorted| && sorted[i] == a;
      var j :| 0 <= j < |sorted| && sorted[j] == b;
      assert if i < j then !Same(sorted[i], sorted[j]) else !Same(sorted[j], sorted[i]);
    }
  }

  method CheckHosts(sorted: seq<Verifier>, indexers: seq<Indexer>, stage3: Option<Stage3>) returns (bad: Option<Verifier>)
    requires (forall v :: v in sorted ==> VerifierOk(v)) && (stage3.Some? ==> Strict(stage3.value.domains, DomainLt))
    ensures bad.None? ==> forall v :: v in sorted && IsMember(v) ==> HostedOk(v, indexers, stage3)
    ensures bad.Some? ==> bad.value in sorted && IsMember(bad.value) && !HostedOk(bad.value, indexers, stage3)
  {
    hide Strict, Enrolled, ValidAddress, Blank;
    var hosts, snodes := EnrolledSets(indexers);
    for i := 0 to |sorted|
      invariant forall j :: 0 <= j < i && IsMember(sorted[j]) ==> HostedOk(sorted[j], indexers, stage3)
    {
      var v := sorted[i];
      assert v in sorted;
      if IsMember(v) {
        var host := v.host.value;
        if host !in hosts || v.nodeId in snodes || stage3.None? {
          return Some(v);
        }
        LookupFinds(stage3.value.domains, host, v.domain);
        if FailureDomain(stage3.value.domains, host) != v.domain {
          return Some(v);
        }
      }
    }
    return None;
  }

  method EnrolledSets(indexers: seq<Indexer>) returns (hosts: set<nat>, snodes: set<string>)
    ensures forall id :: id in hosts <==> Enrolled(indexers, id)
    ensures forall n :: n in snodes <==> exists e :: e in indexers && e.snode == n
  {
    hosts, snodes := {}, {};
    for i := 0 to |indexers|
      invariant forall id :: id in hosts <==> Enrolled(indexers[..i], id)
      invariant forall n :: n in snodes <==> exists e :: e in indexers[..i] && e.snode == n
    {
      assert indexers[..i + 1] == indexers[..i] + [indexers[i]];
      hosts, snodes := hosts + {indexers[i].id}, snodes + {indexers[i].snode};
    }
    assert indexers[..|indexers|] == indexers;
  }

  method NormalizeVerifiers(given: seq<Verifier>, indexers: seq<Indexer>, stage3: Option<Stage3>) returns (out: Option<seq<Verifier>>)
    requires stage3.Some? ==> Strict(stage3.value.domains, DomainLt)
    ensures out.Some? ==> CanonicalVerifiers(given, indexers, stage3, out.value)
    ensures out.None? ==> forall o :: !CanonicalVerifiers(given, indexers, stage3, o)
  {
    hide VerifierOk, HostedOk, LowerVerifier, CanonicalVerifiers, Sort, Map, SomeSame, Ordered, Strict;
    if given == [] {
      EmptyVerifiers(indexers, stage3);
      return Some([]);
    }
    var lowered := LowerVerifiers(given, indexers, stage3);
    if lowered.None? {
      return None;
    }
    VerifierOrder();
    var sorted := Sort(lowered.value, VerifierLe);
    SortOrdered(lowered.value, VerifierLe);
    forall v ensures v in sorted <==> v in lowered.value { SameMembers(sorted, lowered.value, v); }
    var ok := CheckVerifiers(sorted);
    if !ok {
      forall o ensures !CanonicalVerifiers(given, indexers, stage3, o) { SameRefused(given, indexers, stage3, sorted, o); }
      return None;
    }
    var bad := CheckHosts(sorted, indexers, stage3);
    if bad.Some? {
      forall o ensures !CanonicalVerifiers(given, indexers, stage3, o) { BadVerifier(given, indexers, stage3, bad.value, o); }
      return None;
    }
    VerifiersDone(given, indexers, stage3, sorted);
    return Some(sorted);
  }

  lemma EmptyVerifiers(indexers: seq<Indexer>, stage3: Option<Stage3>)
    ensures CanonicalVerifiers([], indexers, stage3, [])
  {
    assert Map(LowerVerifier, []) == [];
  }

  lemma VerifiersDone(given: seq<Verifier>, indexers: seq<Indexer>, stage3: Option<Stage3>, sorted: seq<Verifier>)
    requires multiset(sorted) == multiset(Map(LowerVerifier, given)) && Ordered(sorted, VerifierLe) && !SomeSame(sorted, |sorted|)
    requires forall v :: v in sorted ==> VerifierOk(v) && (IsMember(v) ==> HostedOk(v, indexers, stage3))
    ensures CanonicalVerifiers(given, indexers, stage3, sorted)
  {
    hide VerifierOk, HostedOk, Map, Ordered, Strict, SomeSame;
    NoneSameStrict(sorted);
  }

  // ---- the update ------------------------------------------------------------------------------------------------

  /** Returns the canonical form, or nothing if there is none. */
  method NormalizeConsensusParamsUpdate(u: Update) returns (out: Option<Update>)
    ensures out.Some? ==> CanonicalForm(u, out.value)
    ensures out.None? ==> forall o :: !CanonicalForm(u, o)
  {
    hide CanonicalAddresses, CanonicalIndexers, CanonicalVerifiers, HeaderOk, RegistryOk, CanonicalStage3,
         LowerRegistry;
    if !HeaderOk(u) {
      return None;
    }
    var addresses := NormalizeAddresses(u.addresses);
    if addresses.None? {
      return None;
    }
    var registry := LowerRegistry(u.registry);
    if registry.Some? && !RegistryOk(registry.value) {
      return None;
    }
    var indexers := NormalizeIndexers(u.indexers, u.maxWriters);
    if indexers.None? {
      return None;
    }
    forall o | CanonicalForm(u, o) ensures o.indexers == indexers.value { SameIndexers(u, o.indexers, indexers.value); }
    var stage3 := NormalizeStage3(u.stage3, u.tracks, indexers.value);
    if stage3.None? {
      return None;
    }
    forall o | CanonicalForm(u, o) ensures o.stage3 == stage3.value { SameStage3(u, indexers.value, o.stage3, stage3.value); }
    assert stage3.value.Some? ==> Strict(stage3.value.value.domains, DomainLt) by { Stage3Strict(u, indexers.value, stage3.value); }
    var verifiers := NormalizeVerifiers(u.verifiers, indexers.value, stage3.value);
    if verifiers.None? {
      return None;
    }
    return Some(u.(addresses := addresses.value, registry := registry, indexers := indexers.value,
                   verifiers := verifiers.value, stage3 := stage3.value));
  }

  lemma SameIndexers(u: Update, a: seq<Indexer>, b: seq<Indexer>)
    requires CanonicalIndexers(u.indexers, u.maxWriters, a) && CanonicalIndexers(u.indexers, u.maxWriters, b)
    ensures a == b
  {
    IndexerStrict();
    hide IndexerOk, Map, Strict;
    SamePermuted(a, b, IndexerLt);
  }

  lemma SameStage3(u: Update, indexers: seq<Indexer>, a: Option<Stage3>, b: Option<Stage3>)
    requires CanonicalStage3(u.stage3, u.tracks, indexers, a) && CanonicalStage3(u.stage3, u.tracks, indexers, b)
    ensures a == b
  {
    DomainStrict();
    hide BoundsOk, Enrolled, NamesDomain, ValidNodeId, Strict;
    if a.Some? { SamePermuted(a.value.domains, b.value.domains, DomainLt); }
  }

  lemma Stage3Strict(u: Update, indexers: seq<Indexer>, a: Option<Stage3>)
    requires CanonicalStage3(u.stage3, u.tracks, indexers, a)
    ensures a.Some? ==> Strict(a.value.domains, DomainLt)
  {}
}
