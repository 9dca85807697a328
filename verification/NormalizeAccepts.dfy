/** Which updates the normaliser accepts, as conditions on the update as it is
    given: neither lowercased nor sorted. */
module NormalizeAccepts {
  import opened Options
  import opened Sorting
  import opened Canonical
  import opened Normalizer
  import opened Normalize

  // ---- addresses ------------------------------------------------------------------------------

  predicate AnyHexDigit(c: char) {
    '0' <= c <= '9' || 'a' <= c <= 'f' || 'A' <= c <= 'F'
  }

  /** 0x and forty hex digits, in any case. */
  predicate AddressText(s: string) {
    |s| == 42 && s[0] == '0' && s[1] in {'x', 'X'} && forall i :: 2 <= i < 42 ==> AnyHexDigit(s[i])
  }

  predicate NonZeroAddress(s: string) {
    AddressText(s) && exists i :: 2 <= i < 42 && s[i] != '0'
  }

  lemma LowerAddress(s: string)
    ensures AddressForm(Lower(s)) <==> AddressText(s)
    ensures ValidAddress(Lower(s)) <==> NonZeroAddress(s)
  {
    if |s| == 42 {
      forall i | 0 <= i < 42 ensures Lower(s)[i] == LowerChar(s[i]) {}
      forall i | 2 <= i < 42 ensures HexDigit(Lower(s)[i]) <==> AnyHexDigit(s[i]) { assert Lower(s)[i] == LowerChar(s[i]); }
      assert Lower(s)[0] == LowerChar(s[0]) && Lower(s)[1] == LowerChar(s[1]);
      if NonZeroAddress(s) {
        var i :| 2 <= i < 42 && s[i] != '0';
        assert Lower(s)[i] != '0';
      }
      if ValidAddress(Lower(s)) {
        var i :| 2 <= i < 42 && Lower(s)[i] != '0';
        assert s[i] != '0';
      }
    }
  }

  // ---- what is accepted -------------------------------------------------------------------------

  predicate HeaderAccepted(u: Update) {
    && !Blank(u.networkId) && !Blank(u.genesisId) && !Blank(u.previousDigest) && u.maxWriters >= 1 && u.capability in {0, 1}
    && (u.lanes.Some? ==> u.lanes.value >= 1)
    && (u.registry.Some? ==>
      && u.registry.value.chainId >= 1 && AddressText(u.registry.value.contract) && u.registry.value.activationBlock >= 1
      && (u.registry.value.confirmation == "finalized" || u.registry.value.confirmation == "safe"))
  }

  predicate AddressesAccepted(addresses: seq<string>) {
    addresses != [] && forall i :: 0 <= i < |addresses| ==> NonZeroAddress(addresses[i])
  }

  predicate IndexersAccepted(indexers: seq<Indexer>, maxWriters: nat) {
    && |indexers| <= maxWriters
    && (forall i :: 0 <= i < |indexers| ==>
      && indexers[i].activationBlock >= 1 && NonZeroAddress(indexers[i].signer)
      && ValidNodeId(indexers[i].snode) && !Blank(indexers[i].enrollment))
    && (forall i, j :: 0 <= i < j < |indexers| ==> indexers[i].id != indexers[j].id && indexers[i].snode != indexers[j].snode)
  }

  predicate BoundsAccepted(p: Stage3) {
    && p.groupSize >= 1 && p.minSafeCopies >= 1 && p.lagLow >= 1 && p.lagLow < p.maxLag && p.evidenceTimeout >= 1
    && p.maxPerPartition >= 1 && p.maxPerTable >= 1
    && (p.evictionVoiding ==> p.purge) && (p.ownerAware ==> p.evictionVoiding) && (p.placement ==> p.ownerAware)
    && (p.reselection ==> p.placement) && (p.checkpoints ==> p.reselection) && (p.narrowedDrain ==> p.checkpoints)
    && (p.minSafeCopies >= 2 || p.strictCopies ==> p.narrowedDrain)
  }

  predicate DomainsAccepted(p: Stage3, indexers: seq<Indexer>) {
    && (forall i :: 0 <= i < |p.domains| ==>
      ValidNodeId(p.domains[i].domain) && exists e :: e in indexers && e.id == p.domains[i].indexer)
    && (forall i, j :: 0 <= i < j < |p.domains| ==> p.domains[i].indexer != p.domains[j].indexer)
    && (p.placement ==> forall e :: e in indexers ==> exists d :: d in p.domains && d.indexer == e.id)
  }

  /** A pool entry has no stage-3 field; a member has all of them and is hosted by
      an enrolled indexer in its failure domain. */
  predicate VerifierAccepted(v: Verifier, indexers: seq<Indexer>, stage3: Option<Stage3>) {
    && !Blank(v.nodeId) && |v.pubkey| == 32
    && match v.host
       case None =>
         && v.signer == "" && v.consent == "" && v.weight == 0 && v.domain == ""
         && !v.verify && !v.replicate && !v.counts && !v.sharedRmt
       case Some(host) =>
         && NonZeroAddress(v.signer) && !Blank(v.consent) && v.weight >= 1 && v.weight <= 64 && ValidNodeId(v.domain)
         && (v.verify || v.replicate) && (v.counts ==> v.replicate) && (v.verify ==> v.sharedRmt)
         && (exists e :: e in indexers && e.id == host) && (forall e :: e in indexers ==> e.snode != v.nodeId)
         && stage3.Some? && Domain(host, v.domain) in stage3.value.domains
  }

  predicate VerifiersAccepted(vs: seq<Verifier>, indexers: seq<Indexer>, stage3: Option<Stage3>) {
    && (forall i :: 0 <= i < |vs| ==> VerifierAccepted(vs[i], indexers, stage3))
    && (forall i, j :: 0 <= i < j < |vs| ==>
      && vs[i].nodeId != vs[j].nodeId && vs[i].pubkey != vs[j].pubkey
      && (vs[i].host.Some? && vs[j].host.Some? ==> Lower(vs[i].signer) != Lower(vs[j].signer)))
  }

  predicate Acceptable(u: Update) {
    && HeaderAccepted(u) && AddressesAccepted(u.addresses) && IndexersAccepted(u.indexers, u.maxWriters)
    && (u.stage3.Some? ==> u.tracks && BoundsAccepted(u.stage3.value) && DomainsAccepted(u.stage3.value, u.indexers))
    && VerifiersAccepted(u.verifiers, u.indexers, u.stage3)
  }

  // ---- header and addresses -------------------------------------------------------------------------

  lemma HeaderExactly(u: Update)
    ensures HeaderAccepted(u) <==> HeaderOk(u) && (LowerRegistry(u.registry).Some? ==> RegistryOk(LowerRegistry(u.registry).value))
  {
    hide Lower, Blank, AddressForm, AddressText;
    if u.registry.Some? { LowerAddress(u.registry.value.contract); }
  }

  lemma AddressesExactly(given: seq<string>, out: seq<string>)
    ensures CanonicalAddresses(given, out) ==> AddressesAccepted(given)
    ensures AddressesAccepted(given) ==> CanonicalAddresses(given, Compact(Sort(Map(Lower, given), StringLe)))
  {
    hide ValidAddress, NonZeroAddress, Lower, Strict, Compact, Sort;
    forall i | 0 <= i < |given| ensures ValidAddress(Map(Lower, given)[i]) <==> NonZeroAddress(given[i]) { LowerAddress(given[i]); }
    forall i | 0 <= i < |given| ensures Map(Lower, given)[i] in Map(Lower, given) {}
    if AddressesAccepted(given) {
      var lowered := Map(Lower, given);
      StringOrder();
      SortOrdered(lowered, StringLe);
      CompactStrict(Sort(lowered, StringLe));
      forall a ensures a in Compact(Sort(lowered, StringLe)) <==> a in lowered {
        CompactMembers(Sort(lowered, StringLe), a);
        SameMembers(Sort(lowered, StringLe), lowered, a);
      }
    }
  }

  // ---- indexers ----------------------------------------------------------------------------------------

  lemma IndexerExactly(e: Indexer)
    ensures IndexerOk(LowerIndexer(e)) <==>
      e.activationBlock >= 1 && NonZeroAddress(e.signer) && ValidNodeId(e.snode) && !Blank(e.enrollment)
  {
    hide ValidAddress, NonZeroAddress, Lower;
    LowerAddress(e.signer);
  }

  lemma LoweredClash(given: seq<Indexer>, maxWriters: nat, out: seq<Indexer>, i: nat, j: nat)
    requires CanonicalIndexers(given, maxWriters, out) && i < j < |given|
    ensures given[i].id != given[j].id && given[i].snode != given[j].snode
  {
    hide IndexerOk, Strict, Lower;
    var lowered := Map(LowerIndexer, given);
    assert lowered[i].id == given[i].id && lowered[j].id == given[j].id;
    assert lowered[i].snode == given[i].snode && lowered[j].snode == given[j].snode;
    if given[i].id == given[j].id {
      NoStrictOrder(lowered, out, IndexerLt, i, j);
    } else {
      InPermuted(lowered, out, i);
      InPermuted(lowered, out, j);
    }
  }

  lemma IndexersAreAccepted(given: seq<Indexer>, maxWriters: nat, out: seq<Indexer>)
    requires CanonicalIndexers(given, maxWriters, out)
    ensures IndexersAccepted(given, maxWriters)
  {
    hide IndexerOk, Strict, LowerIndexer, NonZeroAddress, ValidNodeId, Blank;
    var lowered := Map(LowerIndexer, given);
    assert |multiset(out)| == |multiset(lowered)|;
    forall i | 0 <= i < |given|
      ensures given[i].activationBlock >= 1 && NonZeroAddress(given[i].signer) && ValidNodeId(given[i].snode) && !Blank(given[i].enrollment)
    {
      InPermuted(lowered, out, i);
      IndexerExactly(given[i]);
    }
    forall i, j | 0 <= i < j < |given| ensures given[i].id != given[j].id && given[i].snode != given[j].snode {
      LoweredClash(given, maxWriters, out, i, j);
    }
  }

  /** Entries of a permutation come from entries of the list. */
  lemma From<T>(s: seq<T>, o: seq<T>, j: nat, k: nat) returns (i: nat, l: nat)
    requires multiset(s) == multiset(o) && j < k < |o|
    ensures i < |s| && l < |s| && i != l && s[i] == o[j] && s[l] == o[k]
  {
    InPermuted(o, s, j);
    InPermuted(o, s, k);
    if o[j] == o[k] {
      TwoCopies(o, j, k);
      TwicePositions(s, o[j]);
      var p, q :| 0 <= p < q < |s| && s[p] == o[j] && s[q] == o[j];
      i, l := p, q;
    } else {
      i :| i < |s| && s[i] == o[j];
      l :| l < |s| && s[l] == o[k];
    }
  }

  lemma IndexersHaveForm(given: seq<Indexer>, maxWriters: nat) returns (out: seq<Indexer>)
    requires IndexersAccepted(given, maxWriters)
    ensures CanonicalIndexers(given, maxWriters, out)
  {
    hide IndexerOk, Strict, LowerIndexer, NonZeroAddress, ValidNodeId, Blank, Sort;
    var lowered := Map(LowerIndexer, given);
    out := Sort(lowered, IndexerLe);
    SortOrdered(lowered, IndexerLe);
    assert |multiset(out)| == |multiset(lowered)|;
    forall e | e in lowered ensures IndexerOk(e) {
      var i :| 0 <= i < |given| && lowered[i] == e;
      IndexerExactly(given[i]);
    }
    forall j, k | 0 <= j < k < |out| ensures out[j].id < out[k].id && out[j].snode != out[k].snode {
      var i, l := From(lowered, out, j, k);
      LoweredFields(given, i);
      LoweredFields(given, l);
      assert IndexerLe(out[j], out[k]);
    }
    var nodes := set j | 0 <= j < |out| :: out[j].snode;
    assert PrefixOk(out, |out|, nodes);
    IndexersDone(given, maxWriters, lowered, out, nodes);
  }

  lemma LoweredFields(given: seq<Indexer>, i: nat)
    requires i < |given|
    ensures Map(LowerIndexer, given)[i].id == given[i].id && Map(LowerIndexer, given)[i].snode == given[i].snode
  {
    assert Map(LowerIndexer, given)[i] == LowerIndexer(given[i]);
  }

  ghost predicate IsSNode(indexers: seq<Indexer>, n: string) {
    exists e :: e in indexers && e.snode == n
  }

  ghost predicate SameEnrolled(a: seq<Indexer>, b: seq<Indexer>) {
    (forall id :: Enrolled(a, id) <==> Enrolled(b, id)) && (forall n :: IsSNode(a, n) <==> IsSNode(b, n))
  }

  /** Ids and SNodes of a canonical list are those of the list it is for. */
  lemma EnrolledAlike(given: seq<Indexer>, maxWriters: nat, out: seq<Indexer>)
    requires CanonicalIndexers(given, maxWriters, out)
    ensures SameEnrolled(out, given)
  {
    hide IndexerOk, Strict;
    var lowered := Map(LowerIndexer, given);
    forall e | e in out ensures exists g :: g in given && g.id == e.id && g.snode == e.snode {
      SameMembers(out, lowered, e);
      var g := MapMember(LowerIndexer, given, e);
    }
    forall g | g in given ensures exists e :: e in out && g.id == e.id && g.snode == e.snode {
      var i :| 0 <= i < |given| && given[i] == g;
      LoweredFields(given, i);
      InPermuted(lowered, out, i);
    }
  }

  // ---- stage 3 -----------------------------------------------------------------------------------------

  lemma BoundsExactly(p: Stage3)
    ensures BoundsOk(p) <==> BoundsAccepted(p)
  {
    hide SwitchesOk;
    SwitchOrder(p);
  }

  ghost predicate AllPlaced(p: Stage3, indexers: seq<Indexer>) {
    forall e :: e in indexers ==> NamesDomain(p, e.id)
  }

  ghost predicate DomainsListed(p: Stage3, indexers: seq<Indexer>) {
    forall d :: d in p.domains ==> ValidNodeId(d.domain) && Enrolled(indexers, d.indexer)
  }

  ghost predicate DomainsDiffer(p: Stage3) {
    forall i, j :: 0 <= i < j < |p.domains| ==> p.domains[i].indexer != p.domains[j].indexer
  }

  lemma DomainsSplit(p: Stage3, indexers: seq<Indexer>)
    ensures DomainsAccepted(p, indexers) <==> DomainsListed(p, indexers) && DomainsDiffer(p) && (p.placement ==> AllPlaced(p, indexers))
  {
    hide ValidNodeId;
    if DomainsListed(p, indexers) {
      forall i | 0 <= i < |p.domains| ensures p.domains[i] in p.domains {}
    }
    assert AllPlaced(p, indexers) <==> forall e :: e in indexers ==> exists d :: d in p.domains && d.indexer == e.id;
  }

  lemma PlacementAlike(p: Stage3, q: Stage3, a: seq<Indexer>, b: seq<Indexer>)
    requires SameEnrolled(a, b) && (forall d :: d in p.domains <==> d in q.domains) && AllPlaced(p, a)
    ensures AllPlaced(q, b)
  {
    forall e | e in b ensures NamesDomain(q, e.id) {
      assert Enrolled(b, e.id) && Enrolled(a, e.id);
      var f :| f in a && f.id == e.id;
      assert NamesDomain(p, f.id);
      var d :| d in p.domains && d.indexer == f.id;
      assert d in q.domains;
    }
  }

  lemma ListedAlike(p: Stage3, q: Stage3, a: seq<Indexer>, b: seq<Indexer>)
    requires SameEnrolled(a, b) && (forall d :: d in p.domains <==> d in q.domains) && DomainsListed(p, a)
    ensures DomainsListed(q, b)
  {
    hide Enrolled, ValidNodeId;
  }

  lemma Stage3IsAccepted(given: Stage3, tracks: bool, indexers: seq<Indexer>, from: seq<Indexer>, out: Option<Stage3>)
    requires CanonicalStage3(Some(given), tracks, indexers, out) && SameEnrolled(indexers, from)
    ensures tracks && BoundsAccepted(given) && DomainsAccepted(given, from)
  {
    hide BoundsOk, ValidNodeId, Strict, SameEnrolled, BoundsAccepted, Enrolled, NamesDomain, DomainsAccepted;
    var p := out.value;
    BoundsFrame(given, p.domains);
    BoundsExactly(given);
    DomainsAlike(p.domains, given.domains);
    ListedAlike(p, given, indexers, from);
    forall i, j | 0 <= i < j < |given.domains| ensures given.domains[i].indexer != given.domains[j].indexer {
      if given.domains[i].indexer == given.domains[j].indexer { NoStrictOrder(given.domains, p.domains, DomainLt, i, j); }
    }
    if given.placement { PlacementAlike(p, given, indexers, from); }
    DomainsSplit(given, from);
  }

  lemma EnrolledIn(a: seq<Indexer>, b: seq<Indexer>, id: nat)
    requires SameEnrolled(a, b)
    ensures Enrolled(a, id) <==> Enrolled(b, id)
  {
    hide Enrolled, IsSNode;
  }

  lemma Stage3HasForm(given: Stage3, indexers: seq<Indexer>, from: seq<Indexer>) returns (out: Stage3)
    requires BoundsAccepted(given) && DomainsAccepted(given, from) && SameEnrolled(indexers, from)
    ensures CanonicalStage3(Some(given), true, indexers, Some(out))
  {
    hide BoundsOk, ValidNodeId, Strict, SameEnrolled, BoundsAccepted, Enrolled, NamesDomain, DomainsAccepted, Sort;
    var sorted := Sort(given.domains, DomainLe);
    SortOrdered(given.domains, DomainLe);
    out := given.(domains := sorted);
    BoundsFrame(given, sorted);
    BoundsExactly(given);
    DomainsSplit(given, from);
    DomainsAlike(given.domains, sorted);
    SymmetricEnrolled(indexers, from);
    ListedAlike(given, out, from, indexers);
    forall j, k | 0 <= j < k < |sorted| ensures DomainLt(sorted[j], sorted[k]) {
      var i, l := From(given.domains, sorted, j, k);
      assert DomainLe(sorted[j], sorted[k]);
    }
    StrictOf(sorted);
    if given.placement { PlacementAlike(given, out, from, indexers); }
  }

  lemma StrictOf(domains: seq<Domain>)
    requires forall j, k :: 0 <= j < k < |domains| ==> DomainLt(domains[j], domains[k])
    ensures Strict(domains, DomainLt)
  {}

  lemma SymmetricEnrolled(a: seq<Indexer>, b: seq<Indexer>)
    requires SameEnrolled(a, b)
    ensures SameEnrolled(b, a)
  {
    hide Enrolled, IsSNode;
  }

  // ---- verifiers -----------------------------------------------------------------------------------------

  /** The two parameters name the same failure domains. */
  ghost predicate SameDomains(a: Option<Stage3>, b: Option<Stage3>) {
    (a.Some? <==> b.Some?) && (a.Some? ==> forall d :: d in a.value.domains <==> d in b.value.domains)
  }

  lemma VerifierExactly(v: Verifier, indexers: seq<Indexer>, from: seq<Indexer>, stage3: Option<Stage3>, given: Option<Stage3>)
    requires SameEnrolled(indexers, from) && SameDomains(stage3, given)
    ensures VerifierAccepted(v, from, given) <==>
      VerifierOk(LowerVerifier(v)) && (IsMember(v) ==> HostedOk(LowerVerifier(v), indexers, stage3))
  {
    hide ValidAddress, NonZeroAddress, Lower, Blank, ValidNodeId;
    LowerAddress(v.signer);
    LowerEmpty(v.signer);
    if IsMember(v) {
      EnrolledIn(indexers, from, v.host.value);
      assert (forall e :: e in indexers ==> e.snode != v.nodeId) <==> !IsSNode(indexers, v.nodeId);
      assert (forall e :: e in from ==> e.snode != v.nodeId) <==> !IsSNode(from, v.nodeId);
    }
  }

  lemma LowerEmpty(s: string)
    ensures Lower(s) == "" <==> s == ""
  {}

  lemma LoweredVerifier(given: seq<Verifier>, i: nat)
    requires i < |given|
    ensures Map(LowerVerifier, given)[i] == given[i].(signer := Lower(given[i].signer))
  {
    assert Map(LowerVerifier, given)[i] == LowerVerifier(given[i]);
  }

  /** The two entries share a node id, a key or, as members, a signer. */
  predicate GivenSame(a: Verifier, b: Verifier) {
    a.nodeId == b.nodeId || a.pubkey == b.pubkey || (a.host.Some? && b.host.Some? && Lower(a.signer) == Lower(b.signer))
  }

  lemma VerifiersClash(given: seq<Verifier>, indexers: seq<Indexer>, stage3: Option<Stage3>, out: seq<Verifier>, i: nat, j: nat)
    requires CanonicalVerifiers(given, indexers, stage3, out) && i < j < |given|
    ensures !GivenSame(given[i], given[j])
  {
    hide VerifierOk, HostedOk, Strict, Lower;
    var lowered := Map(LowerVerifier, given);
    LoweredVerifier(given, i);
    LoweredVerifier(given, j);
    InPermuted(lowered, out, i);
    InPermuted(lowered, out, j);
    if lowered[i].nodeId == lowered[j].nodeId {
      NoStrictOrder(lowered, out, VerifierLt, i, j);
    }
  }

  lemma VerifiersAreAccepted(given: seq<Verifier>, indexers: seq<Indexer>, from: seq<Indexer>, stage3: Option<Stage3>, p: Option<Stage3>,
                             out: seq<Verifier>)
    requires CanonicalVerifiers(given, indexers, stage3, out) && SameEnrolled(indexers, from) && SameDomains(stage3, p)
    ensures VerifiersAccepted(given, from, p)
  {
    hide VerifierOk, HostedOk, Strict, Lower, VerifierAccepted, SameEnrolled, SameDomains;
    var lowered := Map(LowerVerifier, given);
    forall i | 0 <= i < |given| ensures VerifierAccepted(given[i], from, p) {
      InPermuted(lowered, out, i);
      VerifierExactly(given[i], indexers, from, stage3, p);
    }
    forall i, j | 0 <= i < j < |given| ensures !GivenSame(given[i], given[j]) { VerifiersClash(given, indexers, stage3, out, i, j); }
  }

  lemma VerifiersHaveForm(given: seq<Verifier>, indexers: seq<Indexer>, from: seq<Indexer>, stage3: Option<Stage3>, p: Option<Stage3>)
    returns (out: seq<Verifier>)
    requires VerifiersAccepted(given, from, p) && SameEnrolled(indexers, from) && SameDomains(stage3, p)
    ensures CanonicalVerifiers(given, indexers, stage3, out)
  {
    hide VerifierOk, HostedOk, Strict, Lower, VerifierAccepted, SameEnrolled, SameDomains, CanonicalVerifiers, Sort;
    var lowered := Map(LowerVerifier, given);
    VerifierOrder();
    out := Sort(lowered, VerifierLe);
    SortOrdered(lowered, VerifierLe);
    forall v | v in out ensures VerifierOk(v) && (IsMember(v) ==> HostedOk(v, indexers, stage3)) {
      SameMembers(out, lowered, v);
      var i :| 0 <= i < |lowered| && lowered[i] == v;
      VerifierExactly(given[i], indexers, from, stage3, p);
    }
    forall j, k | 0 <= j < k < |out| ensures !Same(out[j], out[k]) {
      var i, l := From(lowered, out, j, k);
      LoweredVerifier(given, i);
      LoweredVerifier(given, l);
      assert if i < l then !GivenSame(given[i], given[l]) else !GivenSame(given[l], given[i]);
    }
    VerifiersDone(given, indexers, stage3, out);
  }

  // ---- the update ------------------------------------------------------------------------------------------

  lemma FormIsAccepted(u: Update, out: Update)
    requires CanonicalForm(u, out)
    ensures Acceptable(u)
  {
    hide CanonicalAddresses, CanonicalIndexers, CanonicalVerifiers, HeaderOk, HeaderAccepted, AddressesAccepted, IndexersAccepted,
         BoundsAccepted, DomainsAccepted, VerifiersAccepted, LowerRegistry, RegistryOk, BoundsOk, Strict;
    HeaderExactly(u);
    AddressesExactly(u.addresses, out.addresses);
    IndexersAreAccepted(u.indexers, u.maxWriters, out.indexers);
    EnrolledAlike(u.indexers, u.maxWriters, out.indexers);
    if u.stage3.Some? {
      Stage3IsAccepted(u.stage3.value, u.tracks, out.indexers, u.indexers, out.stage3);
      DomainsAlike(u.stage3.value.domains, out.stage3.value.domains);
    }
    VerifiersAreAccepted(u.verifiers, out.indexers, u.indexers, out.stage3, u.stage3, out.verifiers);
  }

  lemma DomainsAlike(a: seq<Domain>, b: seq<Domain>)
    requires multiset(a) == multiset(b)
    ensures forall d :: d in a <==> d in b
  {
    forall d ensures d in a <==> d in b { SameMembers(a, b, d); }
  }

  lemma AcceptedHasForm(u: Update) returns (out: Update)
    requires Acceptable(u)
    ensures CanonicalForm(u, out)
  {
    hide CanonicalAddresses, CanonicalIndexers, CanonicalVerifiers, HeaderOk, HeaderAccepted, AddressesAccepted, IndexersAccepted,
         BoundsAccepted, DomainsAccepted, VerifiersAccepted, LowerRegistry, RegistryOk, BoundsOk, Strict, Compact, Sort, Map;
    HeaderExactly(u);
    AddressesExactly(u.addresses, []);
    var indexers := IndexersHaveForm(u.indexers, u.maxWriters);
    EnrolledAlike(u.indexers, u.maxWriters, indexers);
    var stage3: Option<Stage3> := None;
    if u.stage3.Some? {
      var p := Stage3HasForm(u.stage3.value, indexers, u.indexers);
      stage3 := Some(p);
      DomainsAlike(p.domains, u.stage3.value.domains);
    }
    var verifiers := VerifiersHaveForm(u.verifiers, indexers, u.indexers, stage3, u.stage3);
    out := u.(addresses := Compact(Sort(Map(Lower, u.addresses), StringLe)), registry := LowerRegistry(u.registry),
              indexers := indexers, verifiers := verifiers, stage3 := stage3);
  }

  /** Exactly these updates have a canonical form, and so are accepted. */
  lemma AcceptedExactly(u: Update)
    ensures Acceptable(u) <==> exists out :: CanonicalForm(u, out)
  {
    hide CanonicalForm, Acceptable;
    if Acceptable(u) {
      var form := AcceptedHasForm(u);
    }
    if out :| CanonicalForm(u, out) {
      FormIsAccepted(u, out);
    }
  }
}
