/** The consensus-parameter update and what its canonical form is. */
module Normalizer {
  import opened Options
  import opened Canonical

  // ---- text -----------------------------------------------------------------------------------

  function LowerChar(c: char): char {
    if 'A' <= c <= 'Z' then ((c as int) + 32) as char else c
  }

  function Lower(s: string): string {
    seq(|s|, i requires 0 <= i < |s| => LowerChar(s[i]))
  }

  lemma LowerTwice(s: string)
    ensures Lower(Lower(s)) == Lower(s)
  {}

  /** Unicode white space. */
  predicate IsSpace(c: char) {
    var n := c as int;
    9 <= n <= 13 || n in {0x20, 0x85, 0xA0, 0x1680, 0x2028, 0x2029, 0x202F, 0x205F, 0x3000} || 0x2000 <= n <= 0x200A
  }

  predicate IsControl(c: char) {
    var n := c as int;
    n < 0x20 || 0x7F <= n < 0xA0
  }

  predicate Blank(s: string) {
    forall i :: 0 <= i < |s| ==> IsSpace(s[i])
  }

  predicate ValidNodeId(s: string) {
    s != "" && forall i :: 0 <= i < |s| ==> !IsSpace(s[i]) && !IsControl(s[i])
  }

  predicate HexDigit(c: char) {
    '0' <= c <= '9' || 'a' <= c <= 'f'
  }

  /** Lowercase 0x and forty hex digits. */
  predicate AddressForm(s: string) {
    |s| == 42 && s[0] == '0' && s[1] == 'x' && forall i :: 2 <= i < 42 ==> HexDigit(s[i])
  }

  predicate ValidAddress(s: string) {
    AddressForm(s) && exists i :: 2 <= i < 42 && s[i] != '0'
  }

  // ---- the update -------------------------------------------------------------------------------

  datatype Registry = Registry(chainId: nat, contract: string, activationBlock: nat, confirmation: string)

  datatype Indexer = Indexer(id: nat, activationBlock: nat, signer: string, snode: string, enrollment: string)

  datatype Verifier = Verifier(
    nodeId: string, pubkey: string, host: Option<nat>, signer: string, consent: string, weight: nat,
    domain: string, verify: bool, replicate: bool, counts: bool, sharedRmt: bool)

  datatype Domain = Domain(indexer: nat, domain: string)

  datatype Stage3 = Stage3(
    groupSize: nat, minSafeCopies: nat, strictCopies: bool, maxLag: nat, lagLow: nat, evidenceTimeout: nat,
    maxPerPartition: nat, maxPerTable: nat, excludeQuarantined: bool, domains: seq<Domain>,
    purge: bool, evictionVoiding: bool, ownerAware: bool, placement: bool, reselection: bool, checkpoints: bool, narrowedDrain: bool)

  datatype Update = Update(
    networkId: string, genesisId: string, previousDigest: string, epoch: nat, maxWriters: nat, promotionSeq: nat,
    capability: nat, addresses: seq<string>, registry: Option<Registry>, lanes: Option<nat>,
    indexers: seq<Indexer>, verifiers: seq<Verifier>, tracks: bool, stage3: Option<Stage3>)

  // ---- single entries ------------------------------------------------------------------------------

  predicate RegistryOk(r: Registry) {
    r.chainId > 0 && AddressForm(r.contract) && r.activationBlock > 0 && r.confirmation in {"finalized", "safe"}
  }

  predicate IndexerOk(e: Indexer) {
    e.activationBlock > 0 && ValidAddress(e.signer) && ValidNodeId(e.snode) && !Blank(e.enrollment)
  }

  predicate IsMember(v: Verifier) {
    v.host.Some?
  }

  predicate VerifierOk(v: Verifier) {
    && !Blank(v.nodeId) && |v.pubkey| == 32
    && if IsMember(v) then
         && ValidAddress(v.signer) && !Blank(v.consent) && 1 <= v.weight <= 64 && ValidNodeId(v.domain)
         && (v.verify || v.replicate) && (v.counts ==> v.replicate) && (v.verify ==> v.sharedRmt)
       else v.signer == "" && v.consent == "" && v.weight == 0 && v.domain == ""
            && !v.verify && !v.replicate && !v.counts && !v.sharedRmt
  }

  const Switches: seq<string> :=
    ["purge", "eviction_voiding", "owner_aware_selection", "placement", "reselection", "checkpoints", "narrowed_drain"]

  function SwitchOn(p: Stage3, name: string): bool {
    if name == "purge" then p.purge
    else if name == "eviction_voiding" then p.evictionVoiding
    else if name == "owner_aware_selection" then p.ownerAware
    else if name == "placement" then p.placement
    else if name == "reselection" then p.reselection
    else if name == "checkpoints" then p.checkpoints
    else name == "narrowed_drain" && p.narrowedDrain
  }

  /** Each switch that is on has every earlier one on. */
  predicate SwitchesOk(p: Stage3) {
    forall i :: 0 <= i < |Switches| && SwitchOn(p, Switches[i]) ==> forall j :: 0 <= j < i ==> SwitchOn(p, Switches[j])
  }

  /** Exactly the first `k` switches are on. */
  predicate PrefixOn(p: Stage3, k: nat) {
    forall i :: 0 <= i < |Switches| ==> (SwitchOn(p, Switches[i]) <==> i < k)
  }

  /** The switches that are on are a prefix of the order. */
  lemma SwitchesArePrefix(p: Stage3)
    ensures SwitchesOk(p) <==> exists k: nat :: k <= |Switches| && PrefixOn(p, k)
  {
    hide SwitchOn;
    if SwitchesOk(p) {
      var k := 0;
      while k < |Switches| && SwitchOn(p, Switches[k])
        invariant k <= |Switches| && forall i :: 0 <= i < k ==> SwitchOn(p, Switches[i])
      {
        k := k + 1;
      }
      assert PrefixOn(p, k);
    }
  }

  lemma SwitchValues(p: Stage3)
    ensures SwitchOn(p, Switches[0]) == p.purge && SwitchOn(p, Switches[1]) == p.evictionVoiding
    ensures SwitchOn(p, Switches[2]) == p.ownerAware && SwitchOn(p, Switches[3]) == p.placement
    ensures SwitchOn(p, Switches[4]) == p.reselection && SwitchOn(p, Switches[5]) == p.checkpoints
    ensures SwitchOn(p, Switches[6]) == p.narrowedDrain && |Switches| == 7
  {}

  /** Each switch requires the one before it, in this order. */
  lemma SwitchOrder(p: Stage3)
    ensures SwitchesOk(p) <==>
      && (p.evictionVoiding ==> p.purge) && (p.ownerAware ==> p.evictionVoiding) && (p.placement ==> p.ownerAware)
      && (p.reselection ==> p.placement) && (p.checkpoints ==> p.reselection) && (p.narrowedDrain ==> p.checkpoints)
  {
    hide SwitchOn;
    SwitchValues(p);
    if SwitchesOk(p) {
      forall i | 0 < i < 7 && SwitchOn(p, Switches[i]) ensures SwitchOn(p, Switches[i - 1]) {}
    }
  }

  predicate DomainLt(a: Domain, b: Domain) {
    a.indexer < b.indexer
  }

  /** Stage3Params.Validate without its list. */
  predicate BoundsOk(p: Stage3) {
    && p.groupSize >= 1 && p.minSafeCopies >= 1 && 1 <= p.lagLow < p.maxLag && p.evidenceTimeout >= 1
    && p.maxPerPartition >= 1 && p.maxPerTable >= 1
    && SwitchesOk(p)
    && (p.minSafeCopies > 1 || p.strictCopies ==> p.checkpoints && p.narrowedDrain)
  }

  // ---- canonical forms ---------------------------------------------------------------------------------

  function Map<A, B>(f: A -> B, s: seq<A>): seq<B> {
    seq(|s|, i requires 0 <= i < |s| => f(s[i]))
  }

  function LowerIndexer(e: Indexer): Indexer {
    e.(signer := Lower(e.signer))
  }

  function LowerVerifier(v: Verifier): Verifier {
    v.(signer := Lower(v.signer))
  }

  predicate IndexerLt(a: Indexer, b: Indexer) {
    a.id < b.id
  }

  predicate VerifierLt(a: Verifier, b: Verifier) {
    StringLt(a.nodeId, b.nodeId)
  }

  ghost predicate CanonicalAddresses(given: seq<string>, out: seq<string>) {
    && given != [] && Strict(out, StringLt)
    && (forall a :: a in out ==> ValidAddress(a)) && (forall a :: a in out <==> a in Map(Lower, given))
  }

  ghost predicate CanonicalIndexers(given: seq<Indexer>, maxWriters: nat, out: seq<Indexer>) {
    && multiset(out) == multiset(Map(LowerIndexer, given)) && Strict(out, IndexerLt)
    && (forall e :: e in out ==> IndexerOk(e))
    && (forall a, b :: a in out && b in out && a != b ==> a.snode != b.snode)
    && |out| <= maxWriters
  }

  predicate Enrolled(indexers: seq<Indexer>, id: nat) {
    exists e :: e in indexers && e.id == id
  }

  predicate NamesDomain(p: Stage3, id: nat) {
    exists d :: d in p.domains && d.indexer == id
  }

  /** Everything but the failure domains is unchanged; those are sorted. */
  ghost predicate CanonicalStage3(given: Option<Stage3>, tracks: bool, indexers: seq<Indexer>, out: Option<Stage3>) {
    if given.None? then out.None?
    else
      && out.Some? && tracks
      && var p := out.value;
      && p == given.value.(domains := p.domains) && multiset(p.domains) == multiset(given.value.domains) && Strict(p.domains, DomainLt)
      && BoundsOk(p) && (forall d :: d in p.domains ==> ValidNodeId(d.domain) && Enrolled(indexers, d.indexer))
      && (p.placement ==> forall e :: e in indexers ==> NamesDomain(p, e.id))
  }

  /** A member is hosted by an enrolled indexer, shares its failure domain and
      is not itself an SNode. */
  predicate HostedOk(v: Verifier, indexers: seq<Indexer>, stage3: Option<Stage3>)
    requires IsMember(v)
  {
    && Enrolled(indexers, v.host.value) && (forall e :: e in indexers ==> e.snode != v.nodeId)
    && stage3.Some? && Domain(v.host.value, v.domain) in stage3.value.domains
  }

  ghost predicate CanonicalVerifiers(given: seq<Verifier>, indexers: seq<Indexer>, stage3: Option<Stage3>, out: seq<Verifier>) {
    && multiset(out) == multiset(Map(LowerVerifier, given)) && Strict(out, VerifierLt)
    && (forall v :: v in out ==> VerifierOk(v) && (IsMember(v) ==> HostedOk(v, indexers, stage3)))
    && (forall a, b :: a in out && b in out && a != b ==> a.pubkey != b.pubkey)
    && (forall a, b :: a in out && b in out && a != b && IsMember(a) && IsMember(b) ==> a.signer != b.signer)
  }

  predicate HeaderOk(u: Update) {
    && !Blank(u.networkId) && !Blank(u.genesisId) && !Blank(u.previousDigest)
    && u.maxWriters > 0 && u.capability <= 1 && (u.lanes.Some? ==> u.lanes.value > 0)
  }

  function LowerRegistry(r: Option<Registry>): Option<Registry> {
    if r.None? then None else Some(r.value.(contract := Lower(r.value.contract)))
  }

  /** `out` is the canonical form of `u`. */
  ghost predicate CanonicalForm(u: Update, out: Update) {
    && HeaderOk(u)
    && out == u.(addresses := out.addresses, registry := LowerRegistry(u.registry), indexers := out.indexers,
                 verifiers := out.verifiers, stage3 := out.stage3)
    && CanonicalAddresses(u.addresses, out.addresses)
    && (out.registry.Some? ==> RegistryOk(out.registry.value))
    && CanonicalIndexers(u.indexers, u.maxWriters, out.indexers)
    && CanonicalStage3(u.stage3, u.tracks, out.indexers, out.stage3)
    && CanonicalVerifiers(u.verifiers, out.indexers, out.stage3, out.verifiers)
  }

  // ---- the orders --------------------------------------------------------------------------------------

  lemma IndexerStrict()
    ensures StrictOrder(IndexerLt)
  {}

  lemma DomainStrict()
    ensures StrictOrder(DomainLt)
  {}

  lemma VerifierStrict()
    ensures StrictOrder(VerifierLt)
  {
    StringStrict();
    forall x: Verifier, y: Verifier, z: Verifier | VerifierLt(x, y) && VerifierLt(y, z) ensures VerifierLt(x, z) {
      assert StringLt(x.nodeId, y.nodeId) && StringLt(y.nodeId, z.nodeId);
    }
  }

  // ---- there is one canonical form ----------------------------------------------------------------------

  /** Two updates that differ only in the order of their lists, the repetition
      of authority addresses and the case of addresses. */
  ghost predicate SameUpdate(u: Update, w: Update) {
    && w == u.(addresses := w.addresses, registry := w.registry, indexers := w.indexers, verifiers := w.verifiers, stage3 := w.stage3)
    && (forall a :: a in Map(Lower, u.addresses) <==> a in Map(Lower, w.addresses))
    && LowerRegistry(u.registry) == LowerRegistry(w.registry)
    && multiset(Map(LowerIndexer, u.indexers)) == multiset(Map(LowerIndexer, w.indexers))
    && multiset(Map(LowerVerifier, u.verifiers)) == multiset(Map(LowerVerifier, w.verifiers))
    && (u.stage3.Some? <==> w.stage3.Some?)
    && (u.stage3.Some? ==> w.stage3.value == u.stage3.value.(domains := w.stage3.value.domains)
                           && multiset(u.stage3.value.domains) == multiset(w.stage3.value.domains))
  }

  lemma NonEmptyMap(f: string -> string, s: seq<string>)
    ensures s != [] <==> exists a :: a in Map(f, s)
  {
    if s != [] { assert Map(f, s)[0] in Map(f, s); }
  }

  /** The same update has the same canonical forms. */
  lemma SameUpdateSameForms(u: Update, w: Update, out: Update)
    requires SameUpdate(u, w) && CanonicalForm(u, out)
    ensures CanonicalForm(w, out)
  {
    hide Map, Lower, IndexerOk, VerifierOk, HostedOk, BoundsOk, RegistryOk, Strict;
    NonEmptyMap(Lower, u.addresses);
    NonEmptyMap(Lower, w.addresses);
  }

  /** A canonical form is unique, so normalising is a function of the update
      alone, not of how its lists are written. */
  lemma OneCanonicalForm(u: Update, w: Update, a: Update, b: Update)
    requires SameUpdate(u, w) && CanonicalForm(u, a) && CanonicalForm(w, b)
    ensures a == b
  {
    SameUpdateSameForms(u, w, a);
    StringStrict();
    IndexerStrict();
    DomainStrict();
    VerifierStrict();
    hide Map, Lower, IndexerOk, VerifierOk, HostedOk, BoundsOk, RegistryOk, Strict, StrictOrder, SameUpdate;
    StrictUnique(a.addresses, b.addresses, StringLt);
    SamePermuted(a.indexers, b.indexers, IndexerLt);
    SamePermuted(a.verifiers, b.verifiers, VerifierLt);
    if a.stage3.Some? { SamePermuted(a.stage3.value.domains, b.stage3.value.domains, DomainLt); }
  }

  lemma MapFixed<T>(f: T -> T, s: seq<T>)
    requires forall x :: x in s ==> f(x) == x
    ensures Map(f, s) == s
  {
    forall i | 0 <= i < |s| ensures Map(f, s)[i] == s[i] { assert s[i] in s; }
  }

  lemma MapMember<A, B>(f: A -> B, s: seq<A>, y: B) returns (x: A)
    requires y in Map(f, s)
    ensures x in s && f(x) == y
  {
    var i :| 0 <= i < |Map(f, s)| && Map(f, s)[i] == y;
    x := s[i];
  }

  lemma AddressesFixed(given: seq<string>, out: seq<string>)
    requires CanonicalAddresses(given, out)
    ensures CanonicalAddresses(out, out)
  {
    hide ValidAddress, Strict;
    forall a | a in out ensures Lower(a) == a {
      var x := MapMember(Lower, given, a);
      LowerTwice(x);
    }
    MapFixed(Lower, out);
    assert Map(Lower, given)[0] in out;
  }

  lemma IndexersFixed(given: seq<Indexer>, maxWriters: nat, out: seq<Indexer>)
    requires CanonicalIndexers(given, maxWriters, out)
    ensures CanonicalIndexers(out, maxWriters, out)
  {
    hide Strict, IndexerOk;
    forall e | e in out ensures LowerIndexer(e) == e {
      assert e in multiset(Map(LowerIndexer, given));
      var x := MapMember(LowerIndexer, given, e);
      LowerTwice(x.signer);
    }
    MapFixed(LowerIndexer, out);
  }

  lemma VerifiersFixed(given: seq<Verifier>, indexers: seq<Indexer>, stage3: Option<Stage3>, out: seq<Verifier>)
    requires CanonicalVerifiers(given, indexers, stage3, out)
    ensures CanonicalVerifiers(out, indexers, stage3, out)
  {
    hide Strict, VerifierOk, HostedOk;
    forall v | v in out ensures LowerVerifier(v) == v {
      assert v in multiset(Map(LowerVerifier, given));
      var x := MapMember(LowerVerifier, given, v);
      LowerTwice(x.signer);
    }
    MapFixed(LowerVerifier, out);
  }

  /** A canonical form is its own canonical form. */
  lemma CanonicalIsFixed(u: Update, out: Update)
    requires CanonicalForm(u, out)
    ensures CanonicalForm(out, out)
  {
    hide CanonicalAddresses, CanonicalIndexers, CanonicalVerifiers, BoundsOk, RegistryOk, Lower, Strict;
    AddressesFixed(u.addresses, out.addresses);
    IndexersFixed(u.indexers, u.maxWriters, out.indexers);
    VerifiersFixed(u.verifiers, out.indexers, out.stage3, out.verifiers);
    if u.registry.Some? { LowerTwice(u.registry.value.contract); }
  }
}
