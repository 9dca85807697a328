/** What hg_safe and the shadow hold, part for part: what the closure gate
    admits, and when a visible publication passes the scan that finishes it. */
module Inventory {
  import opened LtHash
  import opened Ledger
  import opened PartSums
  import opened Partition
  import opened Publication
  import opened Books

  // ---- no content twice --------------------------------------------------------------------

  /** No two parts of hg_safe have the same content. */
  ghost predicate SafeDistinct(c: Cell) {
    DistinctHashes(c.safe, c.written)
  }

  lemma WriteKeepsDistinct(c: Cell, name: string, rows: multiset<Row>, c': Cell)
    requires Known(c) && SafeDistinct(c) && name !in c.written
    requires c'.safe == c.safe && c'.written == c.written[name := rows]
    ensures SafeDistinct(c')
  {
    hide DistinctHashes;
    FrameDistinct(c.safe, c.written, c'.written);
  }

  lemma StepKeepsInventory(k: PartitionKey, c: Cell, s: Step, c': Cell)
    requires Next(k, c, s, c') && !s.Write? && !s.Replace?
    ensures c'.safe == c.safe && c'.written == c.written
  {
    hide RecordExecutedCleanup, RecordRefreshedAck, AddUnpromotedPart, RemoveUnpromotedPart, Names, Root, MappingsOk, Published,
         Unpublished, RecordAck, RecordSettledNotApplied, RecordApplied, Begin, MatchedSubset;
  }

  lemma ReplaceEffect(k: PartitionKey, c: Cell, c': Cell)
    requires Next(k, c, Replace, c')
    ensures c.pc.Journaled? && c'.safe == c.shadowBase + c.shadowAdded && c'.written == c.written
    ensures c'.pc == Replaced(c.pc.cmd) && c'.led == c.led
  {
    hide Answers, Intakes, Cleans, Root;
  }

  /** REPLACE publishes no content twice, whatever the commands. */
  lemma StepKeepsDistinct(k: PartitionKey, c: Cell, s: Step, c': Cell)
    requires Publishable(c) && SafeDistinct(c) && Next(k, c, s, c')
    ensures SafeDistinct(c')
  {
    hide SafeAtLedger, HistoryOk, DistinctHashes, Root, Post, Next;
    if s.Write? {
      WriteEffect(k, c, s.name, s.rows, c');
      WriteKeepsDistinct(c, s.name, s.rows, c');
    } else if s.Replace? {
      ReplaceEffect(k, c, c');
    } else {
      StepKeepsInventory(k, c, s, c');
    }
  }

  lemma WriteEffect(k: PartitionKey, c: Cell, name: string, rows: multiset<Row>, c': Cell)
    requires Next(k, c, Write(name, rows), c')
    ensures name !in c.written && c' == c.(unsafe := c.unsafe + {name}, written := c.written[name := rows])
  {
    hide Builds, Answers, Cleans;
  }

  // ---- the closure gate ----------------------------------------------------------------------

  ghost predicate AllHeld(s: set<string>, w: Contents, hs: seq<Hex>) {
    forall h :: h in hs ==> Holds(s, w, h)
  }

  lemma SameRootNoMore(a: set<string>, b: set<string>, w: Contents)
    requires a <= b <= w.Keys && (forall n :: n in b ==> w[n] != multiset{}) && Root(a, w) == Root(b, w)
    ensures a == b
  {
    hide Add, OfRows, RowsOf;
    if n :| n in b - a {
      assert b == a + (b - a);
      RootUnion(a, b - a, w);
      AddZero(Root(a, w));
      CancelLeft(Root(a, w), Root(b - a, w), Zero);
      RootNonZero(b - a, w, n);
    }
  }

  ghost function Holder(s: set<string>, w: Contents, h: Hex): (n: string)
    requires Holds(s, w, h)
    ensures n in s && Value(PartHash(w, n)) == h
  {
    var n :| n in s && Value(PartHash(w, n)) == h; n
  }

  /** Distinct hashes that are all held, and sum to the root of the parts, are
      the parts' hashes one for one. */
  lemma HeldIsMatched(s: set<string>, w: Contents, hs: seq<Hex>)
    requires s <= w.Keys && (forall n :: n in s ==> w[n] != multiset{}) && ValidHashes(hs)
    requires Root(s, w) == Sum(Values(hs)) && AllHeld(s, w, hs)
    ensures MatchedSubset(s, w, hs)
  {
    hide Sum, OfRows, RowsOf, Holds;
    var ms := seq(|hs|, i requires 0 <= i < |hs| => Holder(s, w, hs[i]));
    assert Distinct(ms);
    forall i | 0 <= i < |ms| ensures Values(hs)[i] == PartHash(w, ms[i]) {}
    ListedRoot(ms, Values(hs), w);
    SameRootNoMore(SetOf(ms), s, w);
    SetOfSize(ms);
    forall n | n in s ensures Value(PartHash(w, n)) in hs {
      var i :| 0 <= i < |ms| && ms[i] == n;
    }
  }

  lemma BaseIsCopied(c: Cell, cmd: Promotion)
    requires Sound(c) && Building(c, cmd)
    ensures c.shadowBase == c.safe && Root(c.safe, c.written) == Root(c.applied, c.written) == Parse(cmd.base)
  {
    hide RowsOf, OfRows, SumBalanced, DutiesHeld, Reserved, HistoryOk, ValidHashes, SafeAtLedger, HandlerOk, Promising;
    if n :| cmd.base.Unset? && n in c.safe {
      RootNonZero(c.safe, c.written, n);
    }
  }

  lemma AddedRoot(c: Cell, cmd: Promotion)
    requires Sound(c) && c.pc == Attached(cmd) && ShadowRoot(c) == Post(cmd)
    ensures c.shadowBase == c.safe && Root(c.shadowBase, c.written) == Root(c.applied, c.written)
    ensures Root(c.shadowAdded, c.written) == Root(SetOf(Names(cmd.candidates)), c.written) == Sum(Values(Hashes(cmd.candidates)))
  {
    hide Add, Sum, Root, DutiesHeld, HistoryOk, Reserved, SumBalanced, ValidHashes, SafeAtLedger;
    BaseIsCopied(c, cmd);
    CandidatesRoot(c, cmd);
    CancelLeft(Parse(cmd.base), Root(c.shadowAdded, c.written), Root(SetOf(Names(cmd.candidates)), c.written));
  }

  lemma AddedWritten(c: Cell, cmd: Promotion)
    requires Sound(c) && c.pc == Attached(cmd)
    ensures c.shadowAdded <= c.written.Keys && (forall n :: n in c.shadowAdded ==> c.written[n] != multiset{}) && ValidCandidates(cmd)
  {
    hide Root, Balanced, DutiesHeld, Placed, Marked, Promising, ValidHashes, SafeAtLedger, HistoryOk;
  }

  /** The closure gate compares the shadow's root with the base's plus the
      candidates': behind it the shadow holds exactly the rows of the promoted
      parts and of the candidates, however it was filled. It holds the candidates
      part for part exactly if each candidate's content is there, and the named
      parts themselves if none of them had left hg_unsafe. */
  lemma GateAdmitsExactlyCandidates(c: Cell, cmd: Promotion)
    requires Sound(c) && c.pc == Attached(cmd) && ShadowRoot(c) == Post(cmd) && ShadowDistinct(c)
    ensures RowsOf(c.shadowBase, c.written) == RowsOf(c.applied, c.written)
    ensures RowsOf(c.shadowAdded, c.written) == RowsOf(SetOf(Names(cmd.candidates)), c.written)
    ensures MatchedSubset(c.shadowAdded, c.written, Hashes(cmd.candidates)) <==>
            AllHeld(c.shadowAdded, c.written, Hashes(cmd.candidates))
    ensures SetOf(Names(cmd.candidates)) <= c.shadowAdded ==> c.shadowAdded == SetOf(Names(cmd.candidates))
  {
    hide Sound, Add, Sum, RowsOf, OfRows, ShadowDistinct, Holds, ValidHashes, ShadowRoot, Post;
    var w, added, named, hs := c.written, c.shadowAdded, SetOf(Names(cmd.candidates)), Hashes(cmd.candidates);
    AddedRoot(c, cmd);
    AddedWritten(c, cmd);
    OfRowsInjective(RowsOf(c.shadowBase, w), RowsOf(c.applied, w));
    OfRowsInjective(RowsOf(added, w), RowsOf(named, w));
    if AllHeld(added, w, hs) { HeldIsMatched(added, w, hs); }
    if named <= added { SameRootNoMore(named, added, w); }
  }

  // ---- a visible publication finishes ----------------------------------------------------------

  /** Of what the scan of hg_safe checks, only the look-up of the candidates can
      fail once a publication is visible. */
  lemma FinishesExactly(c: Cell, cmd: Promotion)
    requires Sound(c) && SafeDistinct(c) && Published(c, cmd)
    ensures MappingsOk(c, cmd) <==> AllHeld(c.safe, c.written, Hashes(cmd.candidates))
  {
    hide Root, Booked, Promising, HandlerOk, HistoryOk, Holds, DistinctHashes, ValidHashes, Post;
    var hs := Hashes(cmd.candidates);
    forall i | 0 <= i < |cmd.candidates| ensures cmd.candidates[i].rowHash == hs[i] && hs[i] in hs {}
    forall h | h in hs ensures exists i :: 0 <= i < |cmd.candidates| && cmd.candidates[i].rowHash == h {
      var i :| 0 <= i < |hs| && hs[i] == h;
      assert cmd.candidates[i].rowHash == h;
    }
  }

  /** The contents of the candidates are where the handler put them. */
  ghost predicate Carried(c: Cell) {
    && (match c.pc
        case Attached(cmd) => AllHeld(c.shadowAdded, c.written, Hashes(cmd.candidates))
        case Journaled(cmd) => AllHeld(c.shadowAdded, c.written, Hashes(cmd.candidates))
        case _ => true)
    && (c.led.intent.Some? && Root(c.safe, c.written) == c.led.intent.value.post ==>
      AllHeld(c.safe, c.written, c.led.intent.value.candidateHashes))
  }

  /** A copy of the whole partition finds every candidate still in hg_unsafe. */
  ghost predicate CopiesCandidates(c: Cell, s: Step) {
    s.CopyWhole? && c.pc.AttachWhole? ==> SetOf(Names(c.pc.cmd.candidates)) <= c.unsafe
  }

  lemma HeldFrame(s: set<string>, w: Contents, w': Contents, hs: seq<Hex>)
    requires forall n :: n in s ==> Content(w, n) == Content(w', n)
    ensures AllHeld(s, w, hs) <==> AllHeld(s, w', hs)
  {
    hide OfRows;
    forall h ensures Holds(s, w, h) <==> Holds(s, w', h) {
      if Holds(s, w, h) { assert PartHash(w', Holder(s, w, h)) == PartHash(w, Holder(s, w, h)); }
      if Holds(s, w', h) { assert PartHash(w', Holder(s, w', h)) == PartHash(w, Holder(s, w', h)); }
    }
  }

  lemma NamedHeld(c: Cell, cmd: Promotion, s: set<string>)
    requires HonestCommand(c, cmd) && SetOf(Names(cmd.candidates)) <= s
    ensures AllHeld(s, c.written, Hashes(cmd.candidates))
  {
    hide PartHash;
    var names, hs := Names(cmd.candidates), Hashes(cmd.candidates);
    forall h | h in hs ensures Holds(s, c.written, h) {
      var i :| 0 <= i < |hs| && hs[i] == h;
      assert names[i] in s;
    }
  }

  lemma CopyCarries(k: PartitionKey, c: Cell, s: Step, c': Cell)
    requires Sound(c) && Carried(c) && Next(k, c, s, c') && (s.CopyWhole? || s.CopySubset?) && CopiesCandidates(c, s)
    ensures Carried(c')
  {
    hide Answers, Intakes, Cleans, Publishable, Booked, Root, HonestCommand, Holds;
    if s.CopyWhole? { NamedHeld(c, c.pc.cmd, c.unsafe); }
  }

  lemma NothingPromised(c: Cell, cmd: Promotion)
    requires Sound(c) && Building(c, cmd) && HonestCommand(c, cmd) && Post(cmd) == Parse(cmd.base)
    ensures Hashes(cmd.candidates) == []
  {
    hide RowsOf, OfRows, Add, Sum, SumBalanced, DutiesHeld, Publishable, ValidHashes, Promising;
    var named := SetOf(Names(cmd.candidates));
    CandidatesRoot(c, cmd);
    AddZero(Parse(cmd.base));
    CancelLeft(Parse(cmd.base), Root(named, c.written), Zero);
    if Hashes(cmd.candidates) != [] {
      var n := Names(cmd.candidates)[0];
      assert n in named && n in c.written;
      RootNonZero(named, c.written, n);
    }
  }

  lemma JournalCarries(k: PartitionKey, c: Cell, before: seq<SafePart>, c': Cell)
    requires Sound(c) && Carried(c) && Next(k, c, Journal(before), c')
    ensures Carried(c')
  {
    hide Answers, Intakes, Cleans, Booked, Root, Holds, SafeAtLedger, HistoryOk, Reserved, ValidHashes, DistinctHashes, Post, Known;
    if Post(c.pc.cmd) == Parse(c.pc.cmd.base) { NothingPromised(c, c.pc.cmd); }
  }

  lemma HeldMore(s: set<string>, t: set<string>, w: Contents, hs: seq<Hex>)
    requires s <= t && AllHeld(s, w, hs)
    ensures AllHeld(t, w, hs)
  {}

  lemma ReplaceCarries(k: PartitionKey, c: Cell, c': Cell)
    requires Sound(c) && Carried(c) && Next(k, c, Replace, c')
    ensures Carried(c')
  {
    hide Next, Booked, Promising, Root, Holds, AllHeld, SafeAtLedger, HistoryOk, ValidHashes, ShadowDistinct, Post, Known;
    ReplaceEffect(k, c, c');
    HeldMore(c.shadowAdded, c'.safe, c.written, Hashes(c.pc.cmd.candidates));
  }

  lemma WriteCarries(c: Cell, name: string, rows: multiset<Row>, c': Cell)
    requires Known(c) && Carried(c) && name !in c.written
    requires c' == c.(unsafe := c.unsafe + {name}, written := c.written[name := rows])
    ensures Carried(c')
  {
    hide RowsOf, OfRows, AllHeld;
    RowsOfFrame(c.safe, c.written, c'.written);
    if c.pc.Attached? || c.pc.Journaled? { HeldFrame(c.shadowAdded, c.written, c'.written, Hashes(c.pc.cmd.candidates)); }
    if c.led.intent.Some? { HeldFrame(c.safe, c.written, c'.written, c.led.intent.value.candidateHashes); }
  }

  lemma OutsideCarries(k: PartitionKey, c: Cell, s: Step, c': Cell)
    requires Carried(c) && Next(k, c, s, c') && OutsidePromotion(s)
    ensures Carried(c')
  {
    hide Next, Root, AllHeld;
    OutsideKeepsPublication(k, c, s, c');
  }

  lemma OthersCarry(k: PartitionKey, c: Cell, s: Step, c': Cell)
    requires Carried(c) && Next(k, c, s, c')
    requires s.Start? || s.ChoosePath? || s.Finish? || s.Recover? || s.RefuseBase? || s.Settle? || s.Stop?
    ensures Carried(c')
  {
    hide Intakes, Cleans, Root, AllHeld, MappingsOk, Post, SubtractAll, MergeNames, AckedInventoryOf, KeepInventory, ValidHashes;
  }

  lemma StepCarries(k: PartitionKey, c: Cell, s: Step, c': Cell)
    requires Sound(c) && Carried(c) && Next(k, c, s, c') && CopiesCandidates(c, s)
    ensures Carried(c')
  {
    hide Next, Carried, Booked, Promising, SafeAtLedger, HandlerOk, HistoryOk, CopiesCandidates;
    match s
    case CopyWhole => CopyCarries(k, c, s, c');
    case CopySubset(_) => CopyCarries(k, c, s, c');
    case Journal(before) => JournalCarries(k, c, before, c');
    case Replace => ReplaceCarries(k, c, c');
    case Write(name, rows) =>
      WriteEffect(k, c, name, rows, c');
      WriteCarries(c, name, rows, c');
    case _ =>
      if OutsidePromotion(s) { OutsideCarries(k, c, s, c'); } else { OthersCarry(k, c, s, c'); }
  }

  lemma {:induction false} EveryRunDistinct(k: PartitionKey, cells: seq<Cell>, steps: seq<Step>, i: nat)
    requires IsRun(k, cells, steps) && i < |cells|
    ensures SafeDistinct(cells[i])
  {
    hide Next, Publishable, SafeDistinct;
    if i == 0 {
      FreshInventory();
    } else {
      EveryRunDistinct(k, cells, steps, i - 1);
      EveryRunPublishable(k, cells, steps, i - 1);
      StepKeepsDistinct(k, cells[i - 1], steps[i - 1], cells[i]);
    }
  }

  lemma FreshInventory()
    ensures SafeDistinct(Fresh) && Carried(Fresh)
  {}

  /** Every whole copy so far found the candidates in hg_unsafe. */
  ghost predicate Undisturbed(cells: seq<Cell>, steps: seq<Step>, n: nat)
    requires n <= |steps| < |cells|
  {
    forall j :: 0 <= j < n ==> CopiesCandidates(cells[j], steps[j])
  }

  lemma {:induction false} EveryUndisturbedRunCarries(k: PartitionKey, cells: seq<Cell>, steps: seq<Step>, i: nat)
    requires HonestRun(k, cells, steps) && i < |cells| && Undisturbed(cells, steps, i)
    ensures Carried(cells[i])
  {
    hide Next, Sound, Carried, Honest, CopiesCandidates;
    if i == 0 {
      FreshInventory();
    } else {
      EveryUndisturbedRunCarries(k, cells, steps, i - 1);
      EveryHonestRunSound(k, cells, steps, i - 1);
      StepCarries(k, cells[i - 1], steps[i - 1], cells[i]);
    }
  }

  lemma PublishedHolds(c: Cell, cmd: Promotion)
    requires Carried(c) && Published(c, cmd)
    ensures AllHeld(c.safe, c.written, Hashes(cmd.candidates))
  {
    hide Root, AllHeld, Post;
  }

  /** In every state of every honest run a visible publication passes the scan
      that finishes it exactly if each candidate's content is in hg_safe, and
      always unless a candidate left hg_unsafe before a whole copy. */
  lemma PublishedFinishes(k: PartitionKey, cells: seq<Cell>, steps: seq<Step>, i: nat, cmd: Promotion)
    requires HonestRun(k, cells, steps) && i < |cells| && Published(cells[i], cmd)
    ensures MappingsOk(cells[i], cmd) <==> AllHeld(cells[i].safe, cells[i].written, Hashes(cmd.candidates))
    ensures Undisturbed(cells, steps, i) ==> MappingsOk(cells[i], cmd)
  {
    hide Next, Sound, Carried, Honest, Published, MappingsOk, AllHeld, SafeDistinct, Undisturbed;
    EveryHonestRunSound(k, cells, steps, i);
    EveryRunDistinct(k, cells, steps, i);
    FinishesExactly(cells[i], cmd);
    if Undisturbed(cells, steps, i) {
      EveryUndisturbedRunCarries(k, cells, steps, i);
      PublishedHolds(cells[i], cmd);
    }
  }

  // ---- stuck ---------------------------------------------------------------------------------------

  /** Published, and a candidate's content is not in hg_safe. */
  ghost predicate Stuck(c: Cell, cmd: Promotion) {
    Published(c, cmd) && !AllHeld(c.safe, c.written, Hashes(cmd.candidates))
  }

  lemma WriteStaysStuck(c: Cell, cmd: Promotion, name: string, rows: multiset<Row>, c': Cell)
    requires Known(c) && Stuck(c, cmd) && name !in c.written
    requires c' == c.(unsafe := c.unsafe + {name}, written := c.written[name := rows])
    ensures Stuck(c', cmd)
  {
    hide RowsOf, OfRows, AllHeld, Post;
    RowsOfFrame(c.safe, c.written, c'.written);
    HeldFrame(c.safe, c.written, c'.written, Hashes(cmd.candidates));
  }

  lemma HandlerStaysStuck(k: PartitionKey, c: Cell, cmd: Promotion, s: Step, c': Cell)
    requires Sound(c) && SafeDistinct(c) && Stuck(c, cmd) && Next(k, c, s, c') && !OutsidePromotion(s) && !s.Write?
    ensures s.Stop? && c' == c
  {
    hide Intakes, Cleans, Booked, Promising, Root, AllHeld, Post, MappingsOk, HistoryOk, ValidHashes, SafeDistinct;
    if s.Recover? {
      SameCandidates(c, cmd, s.cmd);
      FinishesExactly(c, s.cmd);
    }
  }

  /** An intent tells what its command's candidates are. */
  lemma SameCandidates(c: Cell, cmd: Promotion, other: Promotion)
    requires c.led.intent.Some? && Matches(c.led.intent.value, cmd) && Matches(c.led.intent.value, other)
    ensures Hashes(other.candidates) == Hashes(cmd.candidates)
  {
    hide Post;
  }

  /** A stuck publication stays stuck under every step of every actor: it is
      neither finished nor settled nor replaced. */
  lemma StuckStays(k: PartitionKey, c: Cell, cmd: Promotion, s: Step, c': Cell)
    requires Sound(c) && SafeDistinct(c) && Stuck(c, cmd) && Next(k, c, s, c')
    ensures Stuck(c', cmd)
  {
    hide Next, Sound, SafeDistinct, Root, AllHeld, Post;
    if s.Write? {
      WriteEffect(k, c, s.name, s.rows, c');
      SoundIsKnown(c);
      WriteStaysStuck(c, cmd, s.name, s.rows, c');
    } else if OutsidePromotion(s) {
      OutsideKeepsPublication(k, c, s, c');
    } else {
      HandlerStaysStuck(k, c, cmd, s, c');
    }
  }

  lemma SoundIsKnown(c: Cell)
    requires Sound(c)
    ensures Known(c)
  {}
}
