/** When an honest promotion can be carried through: from any idle state without
    a pending intent, or with its own unpublished one, every check on its way
    passes exactly if hg_safe holds the content of no candidate yet. */
module Progress {
  import opened LtHash
  import opened Ledger
  import opened Options
  import opened PartSums
  import opened Partition
  import opened Publication
  import opened Books
  import opened Inventory

  /** A command the arbiter may send now, for the first time or again after a
      stop before REPLACE: over the current base, new, naming recorded parts that
      were not promoted and are in hg_unsafe. */
  ghost predicate Promotable(c: Cell, cmd: Promotion) {
    && Sound(c) && SafeDistinct(c) && Unpublished(c, cmd)
    && HonestCommand(c, cmd) && ValidCandidates(cmd) && cmd.base == c.led.base
    && SetOf(Names(cmd.candidates)) <= c.unsafe
  }

  /** No candidate's content is in hg_safe. */
  ghost predicate NewContents(c: Cell, cmd: Promotion) {
    forall i :: 0 <= i < |cmd.candidates| ==> !Holds(c.safe, c.written, cmd.candidates[i].rowHash)
  }

  function AckFor(cmd: Promotion): PromotionAck {
    PromotionAck(cmd.promotionSeq, Value(Post(cmd)), [], [], true)
  }

  // ---- the states on the way -------------------------------------------------------------------------

  ghost function Started(c: Cell, cmd: Promotion): Cell {
    c.(shadowBase := if cmd.base.Unset? then {} else c.safe, shadowAdded := {}, pc := Based(cmd))
  }

  ghost predicate Whole(c: Cell, cmd: Promotion) {
    c.unsafe == SetOf(Names(cmd.candidates))
  }

  ghost function Chosen(c: Cell, cmd: Promotion): Cell {
    Started(c, cmd).(pc := if Whole(c, cmd) then AttachWhole(cmd) else AttachSubset(cmd))
  }

  ghost function CopyStep(c: Cell, cmd: Promotion): Step {
    if Whole(c, cmd) then CopyWhole else CopySubset(SetOf(Names(cmd.candidates)))
  }

  ghost function Copied(c: Cell, cmd: Promotion): Cell {
    c.(shadowBase := if cmd.base.Unset? then {} else c.safe, shadowAdded := SetOf(Names(cmd.candidates)), pc := Attached(cmd))
  }

  ghost function Intended(c: Cell, cmd: Promotion): Cell {
    Copied(c, cmd).(led := c.led.(intent := Some(IntentFor(cmd, []))), pc := Journaled(cmd))
  }

  ghost function Visible(c: Cell, cmd: Promotion): Cell {
    var next := c.safe + SetOf(Names(cmd.candidates));
    Intended(c, cmd).(safe := next, pc := Replaced(cmd),
                      changes := if Root(next, c.written) == Root(c.safe, c.written) then c.changes
                                 else c.changes + multiset{cmd.promotionSeq})
  }

  /** The last state: the promotion is journaled as applied. */
  ghost function Applied(c: Cell, cmd: Promotion): Cell {
    ApplyPromotion(Visible(c, cmd), cmd, AckFor(cmd))
  }

  // ---- each step is enabled ---------------------------------------------------------------------------

  /** The candidates' own parts match the candidates. */
  lemma NamedMatch(c: Cell, cmd: Promotion)
    requires HonestCommand(c, cmd) && ValidCandidates(cmd)
    ensures MatchedSubset(SetOf(Names(cmd.candidates)), c.written, Hashes(cmd.candidates))
  {
    hide PartHash, ValidHashes;
    var names, hs := Names(cmd.candidates), Hashes(cmd.candidates);
    CandidatesDistinct(c, cmd);
    SetOfSize(names);
    forall h | h in hs ensures Holds(SetOf(names), c.written, h) {
      var i :| 0 <= i < |hs| && hs[i] == h;
      assert names[i] in SetOf(names);
    }
  }

  lemma NoEmptyName(c: Cell, cmd: Promotion)
    requires Promotable(c, cmd)
    ensures "" !in Names(cmd.candidates)
  {
    hide Publishable, DutiesHeld, Balanced, ValidHashes, Reserved, Promising, SafeDistinct, Unpublished;
    assert forall n :: n in Names(cmd.candidates) ==> n in SetOf(Names(cmd.candidates));
  }

  lemma CanBuild(k: PartitionKey, c: Cell, cmd: Promotion)
    requires Promotable(c, cmd)
    ensures Next(k, c, Start(cmd), Started(c, cmd)) && Honest(c, Start(cmd))
    ensures Next(k, Started(c, cmd), ChoosePath, Chosen(c, cmd))
    ensures Next(k, Chosen(c, cmd), CopyStep(c, cmd), Copied(c, cmd))
  {
    hide Answers, Intakes, Cleans, Sound, SafeDistinct, Root, ValidHashes, MatchedSubset, Reserved, Unpublished;
    NamedMatch(c, cmd);
    NoEmptyName(c, cmd);
  }

  /** hg_safe is at the base, all of it is copied, and the candidates add up to
      the post root. */
  lemma CopiedRoots(c: Cell, cmd: Promotion)
    requires Promotable(c, cmd)
    ensures Copied(c, cmd).shadowBase == c.safe && ShadowRoot(Copied(c, cmd)) == Post(cmd)
    ensures Root(c.safe, c.written) == Parse(cmd.base)
  {
    hide Add, Sum, RowsOf, OfRows, SumBalanced, DutiesHeld, Reserved, HistoryOk, ValidHashes, HandlerOk, Promising, SafeDistinct;
    CandidatesRoot(c, cmd);
    if n :| cmd.base.Unset? && n in c.safe { RootNonZero(c.safe, c.written, n); }
  }

  lemma NewIsApart(c: Cell, cmd: Promotion)
    requires HonestCommand(c, cmd)
    ensures NewContents(c, cmd) <==>
      forall m, n :: m in c.safe && n in SetOf(Names(cmd.candidates)) ==> PartHash(c.written, m) != PartHash(c.written, n)
  {
    hide PartHash;
    var names, hs, w := Names(cmd.candidates), Hashes(cmd.candidates), c.written;
    if i :| 0 <= i < |cmd.candidates| && Holds(c.safe, w, cmd.candidates[i].rowHash) {
      var m :| m in c.safe && Value(PartHash(w, m)) == cmd.candidates[i].rowHash;
      assert hs[i] == cmd.candidates[i].rowHash && names[i] in SetOf(names);
    } else {
      forall m, n | m in c.safe && n in SetOf(names) ensures PartHash(w, m) != PartHash(w, n) {
        var i :| 0 <= i < |names| && names[i] == n;
        assert !Holds(c.safe, w, cmd.candidates[i].rowHash) && hs[i] == cmd.candidates[i].rowHash;
      }
    }
  }

  lemma NamedApart(c: Cell, cmd: Promotion)
    requires HonestCommand(c, cmd) && ValidCandidates(cmd)
    ensures DistinctHashes(SetOf(Names(cmd.candidates)), c.written)
  {
    hide PartHash;
    var names, hs := Names(cmd.candidates), Hashes(cmd.candidates);
    forall m, n | m in SetOf(names) && n in SetOf(names) && m != n ensures PartHash(c.written, m) != PartHash(c.written, n) {
      var i :| 0 <= i < |names| && names[i] == m;
      var j :| 0 <= j < |names| && names[j] == n;
      assert hs[i] != hs[j];
    }
  }

  /** The copies have pairwise different contents exactly if the candidates' are
      new. */
  lemma CopiedDistinct(c: Cell, cmd: Promotion)
    requires Promotable(c, cmd)
    ensures ShadowDistinct(Copied(c, cmd)) <==> NewContents(c, cmd)
  {
    hide Sound, Unpublished, PartHash, Post, Add, ShadowRoot, NewContents, HonestCommand, ValidHashes;
    CopiedRoots(c, cmd);
    NewIsApart(c, cmd);
    NamedApart(c, cmd);
  }

  /** The closure gate lets the copies of an undisturbed handler through exactly
      if no candidate's content is in hg_safe. */
  lemma JournalsExactly(k: PartitionKey, c: Cell, cmd: Promotion)
    requires Promotable(c, cmd)
    ensures NewContents(c, cmd) ==> Next(k, Copied(c, cmd), Journal([]), Intended(c, cmd))
    ensures forall before, c' :: Next(k, Copied(c, cmd), Journal(before), c') ==> NewContents(c, cmd)
  {
    hide Answers, Intakes, Cleans, Sound, SafeDistinct, HonestCommand, Root, ValidHashes, ShadowDistinct, Post, ShadowRoot, NewContents;
    CopiedRoots(c, cmd);
    CopiedDistinct(c, cmd);
  }

  lemma CanReplace(k: PartitionKey, c: Cell, cmd: Promotion)
    requires Promotable(c, cmd)
    ensures Next(k, Intended(c, cmd), Replace, Visible(c, cmd))
  {
    hide Answers, Intakes, Cleans, Sound, SafeDistinct, HonestCommand, Root, ValidHashes, Post, ShadowRoot;
    CopiedRoots(c, cmd);
    assert Intended(c, cmd).shadowBase + Intended(c, cmd).shadowAdded == c.safe + SetOf(Names(cmd.candidates));
  }

  lemma VisibleInventory(c: Cell, cmd: Promotion)
    requires Promotable(c, cmd) && NewContents(c, cmd)
    ensures MappingsOk(Visible(c, cmd), cmd)
  {
    hide Sound, Unpublished, Root, ValidHashes, Post, Add, NewContents, Reserved, Holds, PartHash;
    var named := SetOf(Names(cmd.candidates));
    CopiedRoots(c, cmd);
    CopiedDistinct(c, cmd);
    RootUnion(c.safe, named, c.written);
    NamedHeld(c, cmd, c.safe + named);
    forall i | 0 <= i < |cmd.candidates| ensures Holds(c.safe + named, c.written, cmd.candidates[i].rowHash) {
      assert Hashes(cmd.candidates)[i] == cmd.candidates[i].rowHash;
    }
  }

  lemma CanFinish(k: PartitionKey, c: Cell, cmd: Promotion)
    requires Promotable(c, cmd) && NewContents(c, cmd)
    ensures Next(k, Visible(c, cmd), Finish(AckFor(cmd)), Applied(c, cmd))
  {
    hide Builds, Intakes, Cleans, Promotable, NewContents, MappingsOk, Root, Post, ApplyPromotion;
    VisibleInventory(c, cmd);
  }

  // ---- paths --------------------------------------------------------------------------------------------

  ghost predicate Takes(k: PartitionKey, c: Cell, s: Step, c': Cell) {
    Next(k, c, s, c') && Honest(c, s)
  }

  /** Some `n` honest steps lead from `a` to `b`. */
  ghost predicate Path(k: PartitionKey, a: Cell, b: Cell, n: nat)
    decreases n
  {
    if n == 0 then a == b else exists m, s :: Path(k, a, m, n - 1) && Takes(k, m, s, b)
  }

  lemma PathStart(k: PartitionKey, c: Cell)
    ensures Path(k, c, c, 0)
  {}

  lemma Goes(k: PartitionKey, a: Cell, m: Cell, n: nat, s: Step, b: Cell)
    requires Path(k, a, m, n) && Takes(k, m, s, b)
    ensures Path(k, a, b, n + 1)
  {
    hide Takes;
  }

  /** The six steps that carry a promotion through. */
  lemma PromotionSteps(k: PartitionKey, c: Cell, cmd: Promotion)
    requires Promotable(c, cmd) && NewContents(c, cmd)
    ensures Takes(k, c, Start(cmd), Started(c, cmd)) && Takes(k, Started(c, cmd), ChoosePath, Chosen(c, cmd))
    ensures Takes(k, Chosen(c, cmd), CopyStep(c, cmd), Copied(c, cmd))
    ensures Takes(k, Copied(c, cmd), Journal([]), Intended(c, cmd))
    ensures Takes(k, Intended(c, cmd), Replace, Visible(c, cmd))
    ensures Takes(k, Visible(c, cmd), Finish(AckFor(cmd)), Applied(c, cmd))
  {
    hide Next, Promotable, NewContents, Started, Chosen, Copied, Intended, Visible, Applied, Whole, HonestCommand;
    CanBuild(k, c, cmd);
    JournalsExactly(k, c, cmd);
    CanReplace(k, c, cmd);
    CanFinish(k, c, cmd);
  }

  /** Six honest steps publish and journal the promotion: the base becomes the
      post root, exactly the candidates join hg_safe, and no intent is left. */
  lemma PromotionCompletes(k: PartitionKey, c: Cell, cmd: Promotion) returns (done: Cell)
    requires Promotable(c, cmd) && NewContents(c, cmd)
    ensures done == Applied(c, cmd) && Path(k, c, done, 6)
    ensures done.pc.Idle? && done.led.intent.None? && done.led.watermark == cmd.promotionSeq && done.led.base == Value(Post(cmd))
    ensures done.safe == c.safe + SetOf(Names(cmd.candidates)) && done.applied == c.applied + SetOf(Names(cmd.candidates))
  {
    hide Takes, Promotable, NewContents, Root, Post, SubtractAll, MergeNames, Whole;
    done := Applied(c, cmd);
    PromotionSteps(k, c, cmd);
    Goes(k, c, c, 0, Start(cmd), Started(c, cmd));
    Goes(k, c, Started(c, cmd), 1, ChoosePath, Chosen(c, cmd));
    Goes(k, c, Chosen(c, cmd), 2, CopyStep(c, cmd), Copied(c, cmd));
    Goes(k, c, Copied(c, cmd), 3, Journal([]), Intended(c, cmd));
    Goes(k, c, Intended(c, cmd), 4, Replace, Visible(c, cmd));
    Goes(k, c, Visible(c, cmd), 5, Finish(AckFor(cmd)), done);
  }

  // ---- redelivery -----------------------------------------------------------------------------------------

  /** A new command that finds the handler idle is unpublished or published, never
      both, and neither exactly while another command's intent is pending. */
  lemma DeliveryDecides(c: Cell, cmd: Promotion)
    requires Publishable(c) && c.pc.Idle? && cmd.promotionSeq > c.led.watermark
    ensures !(Unpublished(c, cmd) && Published(c, cmd))
    ensures Unpublished(c, cmd) || Published(c, cmd) <==> c.led.intent.None? || Matches(c.led.intent.value, cmd)
  {
    hide Root, Add, Sum, HandlerOk, HistoryOk, ValidHashes;
  }

  /** A visible publication whose scan passes is finished by its redelivery, or by
      a settle, without another REPLACE. */
  lemma PublishedRecovers(k: PartitionKey, c: Cell, cmd: Promotion)
    requires Published(c, cmd) && MappingsOk(c, cmd)
    ensures var done := ApplyPromotion(c, cmd, AckFor(cmd));
      && Next(k, c, Recover(cmd, AckFor(cmd)), done) && done.safe == c.safe && done.led.intent.None?
      && done.led.base == Value(Root(c.safe, c.written)) && done.applied == c.applied + SetOf(Names(cmd.candidates))
  {
    hide Builds, Intakes, Cleans, MappingsOk, Root, Post, SubtractAll, MergeNames;
  }

  /** An unpublished command that is settled is answered as not applied: hg_safe
      stays, its intent goes and its number is used up. */
  lemma UnpublishedSettles(k: PartitionKey, c: Cell, cmd: Promotion, ack: PromotionAck) returns (done: Cell)
    requires Unpublished(c, cmd) && RefusalAck(ack, cmd)
    ensures Next(k, c, Settle(cmd, ack), done) && done.safe == c.safe && done.applied == c.applied
    ensures done.led.intent.None? && done.led.watermark == cmd.promotionSeq && done.led.base == c.led.base
    ensures !Unpublished(done, cmd) && !Published(done, cmd)
  {
    hide Builds, Intakes, Cleans, Root, Post, AckedInventoryOf;
    done := c.(led := RecordSettledNotApplied(c.led, cmd.promotionSeq, ack, c.led.base, c.led.baseSnapshot),
               refusals := c.refusals + {cmd.promotionSeq}, shadowBase := {}, shadowAdded := {});
  }
}
