/** What intake, promotion and cleanup keep of one partition's books, whatever
    parts they take from each other: an abort or a rejected-part cleanup may
    reach a part before, while or after it is promoted. */
module Books {
  import opened LtHash
  import opened Ledger
  import opened PartSums
  import opened Partition
  import opened Publication

  /** Parts intake recorded and nothing removed from the accounting. */
  ghost function Recorded(c: Cell): set<string> {
    LiveRecords(c.led.intakeParts)
  }

  ghost function LiveRecords(intake: map<string, Hex>): set<string> {
    set n | n in intake && intake[n].Value?
  }

  /** Parts whose record is marked as removed. */
  ghost function TakenBack(intake: map<string, Hex>): set<string> {
    set n | n in intake && intake[n].Unset?
  }

  ghost function Unpromoted(c: Cell): set<string> {
    Recorded(c) - c.applied
  }

  /** Parts that were promoted and also taken out of the accounting. */
  ghost function Overlap(c: Cell): set<string> {
    c.applied * TakenBack(c.led.intakeParts)
  }

  /** `names` are parts intake recorded, listed with their hashes, and none was
      promoted yet. */
  ghost predicate Reserved(c: Cell, names: seq<string>, hs: seq<Hex>) {
    && |names| == |hs| && SetOf(names) !! c.applied
    && forall i :: 0 <= i < |names| ==> names[i] in c.led.intakeParts && hs[i] == Value(PartHash(c.written, names[i]))
  }

  ghost predicate HonestCommand(c: Cell, cmd: Promotion) {
    Reserved(c, Names(cmd.candidates), Hashes(cmd.candidates))
  }

  /** What the actors around the SNode owe it: a promotion names parts as intake
      recorded them and none that was promoted before, an abort takes back and a
      rejected block names parts intake recorded, and a cleanup drops and names
      the parts it is for. */
  ghost predicate Honest(c: Cell, s: Step) {
    match s
    case Start(cmd) => HonestCommand(c, cmd)
    case Exclude(name) => name in c.led.intakeParts
    case CleanupDrop(name) => name in c.applied
    case ExecuteCleanup(cleanup, _) =>
      && var id := CleanupId(cleanup.promotionSeq, cleanup.rejectedBlockSeq);
      && id in c.duties && SetOf(Names(cleanup.parts)) <= c.duties[id]
    case Reject(id, names) => id.rejectedBlockSeq != 0 && id !in c.duties && names <= c.led.intakeParts.Keys
    case _ => true
  }

  // ---- the invariant ------------------------------------------------------

  ghost predicate PartsHaveRows(c: Cell) {
    "" !in c.written && forall n :: n in c.written ==> c.written[n] != multiset{}
  }

  /** Which parts are where: a part leaves hg_unsafe only discarded or already
      published, and a published one stays excluded from reads until it left. */
  ghost predicate Placed(c: Cell) {
    && c.applied <= c.led.intakeParts.Keys <= c.written.Keys
    && c.discarded <= c.written.Keys && c.discarded !! c.unsafe
    && c.written.Keys == c.unsafe + c.discarded + c.applied
    && (forall n :: n in c.led.promotedUnsafe ==> n in c.applied)
    && (forall n :: n in c.applied * c.unsafe ==> n in c.led.promotedUnsafe)
  }

  /** Only a discarded part has its record marked as removed. */
  ghost predicate Marked(c: Cell) {
    TakenBack(c.led.intakeParts) <= c.discarded
  }

  /** The unpromoted sum is the root of the unpromoted parts less the root of
      the parts that left it twice, promoted and taken back. */
  ghost predicate SumBalanced(e: Entry, applied: set<string>, w: Contents) {
    && (forall n :: n in LiveRecords(e.intakeParts) ==> e.intakeParts[n] == Value(PartHash(w, n)))
    && Add(Parse(e.unpromotedSum), Root(applied * TakenBack(e.intakeParts), w)) == Root(LiveRecords(e.intakeParts) - applied, w)
  }

  ghost predicate Balanced(c: Cell) {
    Parse(c.led.base) == Root(c.applied, c.written) && SumBalanced(c.led, c.applied, c.written)
  }

  /** What each cleanup is for: promoted parts, excluded from reads until its
      ack is owed unless a rejected-part cleanup took them back, or parts intake
      recorded and a rejected block named. */
  ghost predicate DutiesHeld(c: Cell) {
    && c.accepted <= c.duties.Keys && c.led.owed.Keys <= c.duties.Keys
    && (forall id :: id in c.duties && id !in c.accepted && id !in c.led.owed && id.rejectedBlockSeq == 0 ==>
      c.duties[id] <= SetOf(c.led.promotedUnsafe) + TakenBack(c.led.intakeParts))
    && (forall id :: id in c.duties ==>
      if id.rejectedBlockSeq == 0 then id.promotionSeq <= c.led.watermark && c.duties[id] <= c.applied
      else c.duties[id] <= c.led.intakeParts.Keys)
    && (forall id, id' :: id in c.duties && id' in c.duties && id != id' && id.rejectedBlockSeq == 0 == id'.rejectedBlockSeq ==>
      c.duties[id] !! c.duties[id'])
  }

  ghost predicate Booked(c: Cell) {
    PartsHaveRows(c) && Placed(c) && Marked(c) && Balanced(c) && DutiesHeld(c)
  }

  /** The parts of the promotion under way are recorded and not promoted. */
  ghost predicate Promising(c: Cell) {
    && (c.pc.Idle? || HonestCommand(c, c.pc.cmd))
    && (c.led.intent.Some? ==> Reserved(c, c.led.intent.value.unsafeNames, c.led.intent.value.candidateHashes))
  }

  ghost predicate Sound(c: Cell) {
    Publishable(c) && Booked(c) && Promising(c)
  }

  ghost predicate SameBooks(c: Cell, c': Cell) {
    && c'.led.intakeParts == c.led.intakeParts && c'.led.base == c.led.base
    && c'.led.unpromotedSum == c.led.unpromotedSum && c'.led.promotedUnsafe == c.led.promotedUnsafe
    && c'.led.owed == c.led.owed && c.led.watermark <= c'.led.watermark
    && c'.unsafe == c.unsafe && c'.written == c.written && c'.applied == c.applied
    && c'.discarded == c.discarded && c'.duties == c.duties && c'.accepted == c.accepted
  }

  lemma SameBooksBooked(c: Cell, c': Cell)
    requires Booked(c) && SameBooks(c, c')
    ensures Booked(c')
  {
    hide Root, LiveRecords, TakenBack;
  }

  // ---- promotion steps ------------------------------------------------------

  lemma CandidatesDistinct(c: Cell, cmd: Promotion)
    requires HonestCommand(c, cmd) && ValidCandidates(cmd)
    ensures Distinct(Names(cmd.candidates))
  {
    var names, hs := Names(cmd.candidates), Hashes(cmd.candidates);
    forall i, j | 0 <= i < j < |names| ensures names[i] != names[j] {
      assert hs[i] != hs[j];
    }
  }

  /** The candidates' hashes sum to the root of the parts they name. */
  lemma CandidatesRoot(c: Cell, cmd: Promotion)
    requires HonestCommand(c, cmd) && ValidCandidates(cmd)
    ensures Sum(Values(Hashes(cmd.candidates))) == Root(SetOf(Names(cmd.candidates)), c.written)
    ensures Post(cmd) == Add(Parse(cmd.base), Root(SetOf(Names(cmd.candidates)), c.written))
  {
    hide Add, Sum, OfRows, RowsOf;
    var names, hs := Names(cmd.candidates), Hashes(cmd.candidates);
    CandidatesDistinct(c, cmd);
    forall i | 0 <= i < |names| ensures Values(hs)[i] == PartHash(c.written, names[i]) {}
    ListedRoot(names, Values(hs), c.written);
  }

  predicate WithinPromotion(s: Step) {
    && !OutsidePromotion(s) && !s.Write? && !s.Finish? && !s.Recover?
  }

  lemma AckKeepsBooks(k: PartitionKey, c: Cell, s: Step, c': Cell)
    requires Next(k, c, s, c') && (s.RefuseBase? || s.Settle? || s.Refresh?)
    ensures SameBooks(c, c')
  {
    hide Builds, Intakes, Cleans, Root, Matches, AckedInventoryOf, KeepInventory;
  }

  lemma PromotionKeepsBooks(k: PartitionKey, c: Cell, s: Step, c': Cell)
    requires Next(k, c, s, c') && (WithinPromotion(s) || s.Refresh?)
    ensures SameBooks(c, c')
  {
    hide Intakes, Cleans, Root, ValidCandidates, ShadowRoot, ShadowDistinct, MatchedSubset, IntentFor, Unpublished;
    if s.RefuseBase? || s.Settle? || s.Refresh? {
      AckKeepsBooks(k, c, s, c');
    }
  }

  lemma SameReserved(c: Cell, c': Cell, names: seq<string>, hs: seq<Hex>)
    requires Reserved(c, names, hs) && c'.applied == c.applied
    requires c.led.intakeParts.Keys <= c'.led.intakeParts.Keys && c.led.intakeParts.Keys <= c.written.Keys
    requires forall n :: n in c.written ==> n in c'.written && c'.written[n] == c.written[n]
    ensures Reserved(c', names, hs)
  {
    hide OfRows;
  }

  lemma BuildPromises(k: PartitionKey, c: Cell, s: Step, c': Cell)
    requires Promising(c) && Next(k, c, s, c') && Honest(c, s)
    requires s.Start? || s.ChoosePath? || s.CopyWhole? || s.CopySubset? || s.Journal? || s.Replace?
    ensures Promising(c')
  {
    hide Answers, Intakes, Cleans, PartHash, Root, MatchedSubset, ShadowRoot, ShadowDistinct, ValidHashes, Post, Unpublished;
  }

  lemma AnswerPromises(k: PartitionKey, c: Cell, s: Step, c': Cell)
    requires Promising(c) && Next(k, c, s, c') && (s.RefuseBase? || s.Settle? || s.Refresh? || s.Stop?)
    ensures Promising(c')
  {
    hide Builds, Intakes, Cleans, PartHash, Root, AckedInventoryOf, KeepInventory, Unpublished;
  }

  lemma PromotionKeepsSound(k: PartitionKey, c: Cell, s: Step, c': Cell)
    requires Sound(c) && Next(k, c, s, c') && Honest(c, s) && (WithinPromotion(s) || s.Refresh?)
    ensures Sound(c')
  {
    hide Publishable, Booked, Promising, Next, Honest, SameBooks;
    StepKeepsPublishable(k, c, s, c');
    PromotionKeepsBooks(k, c, s, c');
    SameBooksBooked(c, c');
    if s.RefuseBase? || s.Settle? || s.Refresh? || s.Stop? {
      AnswerPromises(k, c, s, c');
    } else {
      BuildPromises(k, c, s, c');
    }
  }

  // ---- the applied promotion --------------------------------------------------

  ghost predicate ReadyToApply(c: Cell, cmd: Promotion) {
    && Booked(c) && HonestCommand(c, cmd) && ValidCandidates(cmd)
    && cmd.base == c.led.base && cmd.promotionSeq > c.led.watermark
  }

  /** What the base gains leaves the sum, and a part taken back before leaves it
      a second time. */
  lemma Rebalance(sum: Hash, twice: Hash, left: Hash, live: Hash, gone: Hash)
    requires Add(sum, twice) == Add(left, live)
    ensures Add(Sub(sum, Add(live, gone)), Add(twice, gone)) == left
  {
    var lhs := Add(Sub(sum, Add(live, gone)), Add(twice, gone));
    forall r ensures Count(lhs, r) == Count(left, r) {
      hide Add, Sub;
      CountAdd(Sub(sum, Add(live, gone)), Add(twice, gone), r);
      CountAdd(sum, Add(live, gone), r);
      CountAdd(live, gone, r);
      CountAdd(twice, gone, r);
      CountAdd(sum, twice, r);
      CountAdd(left, live, r);
    }
    Extensional(lhs, left);
  }

  lemma AppliedBalanced(c: Cell, cmd: Promotion, ack: PromotionAck)
    requires ReadyToApply(c, cmd)
    ensures Balanced(ApplyPromotion(c, cmd, ack))
  {
    hide Add, Sum, Sub, RowsOf, OfRows, DutiesHeld, MergeNames, SubtractAll;
    var c', named, w := ApplyPromotion(c, cmd, ack), SetOf(Names(cmd.candidates)), c.written;
    var taken := TakenBack(c.led.intakeParts);
    var live, gone := named * Recorded(c), named * taken;
    CandidatesRoot(c, cmd);
    RootUnion(c.applied, named, w);
    forall n | n in named ensures n in c.led.intakeParts {
      var i :| 0 <= i < |Names(cmd.candidates)| && Names(cmd.candidates)[i] == n;
    }
    assert named == live + gone && live !! gone;
    RootUnion(live, gone, w);
    assert Unpromoted(c) == Unpromoted(c') + live && Unpromoted(c') !! live;
    RootUnion(Unpromoted(c'), live, w);
    assert c'.applied * taken == c.applied * taken + gone;
    RootUnion(c.applied * taken, gone, w);
    Drained(Parse(c.led.unpromotedSum), Hashes(cmd.candidates));
    Rebalance(Parse(c.led.unpromotedSum), Root(c.applied * taken, w), Root(Unpromoted(c'), w), Root(live, w), Root(gone, w));
  }

  lemma Drained(sum: Hash, hs: seq<Hex>)
    ensures SubtractAll(sum, hs) == Sub(sum, Sum(Values(hs)))
  {
    hide Add, Sub, Sum, SubtractAll;
    SubtractAllSum(Sub(sum, Sum(Values(hs))), hs);
    AddSub(sum, Sum(Values(hs)));
  }

  lemma AppliedNames(c: Cell, cmd: Promotion)
    requires ReadyToApply(c, cmd)
    ensures forall n :: n in Names(cmd.candidates) ==> n in c.led.intakeParts && n in c.written && n != "" && n !in c.applied
    ensures forall n :: n in MergeNames(c.led.promotedUnsafe, Names(cmd.candidates)) <==>
      n in c.led.promotedUnsafe || n in Names(cmd.candidates)
  {
    hide Balanced, DutiesHeld, MergeNames, PartHash, ValidHashes;
    var names := Names(cmd.candidates);
    forall n | n in names ensures n in c.led.intakeParts && n in c.written && n != "" && n !in c.applied {
      var i :| 0 <= i < |names| && names[i] == n;
      assert n in SetOf(names);
    }
    forall n ensures n in MergeNames(c.led.promotedUnsafe, names) <==> n in c.led.promotedUnsafe || n in names {
      MergeNamesMembers(c.led.promotedUnsafe, names, n);
    }
  }

  lemma AppliedPlaced(c: Cell, cmd: Promotion, ack: PromotionAck)
    requires ReadyToApply(c, cmd)
    ensures Placed(ApplyPromotion(c, cmd, ack)) && Marked(ApplyPromotion(c, cmd, ack))
  {
    hide Post, DutiesHeld, Balanced, MergeNames, SubtractAll, HonestCommand, ValidCandidates, TakenBack;
    AppliedNames(c, cmd);
  }

  lemma AppliedDuties(c: Cell, cmd: Promotion, ack: PromotionAck)
    requires ReadyToApply(c, cmd)
    ensures DutiesHeld(ApplyPromotion(c, cmd, ack))
  {
    hide Post, Balanced, MergeNames, SubtractAll, HonestCommand, ValidCandidates, TakenBack, Placed;
    AppliedNames(c, cmd);
  }

  lemma FinishReady(k: PartitionKey, c: Cell, s: Step, c': Cell)
    requires Sound(c) && Next(k, c, s, c') && (s.Finish? || s.Recover?)
    ensures s.Finish? ==> c.pc.Replaced?
    ensures ReadyToApply(c, if s.Finish? then c.pc.cmd else s.cmd)
    ensures c' == ApplyPromotion(c, if s.Finish? then c.pc.cmd else s.cmd, s.ack)
  {
    hide Builds, Intakes, Cleans, Booked, Root, PartHash, DistinctHashes, HistoryOk, ApplyPromotion, Post;
  }

  lemma ApplyKeepsSound(k: PartitionKey, c: Cell, s: Step, c': Cell)
    requires Sound(c) && Next(k, c, s, c') && (s.Finish? || s.Recover?)
    ensures Sound(c')
  {
    hide Next, Publishable, Placed, Marked, Balanced, DutiesHeld, Post, MergeNames, SubtractAll, ReadyToApply;
    StepKeepsPublishable(k, c, s, c');
    FinishReady(k, c, s, c');
    var cmd := if s.Finish? then c.pc.cmd else s.cmd;
    AppliedBalanced(c, cmd, s.ack);
    AppliedPlaced(c, cmd, s.ack);
    AppliedDuties(c, cmd, s.ack);
  }

  // ---- intake and cleanup steps ---------------------------------------------------

  /** Outside the promotion handler nothing it relies on is taken away. */
  lemma OutsidePromises(c: Cell, c': Cell)
    requires Promising(c) && c.led.intakeParts.Keys <= c.written.Keys
    requires c'.pc == c.pc && c'.led.intent == c.led.intent && c'.applied == c.applied
    requires c.led.intakeParts.Keys <= c'.led.intakeParts.Keys
    requires forall n :: n in c.written ==> n in c'.written && c'.written[n] == c.written[n]
    ensures Promising(c')
  {
    hide Reserved;
    if c.led.intent.Some? {
      SameReserved(c, c', c.led.intent.value.unsafeNames, c.led.intent.value.candidateHashes);
    }
    if !c.pc.Idle? {
      SameReserved(c, c', Names(c.pc.cmd.candidates), Hashes(c.pc.cmd.candidates));
    }
  }

  /** Steps that leave the promoted parts and the acknowledgements alone leave
      the duties as they are. */
  lemma DutiesFrame(c: Cell, c': Cell)
    requires DutiesHeld(c) && c.led.intakeParts.Keys <= c'.led.intakeParts.Keys
    requires TakenBack(c.led.intakeParts) <= TakenBack(c'.led.intakeParts)
    requires c'.duties == c.duties && c'.accepted == c.accepted && c'.applied == c.applied
    requires c'.led == c.led.(intakeParts := c'.led.intakeParts, unpromotedSum := c'.led.unpromotedSum)
    ensures DutiesHeld(c')
  {
    hide TakenBack;
  }

  lemma WriteBalanced(c: Cell, name: string, rows: multiset<Row>, c': Cell)
    requires Balanced(c) && name !in c.written && c.applied <= c.led.intakeParts.Keys <= c.written.Keys
    requires c' == c.(unsafe := c.unsafe + {name}, written := c.written[name := rows])
    ensures Balanced(c')
  {
    hide RowsOf, OfRows, LiveRecords, TakenBack, Add;
    var live, twice := Recorded(c) - c.applied, c.applied * TakenBack(c.led.intakeParts);
    RecordsAreKeys(c.led.intakeParts);
    RowsOfFrame(c.applied, c.written, c'.written);
    RowsOfFrame(live, c.written, c'.written);
    RowsOfFrame(twice, c.written, c'.written);
    forall n | n in Recorded(c) ensures PartHash(c.written, n) == PartHash(c'.written, n) {}
  }

  lemma RecordsAreKeys(intake: map<string, Hex>)
    ensures LiveRecords(intake) + TakenBack(intake) == intake.Keys && LiveRecords(intake) !! TakenBack(intake)
  {}

  lemma WriteBooked(c: Cell, name: string, rows: multiset<Row>, c': Cell)
    requires Booked(c) && name !in c.written && name != "" && rows != multiset{}
    requires c' == c.(unsafe := c.unsafe + {name}, written := c.written[name := rows])
    ensures Booked(c')
  {
    hide Balanced, TakenBack, DutiesHeld;
    DutiesFrame(c, c');
    WriteBalanced(c, name, rows, c');
  }

  lemma RecordBalanced(c: Cell, name: string, c': Cell)
    requires Balanced(c) && name !in c.led.intakeParts && name !in c.applied
    requires var h := PartHash(c.written, name);
      c' == c.(led := c.led.(unpromotedSum := Value(Add(Parse(c.led.unpromotedSum), h)),
                             intakeParts := c.led.intakeParts[name := Value(h)]))
    ensures Balanced(c')
  {
    hide RowsOf, OfRows, Add;
    var h, sum := PartHash(c.written, name), Parse(c.led.unpromotedSum);
    var twice := Root(Overlap(c), c.written);
    assert Overlap(c') == Overlap(c);
    assert Unpromoted(c') - {name} == Unpromoted(c);
    RootPick(Unpromoted(c'), c.written, name);
    AddCommutes(sum, h);
    AddAssociates(h, sum, twice);
  }

  lemma RecordBooked(c: Cell, name: string, c': Cell)
    requires Booked(c) && name in c.unsafe && name !in c.led.intakeParts
    requires var h := PartHash(c.written, name);
      c' == c.(led := c.led.(unpromotedSum := Value(Add(Parse(c.led.unpromotedSum), h)),
                             intakeParts := c.led.intakeParts[name := Value(h)]))
    ensures Booked(c')
  {
    hide PartHash, Add, Balanced, DutiesHeld;
    assert TakenBack(c'.led.intakeParts) == TakenBack(c.led.intakeParts);
    DutiesFrame(c, c');
    RecordBalanced(c, name, c');
  }

  lemma DiscardBooked(c: Cell, name: string, c': Cell)
    requires Booked(c) && name in c.written
    requires c' == c.(unsafe := c.unsafe - {name}, discarded := c.discarded + {name})
    ensures Booked(c')
  {
    hide SumBalanced, TakenBack, DutiesHeld;
    DutiesFrame(c, c');
  }

  /** Taking one part out subtracts its hash, once. */
  lemma RemoveOneBalanced(e: Entry, name: string, applied: set<string>, w: Contents, e1: Entry)
    requires SumBalanced(e, applied, w) && name in LiveRecords(e.intakeParts)
    requires e1 == e.(unpromotedSum := Value(Sub(Parse(e.unpromotedSum), PartHash(w, name))),
                      intakeParts := e.intakeParts[name := Unset])
    ensures SumBalanced(e1, applied, w)
    ensures LiveRecords(e1.intakeParts) == LiveRecords(e.intakeParts) - {name}
    ensures TakenBack(e1.intakeParts) == TakenBack(e.intakeParts) + {name}
  {
    hide RowsOf, OfRows, Add, Sub;
    var h, sum := PartHash(w, name), Parse(e.unpromotedSum);
    var before, after := LiveRecords(e.intakeParts) - applied, LiveRecords(e1.intakeParts) - applied;
    var twice, twice' := applied * TakenBack(e.intakeParts), applied * TakenBack(e1.intakeParts);
    if name in applied {
      assert after == before && twice' - {name} == twice;
      RootPick(twice', w, name);
      Shift(sum, h, Root(twice, w));
    } else {
      assert twice' == twice && after == before - {name};
      RootPick(before, w, name);
      Unshift(sum, h, Root(twice, w), Root(after, w));
    }
  }

  lemma Shift(sum: Hash, h: Hash, twice: Hash)
    ensures Add(Sub(sum, h), Add(h, twice)) == Add(sum, twice)
  {
    hide Add, Sub;
    AddAssociates(Sub(sum, h), h, twice);
    AddSub(sum, h);
  }

  lemma Unshift(sum: Hash, h: Hash, twice: Hash, rest: Hash)
    requires Add(sum, twice) == Add(h, rest)
    ensures Add(Sub(sum, h), twice) == rest
  {
    hide Add, Sub;
    AddSub(sum, h);
    AddCommutes(Sub(sum, h), h);
    AddAssociates(h, Sub(sum, h), twice);
    CancelLeft(h, Add(Sub(sum, h), twice), rest);
  }

  lemma CancelLeft(x: Hash, a: Hash, b: Hash)
    requires Add(x, a) == Add(x, b)
    ensures a == b
  {
    hide Add, Sub;
    AddCommutes(x, a);
    AddCommutes(x, b);
    SubAdd(a, x);
    SubAdd(b, x);
  }

  lemma ExcludeBooked(c: Cell, name: string, c': Cell)
    requires Booked(c) && name !in c.unsafe && name in c.led.intakeParts && c.led.intakeParts[name].Value?
    requires var h := PartHash(c.written, name);
      c' == c.(led := c.led.(unpromotedSum := Value(Sub(Parse(c.led.unpromotedSum), h)),
                             intakeParts := c.led.intakeParts[name := Unset]),
               discarded := c.discarded + {name})
    ensures Booked(c')
  {
    hide RowsOf, OfRows, Add, Sub, SumBalanced, PartHash, Root, DutiesHeld, TakenBack;
    RemoveOneBalanced(c.led, name, c.applied, c.written, c'.led);
    DutiesFrame(c, c');
  }

  /** An exclusion that was made before changes only the history. */
  lemma ExcludedBooked(c: Cell, name: string, c': Cell)
    requires Booked(c) && name !in c.unsafe && name in c.led.intakeParts && c' == c.(discarded := c.discarded + {name})
    ensures Booked(c')
  {
    hide SumBalanced, TakenBack, DutiesHeld;
    DutiesFrame(c, c');
  }

  /** A rejected-part cleanup takes each recorded part it names out of the sum
      once, whether the command repeats a part or is delivered again. */
  lemma {:induction false} RemoveRejectedBalanced(k: PartitionKey, e: Entry, parts: seq<PartRef>, applied: set<string>, w: Contents)
    requires SumBalanced(e, applied, w) && RejectedPartsOk(e, k, 0, parts)
    ensures SumBalanced(RemoveRejected(e, parts), applied, w)
    ensures LiveRecords(RemoveRejected(e, parts).intakeParts) == LiveRecords(e.intakeParts) - SetOf(Names(parts))
    ensures TakenBack(RemoveRejected(e, parts).intakeParts) == TakenBack(e.intakeParts) + SetOf(Names(parts)) * e.intakeParts.Keys
    ensures RemoveRejected(e, parts).intakeParts.Keys == e.intakeParts.Keys
    decreases |parts|
  {
    hide RowsOf, OfRows, Add, Sub;
    if parts != [] {
      var p := parts[0];
      assert Names(parts) == [p.name] + Names(parts[1..]);
      if p.name !in e.intakeParts || e.intakeParts[p.name] == Unset {
        RemoveRejectedBalanced(k, e, parts[1..], applied, w);
      } else {
        var e1 := e.(unpromotedSum := Value(Sub(Parse(e.unpromotedSum), Parse(p.rowHash))),
                     intakeParts := e.intakeParts[p.name := Unset]);
        RemoveOneBalanced(e, p.name, applied, w, e1);
        assert RejectedPartsOk(e1, k, 0, parts[1..]);
        RemoveRejectedBalanced(k, e1, parts[1..], applied, w);
      }
    }
  }

  /** What a journaled cleanup does to one partition's books. */
  ghost predicate CleanedUp(c: Cell, id: CleanupId, names: set<string>, c': Cell) {
    && c' == c.(led := c'.led, discarded := c'.discarded)
    && c'.discarded == (if id.rejectedBlockSeq == 0 then c.discarded else c.discarded + names)
    && c'.led.base == c.led.base && c'.led.watermark == c.led.watermark && c'.led.intent == c.led.intent
    && c'.led.intakeParts.Keys == c.led.intakeParts.Keys
    && (id.rejectedBlockSeq == 0 ==> c'.led.intakeParts == c.led.intakeParts)
    && (id.rejectedBlockSeq != 0 ==> TakenBack(c'.led.intakeParts) == TakenBack(c.led.intakeParts) + names * c.led.intakeParts.Keys)
    && (forall n :: n in c'.led.promotedUnsafe <==> n in c.led.promotedUnsafe && n !in names)
    && c'.led.owed.Keys == c.led.owed.Keys + {id}
  }

  lemma CleanupEffect(k: PartitionKey, c: Cell, cleanup: Cleanup, node: string, c': Cell)
    requires Balanced(c) && Next(k, c, ExecuteCleanup(cleanup, node), c')
    ensures CleanedUp(c, CleanupId(cleanup.promotionSeq, cleanup.rejectedBlockSeq), SetOf(Names(cleanup.parts)), c')
    ensures SumBalanced(c'.led, c.applied, c.written) && SetOf(Names(cleanup.parts)) !! c.unsafe
  {
    hide Builds, Answers, Intakes, RowsOf, OfRows, Add, Sub, LiveRecords, TakenBack, RemoveRejected, Without;
    if cleanup.rejectedBlockSeq != 0 {
      RemoveRejectedFrame(c.led, cleanup.parts);
      RemoveRejectedBalanced(k, c.led, cleanup.parts, c.applied, c.written);
    }
    forall n ensures n in Without(c.led.promotedUnsafe, Names(cleanup.parts)) <==> n in c.led.promotedUnsafe && n !in Names(cleanup.parts) {
      WithoutMembers(c.led.promotedUnsafe, Names(cleanup.parts), n);
    }
  }

  lemma CleanupDuties(c: Cell, id: CleanupId, names: set<string>, c': Cell)
    requires DutiesHeld(c) && CleanedUp(c, id, names, c') && id in c.duties && names <= c.duties[id]
    ensures DutiesHeld(c')
  {
    hide TakenBack;
    forall id' | id' in c'.duties && id' !in c'.accepted && id' !in c'.led.owed && id'.rejectedBlockSeq == 0
      ensures c'.duties[id'] <= SetOf(c'.led.promotedUnsafe) + TakenBack(c'.led.intakeParts)
    {
      assert id' != id && id' in c.duties && id' !in c.led.owed;
      assert id.rejectedBlockSeq == 0 ==> c.duties[id'] !! names;
      forall n | n in c.duties[id'] ensures n in c'.led.promotedUnsafe || n in TakenBack(c'.led.intakeParts) {
        assert n in SetOf(c.led.promotedUnsafe) + TakenBack(c.led.intakeParts);
      }
    }
  }

  lemma CleanupPlaced(c: Cell, id: CleanupId, names: set<string>, c': Cell)
    requires Placed(c) && Marked(c) && DutiesHeld(c) && CleanedUp(c, id, names, c') && id in c.duties && names <= c.duties[id]
    requires names !! c.unsafe
    ensures Placed(c') && Marked(c')
  {
    hide TakenBack;
    assert id.rejectedBlockSeq != 0 ==> names <= c.led.intakeParts.Keys;
  }

  lemma CleanupBooked(k: PartitionKey, c: Cell, cleanup: Cleanup, node: string, c': Cell)
    requires Booked(c) && Next(k, c, ExecuteCleanup(cleanup, node), c') && Honest(c, ExecuteCleanup(cleanup, node))
    ensures Booked(c')
  {
    hide Next, RowsOf, OfRows, SumBalanced, Placed, Marked, DutiesHeld, TakenBack;
    var id, names := CleanupId(cleanup.promotionSeq, cleanup.rejectedBlockSeq), SetOf(Names(cleanup.parts));
    CleanupEffect(k, c, cleanup, node, c');
    CleanupPlaced(c, id, names, c');
    CleanupDuties(c, id, names, c');
  }

  lemma CleanupDropBooked(c: Cell, name: string, c': Cell)
    requires Booked(c) && name in c.applied && c' == c.(unsafe := c.unsafe - {name})
    ensures Booked(c')
  {
    hide SumBalanced, TakenBack, DutiesHeld;
    DutiesFrame(c, c');
  }

  lemma RejectBooked(c: Cell, id: CleanupId, names: set<string>, c': Cell)
    requires Booked(c) && Honest(c, Reject(id, names)) && c' == c.(duties := c.duties[id := names])
    ensures Booked(c')
  {
    hide SumBalanced, TakenBack;
  }

  lemma AcceptBooked(c: Cell, id: CleanupId, c': Cell)
    requires Booked(c) && id in c.led.owed && c' == c.(accepted := c.accepted + {id})
    ensures Booked(c')
  {
    hide SumBalanced, TakenBack;
  }

  lemma ClearBooked(c: Cell, ack: CleanupAck, c': Cell)
    requires Booked(c) && ack.id in c.accepted && c' == c.(led := ClearOwed(c.led, ack))
    ensures Booked(c')
  {
    hide SumBalanced, TakenBack;
    assert SumBalanced(c'.led, c'.applied, c'.written) by { SumFrame(c.led, c'.led, c.applied, c.written); }
  }

  lemma SumFrame(e: Entry, e': Entry, applied: set<string>, w: Contents)
    requires SumBalanced(e, applied, w) && e'.intakeParts == e.intakeParts && e'.unpromotedSum == e.unpromotedSum
    ensures SumBalanced(e', applied, w)
  {}

  lemma WriteKeepsSound(k: PartitionKey, c: Cell, name: string, rows: multiset<Row>, c': Cell)
    requires Sound(c) && Next(k, c, Write(name, rows), c')
    ensures Sound(c')
  {
    hide Builds, Answers, Cleans, Balanced, DutiesHeld, Promising, Publishable, TakenBack;
    StepKeepsPublishable(k, c, Write(name, rows), c');
    WriteBooked(c, name, rows, c');
    OutsidePromises(c, c');
  }

  lemma RecordKeepsSound(k: PartitionKey, c: Cell, name: string, c': Cell)
    requires Sound(c) && Next(k, c, Record(name), c')
    ensures Sound(c')
  {
    hide Builds, Answers, Cleans, Balanced, DutiesHeld, Promising, Publishable, PartHash, Add, Sub, TakenBack;
    StepKeepsPublishable(k, c, Record(name), c');
    if name !in c.led.intakeParts { RecordBooked(c, name, c'); }
    OutsidePromises(c, c');
  }

  lemma DiscardKeepsSound(k: PartitionKey, c: Cell, name: string, c': Cell)
    requires Sound(c) && Next(k, c, Discard(name), c')
    ensures Sound(c')
  {
    hide Builds, Answers, Cleans, Balanced, DutiesHeld, Promising, Publishable, TakenBack;
    StepKeepsPublishable(k, c, Discard(name), c');
    DiscardBooked(c, name, c');
    OutsidePromises(c, c');
  }

  lemma ExcludeKeepsSound(k: PartitionKey, c: Cell, name: string, c': Cell)
    requires Sound(c) && Next(k, c, Exclude(name), c') && Honest(c, Exclude(name))
    ensures Sound(c')
  {
    hide Builds, Answers, Cleans, Balanced, DutiesHeld, Promising, Publishable, PartHash, Add, Sub, TakenBack;
    StepKeepsPublishable(k, c, Exclude(name), c');
    if c.led.intakeParts[name].Value? { ExcludeBooked(c, name, c'); } else { ExcludedBooked(c, name, c'); }
    OutsidePromises(c, c');
  }

  lemma CleanupDropKeepsSound(k: PartitionKey, c: Cell, name: string, c': Cell)
    requires Sound(c) && Next(k, c, CleanupDrop(name), c') && Honest(c, CleanupDrop(name))
    ensures Sound(c')
  {
    hide Builds, Answers, Intakes, Balanced, DutiesHeld, Promising, Publishable, TakenBack;
    StepKeepsPublishable(k, c, CleanupDrop(name), c');
    CleanupDropBooked(c, name, c');
    OutsidePromises(c, c');
  }

  lemma ExecuteCleanupKeepsSound(k: PartitionKey, c: Cell, cleanup: Cleanup, node: string, c': Cell)
    requires Sound(c) && Next(k, c, ExecuteCleanup(cleanup, node), c') && Honest(c, ExecuteCleanup(cleanup, node))
    ensures Sound(c')
  {
    hide Next, Marked, DutiesHeld, Promising, Publishable, SumBalanced, TakenBack;
    StepKeepsPublishable(k, c, ExecuteCleanup(cleanup, node), c');
    CleanupBooked(k, c, cleanup, node, c');
    CleanupEffect(k, c, cleanup, node, c');
    OutsidePromises(c, c');
  }

  lemma RejectKeepsSound(k: PartitionKey, c: Cell, id: CleanupId, names: set<string>, c': Cell)
    requires Sound(c) && Next(k, c, Reject(id, names), c') && Honest(c, Reject(id, names))
    ensures Sound(c')
  {
    hide Builds, Answers, Intakes, Balanced, DutiesHeld, Promising, Publishable, TakenBack;
    StepKeepsPublishable(k, c, Reject(id, names), c');
    RejectBooked(c, id, names, c');
    OutsidePromises(c, c');
  }

  lemma AcceptKeepsSound(k: PartitionKey, c: Cell, id: CleanupId, c': Cell)
    requires Sound(c) && Next(k, c, Accept(id), c')
    ensures Sound(c')
  {
    hide Builds, Answers, Intakes, Balanced, DutiesHeld, Promising, Publishable, TakenBack;
    StepKeepsPublishable(k, c, Accept(id), c');
    AcceptBooked(c, id, c');
    OutsidePromises(c, c');
  }

  lemma ClearKeepsSound(k: PartitionKey, c: Cell, ack: CleanupAck, c': Cell)
    requires Sound(c) && Next(k, c, Clear(ack), c')
    ensures Sound(c')
  {
    hide Builds, Answers, Intakes, Balanced, DutiesHeld, Promising, Publishable, TakenBack;
    StepKeepsPublishable(k, c, Clear(ack), c');
    ClearBooked(c, ack, c');
    OutsidePromises(c, c');
  }

  /** Every honest step keeps the books, whatever it takes from another. */
  lemma StepKeepsSound(k: PartitionKey, c: Cell, s: Step, c': Cell)
    requires Sound(c) && Next(k, c, s, c') && Honest(c, s)
    ensures Sound(c')
  {
    hide Sound, Next, Honest;
    match s
    case Finish(_) => ApplyKeepsSound(k, c, s, c');
    case Recover(_, _) => ApplyKeepsSound(k, c, s, c');
    case Write(name, rows) => WriteKeepsSound(k, c, name, rows, c');
    case Record(name) => RecordKeepsSound(k, c, name, c');
    case Discard(name) => DiscardKeepsSound(k, c, name, c');
    case Exclude(name) => ExcludeKeepsSound(k, c, name, c');
    case CleanupDrop(name) => CleanupDropKeepsSound(k, c, name, c');
    case ExecuteCleanup(cleanup, node) => ExecuteCleanupKeepsSound(k, c, cleanup, node, c');
    case Reject(id, names) => RejectKeepsSound(k, c, id, names, c');
    case Accept(id) => AcceptKeepsSound(k, c, id, c');
    case Clear(ack) => ClearKeepsSound(k, c, ack, c');
    case _ => PromotionKeepsSound(k, c, s, c');
  }

  lemma FreshSound()
    ensures Sound(Fresh)
  {
    FreshPublishable();
    assert Root<string>({}, map[]) == Zero;
    assert LiveRecords(map[]) == {} && TakenBack(map[]) == {};
    AddZero(Zero);
  }

  /** A run of honest steps of one partition. */
  ghost predicate HonestRun(k: PartitionKey, cells: seq<Cell>, steps: seq<Step>) {
    IsRun(k, cells, steps) && forall i :: 0 <= i < |steps| ==> Honest(cells[i], steps[i])
  }

  lemma NoSteps(k: PartitionKey)
    ensures HonestRun(k, [Fresh], [])
  {}

  lemma HonestRunGrows(k: PartitionKey, cells: seq<Cell>, steps: seq<Step>, s: Step, c': Cell)
    requires HonestRun(k, cells, steps) && Next(k, cells[|steps|], s, c') && Honest(cells[|steps|], s)
    ensures HonestRun(k, cells + [c'], steps + [s])
  {
    hide Next, Honest;
  }

  /** The books are kept in every state of every honest run, whatever is
      redelivered and wherever the handler stops. */
  lemma {:induction false} EveryHonestRunSound(k: PartitionKey, cells: seq<Cell>, steps: seq<Step>, i: nat)
    requires HonestRun(k, cells, steps) && i < |cells|
    ensures Sound(cells[i])
  {
    hide Sound, Next, Honest;
    if i == 0 {
      FreshSound();
    } else {
      EveryHonestRunSound(k, cells, steps, i - 1);
      StepKeepsSound(k, cells[i - 1], steps[i - 1], cells[i]);
    }
  }
}
