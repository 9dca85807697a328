/** A promotion that gets stuck behind its own intent: between the choice of the
    whole-partition copy and the copy, an abort drops the candidates and the
    statement is written again with its rows divided otherwise. */
module StuckPromotion {
  import opened LtHash
  import opened Ledger
  import opened Options
  import opened PartSums
  import opened Partition
  import opened Publication
  import opened Books
  import opened Inventory
  import opened Progress
  import opened IntakeProgress
  import opened TableGate

  /** Two parts of one row each, and one part with both rows. */
  datatype Trio = Trio(a: string, b: string, both: string, x: Row, y: Row)

  ghost predicate IsTrio(t: Trio) {
    t.a != "" && t.b != "" && t.both != "" && t.a != t.b && t.a != t.both && t.b != t.both && t.x != t.y
  }

  ghost function PairCommand(k: PartitionKey, t: Trio): Promotion {
    Promotion(1, "", Unset, [PartRef(k, t.a, Value(OfRows(multiset{t.x}))), PartRef(k, t.b, Value(OfRows(multiset{t.y})))])
  }

  lemma PairIs(k: PartitionKey, t: Trio)
    requires IsTrio(t)
    ensures var cmd := PairCommand(k, t);
      && Names(cmd.candidates) == [t.a, t.b] && SetOf([t.a, t.b]) == {t.a, t.b}
      && Hashes(cmd.candidates) == [Value(OfRows(multiset{t.x})), Value(OfRows(multiset{t.y}))]
      && ValidCandidates(cmd) && Post(cmd) == OfRows(multiset{t.x, t.y})
  {
    hide Add, OfRows;
    var x, y := OfRows(multiset{t.x}), OfRows(multiset{t.y});
    var cs := PairCommand(k, t).candidates;
    assert Names(cs) == [t.a, t.b] && Hashes(cs) == [Value(x), Value(y)];
    if x == y { OfRowsInjective(multiset{t.x}, multiset{t.y}); }
    assert multiset{t.x} != multiset{t.y} by { assert t.x in multiset{t.x} && t.x !in multiset{t.y}; }
    OfRowsAdds(multiset{t.x}, multiset{t.y});
    assert multiset{t.x} + multiset{t.y} == multiset{t.x, t.y};
    SumOfTwo(x, y);
    assert Values([Value(x), Value(y)]) == [x, y];
    AddZero(Add(x, y));
    AddCommutes(Zero, Add(x, y));
  }

  lemma SumOfTwo(x: Hash, y: Hash)
    ensures Sum([x, y]) == Add(x, y)
  {
    hide Add;
    assert [x, y][1..] == [y];
    assert Sum([y]) == Add(y, Zero);
    AddZero(y);
  }

  // ---- the states -----------------------------------------------------------------------------

  ghost function Written1(t: Trio): Cell { WithPart(Fresh, t.a, multiset{t.x}) }

  ghost function Written2(t: Trio): Cell { WithPart(WithRecord(Written1(t), t.a), t.b, multiset{t.y}) }

  ghost function Claimable(t: Trio): Cell { WithRecord(Written2(t), t.b) }

  /** The handler chose to copy the whole partition. */
  ghost function ToCopy(k: PartitionKey, t: Trio): Cell {
    Started(Claimable(t), PairCommand(k, t)).(pc := AttachWhole(PairCommand(k, t)))
  }

  ghost function HalfAborted(k: PartitionKey, t: Trio): Cell { TookBack(Dropped(ToCopy(k, t), t.a), t.a) }

  ghost function AllAborted(k: PartitionKey, t: Trio): Cell { TookBack(Dropped(HalfAborted(k, t), t.b), t.b) }

  ghost function WrittenAgain(k: PartitionKey, t: Trio): Cell { WithPart(AllAborted(k, t), t.both, multiset{t.x, t.y}) }

  ghost function CopiedAgain(k: PartitionKey, t: Trio): Cell {
    WrittenAgain(k, t).(shadowAdded := {t.both}, pc := Attached(PairCommand(k, t)))
  }

  ghost function Promised(k: PartitionKey, t: Trio): Cell {
    var c := CopiedAgain(k, t);
    c.(led := c.led.(intent := Some(IntentFor(PairCommand(k, t), []))), pc := Journaled(PairCommand(k, t)))
  }

  ghost function Shown(k: PartitionKey, t: Trio): Cell {
    Promised(k, t).(safe := {t.both}, pc := Replaced(PairCommand(k, t)), changes := multiset{1})
  }

  // ---- the steps ------------------------------------------------------------------------------

  lemma ClaimableIs(k: PartitionKey, t: Trio)
    requires IsTrio(t)
    ensures var c := Claimable(t);
      && c.unsafe == {t.a, t.b} && c.written == map[t.a := multiset{t.x}, t.b := multiset{t.y}] && c.safe == {}
      && c.led.intakeParts == map[t.a := Value(OfRows(multiset{t.x})), t.b := Value(OfRows(multiset{t.y}))]
      && c.led.intent.None? && c.led.watermark == 0 && c.led.base == Unset && c.applied == {} && c.pc.Idle? && c.changes == multiset{}
  {
    hide Add, OfRows;
  }

  lemma CanWritePair(k: PartitionKey, t: Trio)
    requires IsTrio(t)
    ensures Takes(k, Fresh, Write(t.a, multiset{t.x}), Written1(t))
    ensures Takes(k, Written1(t), Record(t.a), WithRecord(Written1(t), t.a))
    ensures Takes(k, WithRecord(Written1(t), t.a), Write(t.b, multiset{t.y}), Written2(t))
    ensures Takes(k, Written2(t), Record(t.b), Claimable(t))
  {
    hide Next, Add, OfRows;
    CanWrite(k, Fresh, t.a, multiset{t.x});
    CanRecord(k, Written1(t), t.a);
    CanWrite(k, WithRecord(Written1(t), t.a), t.b, multiset{t.y});
    CanRecord(k, Written2(t), t.b);
  }

  lemma CanChoose(k: PartitionKey, t: Trio)
    requires IsTrio(t)
    ensures Takes(k, Claimable(t), Start(PairCommand(k, t)), Started(Claimable(t), PairCommand(k, t)))
    ensures Takes(k, Started(Claimable(t), PairCommand(k, t)), ChoosePath, ToCopy(k, t))
  {
    hide Answers, Intakes, Cleans, Claimable, PairCommand, Add, OfRows, ValidHashes, Root, Post;
    ClaimableIs(k, t);
    PairIs(k, t);
    PairIsFirst(k, t);
  }

  lemma PairIsFirst(k: PartitionKey, t: Trio)
    ensures PairCommand(k, t).promotionSeq == 1 && PairCommand(k, t).base == Unset
  {}

  lemma CanAbortPair(k: PartitionKey, t: Trio)
    requires IsTrio(t)
    ensures Takes(k, ToCopy(k, t), Discard(t.a), Dropped(ToCopy(k, t), t.a))
    ensures Takes(k, Dropped(ToCopy(k, t), t.a), Exclude(t.a), HalfAborted(k, t))
    ensures Takes(k, HalfAborted(k, t), Discard(t.b), Dropped(HalfAborted(k, t), t.b))
    ensures Takes(k, Dropped(HalfAborted(k, t), t.b), Exclude(t.b), AllAborted(k, t))
  {
    hide Next, Claimable, PairCommand, Add, Sub, OfRows;
    ClaimableIs(k, t);
    CanDiscard(k, ToCopy(k, t), t.a);
    CanExclude(k, Dropped(ToCopy(k, t), t.a), t.a);
    CanDiscard(k, HalfAborted(k, t), t.b);
    CanExclude(k, Dropped(HalfAborted(k, t), t.b), t.b);
  }

  lemma WrittenAgainIs(k: PartitionKey, t: Trio)
    requires IsTrio(t)
    ensures var c := WrittenAgain(k, t);
      && c.unsafe == {t.both} && t.both in c.written && c.written[t.both] == multiset{t.x, t.y} && c.safe == c.shadowBase == {}
      && c.led.intent.None? && c.led.watermark == 0 && c.changes == multiset{} && c.pc == AttachWhole(PairCommand(k, t))
  {
    hide Claimable, PairCommand, Add, Sub, OfRows;
    ClaimableIs(k, t);
    PairIsFirst(k, t);
  }

  lemma CanCopyAgain(k: PartitionKey, t: Trio)
    requires IsTrio(t)
    ensures Takes(k, AllAborted(k, t), Write(t.both, multiset{t.x, t.y}), WrittenAgain(k, t))
    ensures Takes(k, WrittenAgain(k, t), CopyWhole, CopiedAgain(k, t))
  {
    hide Answers, Cleans, Claimable, PairCommand, Add, Sub, OfRows;
    ClaimableIs(k, t);
    assert t.x in multiset{t.x, t.y};
    CanWrite(k, AllAborted(k, t), t.both, multiset{t.x, t.y});
    WrittenAgainIs(k, t);
  }

  lemma BothRoot(w: Contents, t: Trio)
    requires t.both in w && w[t.both] == multiset{t.x, t.y}
    ensures Root({t.both}, w) == OfRows(multiset{t.x, t.y}) != Zero && Root({}, w) == Zero
  {
    hide OfRows, RowsOf;
    RowsOfPick({t.both}, w, t.both);
    assert {t.both} - {t.both} == {};
    NoRows(w);
    assert RowsOf({t.both}, w) == multiset{t.x, t.y};
    assert t.x in multiset{t.x, t.y};
    RootNonZero({t.both}, w, t.both);
  }

  lemma NoRows(w: Contents)
    ensures RowsOf<string>({}, w) == multiset{} && Root({}, w) == Zero
  {}

  lemma CanPublish(k: PartitionKey, t: Trio)
    requires IsTrio(t)
    ensures Takes(k, CopiedAgain(k, t), Journal([]), Promised(k, t))
    ensures Takes(k, Promised(k, t), Replace, Shown(k, t))
    ensures Takes(k, Shown(k, t), Stop, Shown(k, t).(pc := Idle))
  {
    hide Intakes, Cleans, WrittenAgain, PairCommand, Add, OfRows, Root, Post;
    var c := CopiedAgain(k, t);
    WrittenAgainIs(k, t);
    PairIs(k, t);
    PairIsFirst(k, t);
    BothRoot(c.written, t);
    AddZero(Root({t.both}, c.written));
    AddCommutes(Zero, Root({t.both}, c.written));
    assert c.shadowBase + c.shadowAdded == {t.both};
  }

  lemma IsStuck(k: PartitionKey, t: Trio)
    requires IsTrio(t)
    ensures Stuck(Shown(k, t).(pc := Idle), PairCommand(k, t))
  {
    hide WrittenAgain, PairCommand, Add, OfRows, Root, Post;
    var c, h := Shown(k, t), Value(OfRows(multiset{t.x}));
    WrittenAgainIs(k, t);
    PairIs(k, t);
    PairIsFirst(k, t);
    BothRoot(c.written, t);
    assert h in Hashes(PairCommand(k, t).candidates);
    assert multiset{t.x, t.y} != multiset{t.x} by { assert t.y in multiset{t.x, t.y} && t.y !in multiset{t.x}; }
    if Holds(c.safe, c.written, h) { OfRowsInjective(multiset{t.x, t.y}, multiset{t.x}); }
  }

  lemma Aborts(k: PartitionKey, t: Trio)
    requires IsTrio(t)
    ensures Path(k, Fresh, AllAborted(k, t), 10)
  {
    hide Path, Takes, Written1, Written2, Claimable, Started, ToCopy, HalfAborted, AllAborted, WithRecord, Dropped, PairCommand;
    CanWritePair(k, t);
    CanChoose(k, t);
    CanAbortPair(k, t);
    assert Path(k, Fresh, Fresh, 0) by { PathStart(k, Fresh); }
    Goes(k, Fresh, Fresh, 0, Write(t.a, multiset{t.x}), Written1(t));
    Goes(k, Fresh, Written1(t), 1, Record(t.a), WithRecord(Written1(t), t.a));
    Goes(k, Fresh, WithRecord(Written1(t), t.a), 2, Write(t.b, multiset{t.y}), Written2(t));
    Goes(k, Fresh, Written2(t), 3, Record(t.b), Claimable(t));
    Goes(k, Fresh, Claimable(t), 4, Start(PairCommand(k, t)), Started(Claimable(t), PairCommand(k, t)));
    Goes(k, Fresh, Started(Claimable(t), PairCommand(k, t)), 5, ChoosePath, ToCopy(k, t));
    Goes(k, Fresh, ToCopy(k, t), 6, Discard(t.a), Dropped(ToCopy(k, t), t.a));
    Goes(k, Fresh, Dropped(ToCopy(k, t), t.a), 7, Exclude(t.a), HalfAborted(k, t));
    Goes(k, Fresh, HalfAborted(k, t), 8, Discard(t.b), Dropped(HalfAborted(k, t), t.b));
    Goes(k, Fresh, Dropped(HalfAborted(k, t), t.b), 9, Exclude(t.b), AllAborted(k, t));
  }

  lemma {:induction false} PathKeeps(k: PartitionKey, a: Cell, b: Cell, n: nat)
    requires Sound(a) && SafeDistinct(a) && Path(k, a, b, n)
    ensures Sound(b) && SafeDistinct(b)
    decreases n
  {
    hide Sound, SafeDistinct, Next, Honest;
    if n > 0 {
      var m, s :| Path(k, a, m, n - 1) && Takes(k, m, s, b);
      PathKeeps(k, a, m, n - 1);
      StepKeepsSound(k, m, s, b);
      SoundIsPublishable(m);
      StepKeepsDistinct(k, m, s, b);
    }
  }

  lemma SoundIsPublishable(c: Cell)
    requires Sound(c)
    ensures Publishable(c)
  {}

  /** A stuck publication is never finished, settled or replaced. */
  lemma {:induction false} StuckForever(k: PartitionKey, a: Cell, b: Cell, n: nat, cmd: Promotion)
    requires Sound(a) && SafeDistinct(a) && Stuck(a, cmd) && Path(k, a, b, n)
    ensures Stuck(b, cmd)
    decreases n
  {
    hide Sound, SafeDistinct, Next, Honest, Stuck;
    if n > 0 {
      var m, s :| Path(k, a, m, n - 1) && Takes(k, m, s, b);
      StuckForever(k, a, m, n - 1, cmd);
      PathKeeps(k, a, m, n - 1);
      StuckStays(k, m, cmd, s, b);
    }
  }

  /** Fifteen honest steps of a new partition lead to a publication that is stuck
      in every state that can follow. */
  lemma WholeCopyCanStick(k: PartitionKey, t: Trio) returns (c: Cell, cmd: Promotion)
    requires IsTrio(t)
    ensures Path(k, Fresh, c, 15) && Stuck(c, cmd) && forall b, n :: Path(k, c, b, n) ==> Stuck(b, cmd)
  {
    hide Path, Takes, AllAborted, WrittenAgain, CopiedAgain, Promised, Shown, PairCommand, Stuck, Sound, SafeDistinct;
    c, cmd := Shown(k, t).(pc := Idle), PairCommand(k, t);
    Aborts(k, t);
    CanCopyAgain(k, t);
    CanPublish(k, t);
    IsStuck(k, t);
    Goes(k, Fresh, AllAborted(k, t), 10, Write(t.both, multiset{t.x, t.y}), WrittenAgain(k, t));
    Goes(k, Fresh, WrittenAgain(k, t), 11, CopyWhole, CopiedAgain(k, t));
    Goes(k, Fresh, CopiedAgain(k, t), 12, Journal([]), Promised(k, t));
    Goes(k, Fresh, Promised(k, t), 13, Replace, Shown(k, t));
    Goes(k, Fresh, Shown(k, t), 14, Stop, c);
    FreshSound();
    FreshInventory();
    PathKeeps(k, Fresh, c, 15);
    forall b, n | Path(k, c, b, n) ensures Stuck(b, cmd) { StuckForever(k, c, b, n, cmd); }
  }
}
