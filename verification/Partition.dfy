/** One partition of one table on an SNode: its ledger entry, its three
    ClickHouse inventories and the promotion handler that holds its lock, as a
    state machine whose steps are single durable writes. `Stop` is a handler
    error or a process crash at any point: only the handler's position is lost.

    A part is named by the hg_unsafe part it was written as; ATTACH and REPLACE
    copy parts without changing their rows, so each inventory is a set of such
    names. The last fields of a cell are history that no step reads. */
module Partition {
  import opened LtHash
  import opened Ledger
  import opened PartSums

  /** Where the promotion handler stands. */
  datatype Pc =
    | Idle
    | Based(cmd: Promotion)          // the shadow holds a copy of hg_safe
    | AttachWhole(cmd: Promotion)    // the candidates covered hg_unsafe
    | AttachSubset(cmd: Promotion)
    | Attached(cmd: Promotion)       // the shadow is complete
    | Journaled(cmd: Promotion)      // the intent is durable
    | Replaced(cmd: Promotion)       // REPLACE PARTITION is visible

  datatype Cell = Cell(
    led: Entry,
    unsafe: set<string>,
    safe: set<string>,
    shadowBase: set<string>,
    shadowAdded: set<string>,
    pc: Pc,
    // history
    written: Contents,                     // every part ever inserted
    applied: set<string>,                  // parts whose promotion was journaled as applied
    discarded: set<string>,                // parts an abort or a rejected-part cleanup dropped or took back
    changes: multiset<nat>,                // promotions whose REPLACE changed hg_safe
    refusals: set<nat>,                    // promotions journaled as not applied
    duties: map<CleanupId, set<string>>,   // the parts each cleanup is for
    accepted: set<CleanupId>)              // cleanups whose ack the arbiter accepted

  const Fresh: Cell := Cell(EmptyEntry, {}, {}, {}, {}, Idle, map[], {}, {}, multiset{}, {}, map[], {})

  // ---- what the handlers compute ----------------------------------------

  function Post(cmd: Promotion): Hash {
    Add(Parse(cmd.base), Sum(Values(Hashes(cmd.candidates))))
  }

  function IntentFor(cmd: Promotion, before: seq<SafePart>): Intent {
    Intent(cmd.promotionSeq, cmd.base, Post(cmd), cmd.baseSnapshot, Hashes(cmd.candidates), Names(cmd.candidates), before)
  }

  predicate Matches(i: Intent, cmd: Promotion) {
    i == IntentFor(cmd, i.safeBefore)
  }

  /** Every hash is present and no two are equal. */
  predicate ValidHashes(hs: seq<Hex>) {
    (forall i :: 0 <= i < |hs| ==> hs[i].Value?) && (forall i, j :: 0 <= i < j < |hs| ==> hs[i] != hs[j])
  }

  predicate ValidCandidates(cmd: Promotion) {
    ValidHashes(Hashes(cmd.candidates))
  }

  ghost predicate ShadowDistinct(c: Cell) {
    && c.shadowBase !! c.shadowAdded
    && DistinctHashes(c.shadowBase + c.shadowAdded, c.written)
  }

  ghost predicate DistinctHashes(s: set<string>, w: Contents) {
    forall a, b :: a in s && b in s && a != b ==> PartHash(w, a) != PartHash(w, b)
  }

  /** The kept parts are, hash for hash, the candidates. */
  ghost predicate MatchedSubset(keep: set<string>, w: Contents, hs: seq<Hex>) {
    && |keep| == |hs|
    && (forall n :: n in keep ==> Value(PartHash(w, n)) in hs)
    && (forall h :: h in hs ==> Holds(keep, w, h))
  }

  ghost function ShadowRoot(c: Cell): Hash {
    Add(Root(c.shadowBase, c.written), Root(c.shadowAdded, c.written))
  }

  /** The whole-partition scan after REPLACE accepts hg_safe for `cmd`. */
  ghost predicate MappingsOk(c: Cell, cmd: Promotion) {
    && DistinctHashes(c.safe, c.written)
    && Root(c.safe, c.written) == Post(cmd)
    && ValidCandidates(cmd)
    && forall i :: 0 <= i < |cmd.candidates| ==> Holds(c.safe, c.written, cmd.candidates[i].rowHash)
  }

  ghost predicate Holds(s: set<string>, w: Contents, h: Hex) {
    exists n :: n in s && Value(PartHash(w, n)) == h
  }

  /** The command is new, and no intent blocks it: there is none, or it is
      this command's own and its REPLACE never became visible. */
  ghost predicate Unpublished(c: Cell, cmd: Promotion) {
    && c.pc.Idle?
    && cmd.promotionSeq > c.led.watermark
    && (c.led.intent.Some? ==> Matches(c.led.intent.value, cmd) && Root(c.safe, c.written) == Parse(cmd.base))
  }

  /** The command's own intent is pending and its REPLACE is visible. */
  ghost predicate Published(c: Cell, cmd: Promotion) {
    && c.pc.Idle?
    && cmd.promotionSeq > c.led.watermark
    && c.led.intent.Some? && Matches(c.led.intent.value, cmd)
    && Root(c.safe, c.written) != Parse(cmd.base)
    && Root(c.safe, c.written) == Post(cmd)
  }

  predicate AppliedAck(ack: PromotionAck, cmd: Promotion) {
    ack.promotionSeq == cmd.promotionSeq && ack.applied && ack.post == Value(Post(cmd))
  }

  predicate RefusalAck(ack: PromotionAck, cmd: Promotion) {
    ack.promotionSeq == cmd.promotionSeq && !ack.applied
  }

  /** finishAppliedPromotion's state write. */
  ghost function ApplyPromotion(c: Cell, cmd: Promotion, ack: PromotionAck): Cell {
    var names := Names(cmd.candidates);
    c.(led := RecordApplied(c.led, cmd.promotionSeq, ack, Value(Post(cmd)), cmd.baseSnapshot, Hashes(cmd.candidates), names),
       applied := c.applied + SetOf(names),
       duties := c.duties[CleanupId(cmd.promotionSeq, 0) := SetOf(names)],
       shadowBase := {}, shadowAdded := {}, pc := Idle)
  }

  // ---- steps ------------------------------------------------------------

  datatype Step =
    | Start(cmd: Promotion)
    | ChoosePath
    | CopyWhole
    | CopySubset(keep: set<string>)
    | Journal(before: seq<SafePart>)
    | Replace
    | Finish(ack: PromotionAck)
    | Recover(cmd: Promotion, ack: PromotionAck)
    | RefuseBase(cmd: Promotion, ack: PromotionAck)
    | Settle(cmd: Promotion, ack: PromotionAck)
    | Refresh(ack: PromotionAck)
    | Stop
    | Write(name: string, rows: multiset<Row>)
    | Record(name: string)
    | Discard(name: string)
    | Exclude(name: string)
    | CleanupDrop(name: string)
    | ExecuteCleanup(cleanup: Cleanup, node: string)
    | Reject(id: CleanupId, names: set<string>)
    | Accept(id: CleanupId)
    | Clear(cleanupAck: CleanupAck)

  /** Filling the shadow and publishing it. */
  ghost predicate Builds(c: Cell, s: Step, c': Cell) {
    match s
    case Start(cmd) =>
      && Unpublished(c, cmd) && cmd.base == c.led.base && ValidCandidates(cmd)
      && c' == c.(shadowBase := if cmd.base.Unset? then {} else c.safe, shadowAdded := {}, pc := Based(cmd))
    case ChoosePath =>
      && c.pc.Based?
      && "" !in Names(c.pc.cmd.candidates)
      && c' == c.(pc := if c.unsafe == SetOf(Names(c.pc.cmd.candidates)) then AttachWhole(c.pc.cmd) else AttachSubset(c.pc.cmd))
    case CopyWhole =>
      c.pc.AttachWhole? && c' == c.(shadowAdded := c.unsafe, pc := Attached(c.pc.cmd))
    case CopySubset(keep) =>
      && c.pc.AttachSubset? && keep <= c.unsafe
      && MatchedSubset(keep, c.written, Hashes(c.pc.cmd.candidates))
      && c' == c.(shadowAdded := keep, pc := Attached(c.pc.cmd))
    case Journal(before) =>
      && c.pc.Attached?
      && ShadowRoot(c) == Post(c.pc.cmd) && ShadowDistinct(c)
      && var led := Begin(c.led, IntentFor(c.pc.cmd, before));
      && led.Some? && c' == c.(led := led.value, pc := Journaled(c.pc.cmd))
    case Replace =>
      && c.pc.Journaled?
      && var next := c.shadowBase + c.shadowAdded;
      && c' == c.(safe := next, pc := Replaced(c.pc.cmd),
                  changes := if Root(next, c.written) == Root(c.safe, c.written) then c.changes
                             else c.changes + multiset{c.pc.cmd.promotionSeq})
    case _ => false
  }

  /** Journaling an acknowledgement, or stopping. */
  ghost predicate Answers(c: Cell, s: Step, c': Cell) {
    match s
    case Finish(ack) =>
      && c.pc.Replaced? && MappingsOk(c, c.pc.cmd) && AppliedAck(ack, c.pc.cmd)
      && c' == ApplyPromotion(c, c.pc.cmd, ack)
    case Recover(cmd, ack) =>
      && Published(c, cmd) && MappingsOk(c, cmd) && AppliedAck(ack, cmd)
      && c' == ApplyPromotion(c, cmd, ack)
    case RefuseBase(cmd, ack) =>
      && Unpublished(c, cmd) && cmd.base != c.led.base && RefusalAck(ack, cmd)
      && c' == c.(led := RecordAck(c.led, cmd.promotionSeq, ack, c.led.base, c.led.baseSnapshot),
                  refusals := c.refusals + {cmd.promotionSeq})
    case Settle(cmd, ack) =>
      && Unpublished(c, cmd) && RefusalAck(ack, cmd)
      && c' == c.(led := RecordSettledNotApplied(c.led, cmd.promotionSeq, ack, c.led.base, c.led.baseSnapshot),
                  refusals := c.refusals + {cmd.promotionSeq}, shadowBase := {}, shadowAdded := {})
    case Refresh(ack) =>
      && c.pc.Idle?
      && var led := RecordRefreshedAck(c.led, ack);
      && led.Some? && c' == c.(led := led.value)
    case Stop =>
      c' == c.(pc := Idle)
    case _ => false
  }

  /** Intake writing, counting and taking back a part. */
  ghost predicate Intakes(c: Cell, s: Step, c': Cell) {
    match s
    case Write(name, rows) =>
      && name !in c.written && name != "" && rows != multiset{}
      && c' == c.(unsafe := c.unsafe + {name}, written := c.written[name := rows])
    case Record(name) =>
      && name in c.unsafe
      && var led := AddUnpromotedPart(c.led, name, PartHash(c.written, name));
      && led.Some? && c' == c.(led := led.value)
    case Discard(name) =>
      name in c.written && c' == c.(unsafe := c.unsafe - {name}, discarded := c.discarded + {name})
    case Exclude(name) =>
      && name !in c.unsafe
      && var led := RemoveUnpromotedPart(c.led, name, PartHash(c.written, name));
      && led.Some? && c' == c.(led := led.value, discarded := c.discarded + {name})
    case _ => false
  }

  /** Cleanups, as ordered, executed and acknowledged. */
  ghost predicate Cleans(k: PartitionKey, c: Cell, s: Step, c': Cell) {
    match s
    case CleanupDrop(name) =>
      c' == c.(unsafe := c.unsafe - {name})
    case ExecuteCleanup(cleanup, node) =>
      && (forall n :: n in Names(cleanup.parts) ==> n !in c.unsafe)
      && var id := CleanupId(cleanup.promotionSeq, cleanup.rejectedBlockSeq);
      && var led := RecordExecutedCleanup(c.led, k, cleanup, CleanupAck(node, id));
      && led.Some?
      && c' == c.(led := led.value,
                  discarded := if cleanup.rejectedBlockSeq == 0 then c.discarded else c.discarded + SetOf(Names(cleanup.parts)))
    case Reject(id, names) =>
      c' == c.(duties := c.duties[id := names])
    case Accept(id) =>
      id in c.led.owed && c' == c.(accepted := c.accepted + {id})
    case Clear(ack) =>
      ack.id in c.accepted && c' == c.(led := ClearOwed(c.led, ack))
    case _ => false
  }

  ghost predicate Next(k: PartitionKey, c: Cell, s: Step, c': Cell) {
    match s
    case Start(_) | ChoosePath | CopyWhole | CopySubset(_) | Journal(_) | Replace =>
      Builds(c, s, c')
    case Finish(_) | Recover(_, _) | RefuseBase(_, _) | Settle(_, _) | Refresh(_) | Stop =>
      Answers(c, s, c')
    case Write(_, _) | Record(_) | Discard(_) | Exclude(_) =>
      Intakes(c, s, c')
    case CleanupDrop(_) | ExecuteCleanup(_, _) | Reject(_, _) | Accept(_) | Clear(_) =>
      Cleans(k, c, s, c')
  }
}
