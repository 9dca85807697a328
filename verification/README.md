# Storage node, audit, memo, normaliser and wire checks of arbiter-core

This project models the parts of arbiter-core that are hard to get right and
proves what they are for. Row LtHashes are the free abelian group over row ids
(`LtHash.dfy`): two accumulators are equal exactly when they hold the same rows
with the same multiplicities.

**Promotion, intake and cleanup.** `Ledger.dfy` says what each durable ledger
write does to one partition's entry, and `LedgerEffects.dfy` what each write is
for; `StateStore.dfy` is the store itself, a class over flat maps with NUL-joined string keys (`Keys.dfy`), proved against
those functions, with the table-wide operations. `Partition.dfy` is one
partition as a state machine: ledger entry, the hg_unsafe, hg_safe and
hg_promote inventories and the promotion handler, one step per durable write,
with a stop (error or crash) possible anywhere. `Publication.dfy` proves
crash-safe publication for arbitrary commands. For honest commands `Books.dfy`
keeps the sums, the exclusion list and the owed cleanups, `ReadSurface.dfy` says
what readers see and exactly when the unpromoted sum is conserved,
`Inventory.dfy` what the closure gate admits and when a publication finishes,
`Progress.dfy` exactly when a promotion can be carried through, and
`PurgeGate.dfy` exactly when an open cleanup holds the purge gate.
`GateOpening.dfy` carries cleanups through to the open gate and starts the next
incarnation, and `AppliedInventory.dfy` says what an applied promotion records and
what the audit makes of it. `Intake.dfy`
puts all partitions, the statement journal and the intake lock together;
`IntakeProof.dfy`, `IntakeSteps.dfy`, `IntakeWrites.dfy` and `IntakeTheorems.dfy`
prove exactly-once intake and the read surface per row; `IntakeProgress.dfy`
proves that a new statement can always be written, `ServedClaim.dfy` that its
readers see it, `IntakeRecovery.dfy` that it survives a crash, `Projection.dfy` that a run of
the node is an honest run of each partition, and `TableGate.dfy` is the whole
purge gate, records included. `Crossing.dfy` and `StuckPromotion.dfy` are runs in
which an abort crosses a promotion. `AbortParts.dfy` and `AdmissionGate.dfy` are
the abort's name check and the registry gate.
`SubsetMatch.dfy`, `ShadowBuild.dfy` and `SafeScan.dfy` are the loops that fill
and check the shadow and the published partition, tied to the machine's guards
there and in `SubsetGuard.dfy`.

**Owner audit.** `AuditReference.dfy`, `AuditPlan.dfy`, `AuditRepair.dfy`,
`AuditHold.dfy` and `RebuiltInventory.dfy`.

**Smaller cores.** `Memo.dfy` and `MemoRuns.dfy` (replay memo),
`Normalizer.dfy`, `Normalize.dfy` and `NormalizeAccepts.dfy`
(consensus-parameter updates),
`WireDecoder.dfy` and `WireOneofs.dfy` (strict pre-decoder), `Restore.dfy`
(selected restore), `LaunchBarrier.dfy` (worker coordinator). `Sorting.dfy`, `Canonical.dfy`,
`Counting.dfy`, `PartSums.dfy` and `Options.dfy` are shared.

What is given from outside and enters as a parameter or a nondeterministic
step: ClickHouse (each statement atomic, part names not reused, a part's rows
never change), the arbiter's commands and answers, the registry, the clock,
cancellation, scheduling, redelivery, and whether a state write is durable.

**Honest.** Crash-safe publication needs no assumption about commands. The
rest assumes of the actors around the SNode:

- a promotion names parts as intake recorded them, none that was promoted before
  and none of a record that is still Preparing, unless an abort took it back;
- a cleanup drops the parts it is for, and a rejected block names parts that
  intake recorded;
- a rejected-part cleanup drops no part of a record that is still Preparing,
  unless an abort dropped it before;
- an INSERT that returned wrote each row once.

Nothing keeps them apart: promotions, aborts and rejected-part cleanups may reach
the same part in any order. The results about one partition take from intake what
`Projection.dfy` proves of it: an abort takes back only parts that were recorded.

Findings:

- A promotion whose candidates leave the root unchanged (no candidates, say) is
  not recognised after a crash and is replaced again (`PublishedTwice`); the
  content is the same either way (`RecognisedExactlyWhenContentChanged`,
  `PublishedOnce`).
- While the outcome of a claim is unknown the arbiter may promote its parts and the
  statement may be aborted all the same. A part's hash then leaves the unpromoted
  sum twice. Fifteen steps of an empty node end with a cleaned statement whose row
  readers still see, a wrong sum, and a purge gate that stays shut with nothing
  left to do (`PromotionCrossedByAbort`). In every state of every honest run the
  sum is the root of the unpromoted parts exactly if no step before took a
  promoted part out of the accounting or applied a promotion of a part that was
  taken out (`ConservedExactlyUntilCrossed`, `ConservedExactlyUnlessCrossed`).
- The closure gate is described as admitting exactly the candidates. It compares
  roots, so it admits exactly their rows (`GateAdmitsExactlyCandidates`). If an
  abort drops the candidates between the choice of the whole-partition copy and
  the copy, and the statement is written again with its rows divided otherwise,
  the promotion is published and then never finished or settled
  (`WholeCopyCanStick`); without such a copy it always finishes
  (`PublishedFinishes`).
- A statement that was promoted, aborted and written again as the same part
  content cannot be promoted again: an undisturbed handler passes the gate exactly
  if no candidate's content is in hg_safe (`JournalsExactly`).
- The purge gate is meant to hold a table while a cleanup of it is
  unacknowledged. An abort can overtake a rejected-part cleanup: it takes the
  parts out of the unpromoted sum before the cleanup executes, its record becomes
  Cleaned, and the gate opens (`OvertakenOpensGate`). An open cleanup holds the
  gate exactly when it was not overtaken (`HoldsExactlyWhenNotOvertaken`,
  `GateOpensExactlyWhenOvertaken`). Even so nothing readable is lost: when the
  gate opens, hg_safe holds every row of the parts that were not discarded
  (`OpenGateLosesNothing`).
- The comment on the purge gate says a prepare re-reads the registry under the
  lock; the code does so only for a fresh admission. A prepare that found an
  unfinished record goes on without it (`UncheckedPrepare`). The gate is sound
  because it is judged only when no unfinished record exists.
- The strict pre-decoder does not look at oneofs below the top. RaftCommand has
  one: the action of the ArtifactDisposition command (field 28, then 1, then 7).
  So a log entry with two actions is accepted and decoding keeps one of them
  (`RaftCommandLosesAction`), although encoding refuses such a command. Every
  accepted command decodes whole exactly for descriptors without a oneof of two
  sendable fields below the top (`WholeExactlyWithoutNestedOneof`).

## Model

| member | source | states |
|---|---|---|
| Publication.StepKeepsPublishable | snode/promote_replace.go:23-151 | every step of promotion, settle, intake, cleanup and every stop keeps: hg_safe's root is the base, or with an intent (seq above the watermark, base equal to the ledger's) the base or the post root; each promotion changed hg_safe at most once; a refused one never did and never will |
| Publication.EveryRunPublishable | snode/promote.go:19-75 | that invariant holds in every state of every run of arbitrary commands, redeliveries and crashes |
| Publication.NoPublicationAfterRefusal | snode/settle.go:90-146 | once a not-applied acknowledgement of a promotion is journaled (base mismatch or settle), no later REPLACE in the run is for it |
| Publication.PublishedOnce | snode/promote_replace.go:106-151 | two REPLACEs of one promotion are possible only if its candidates leave the root unchanged |
| Publication.PublishedTwice | snode/promote_replace.go:129-142 | the exception is reached: an eleven-step run in which a promotion without candidates stops after REPLACE and is replaced again when redelivered |
| Publication.RecognisedExactlyWhenContentChanged | snode/promote_replace.go:129-142 | after a crash between REPLACE and the final journal write, reconciliation recognises the publication exactly when the promotion changes the root; otherwise it takes the build path again |
| Publication.RunAdvances | snode/state.go:288-395 | watermarks only rise and recorded changes of hg_safe are never lost, over every run |
| Inventory.GateAdmitsExactlyCandidates | snode/promote_replace.go:54-88 | whichever attach path filled the shadow and whatever raced into hg_unsafe, the closure gate passes only if the shadow holds exactly the rows of the promoted parts and of the candidates; it holds the candidates part for part exactly if each candidate's content is there, and the named parts if none had left hg_unsafe |
| Books.StepKeepsSound | snode/promote.go:132-152 | every honest step, with aborts and rejected-part cleanups of promoted parts and promotions of removed parts included, keeps base root, unpromoted sum, exclusion list, owed cleanups and handler in agreement; the sum is the root of the unpromoted parts less the root of the parts that left it twice |
| Books.EveryHonestRunSound | snode/cleanup.go:19-112 | the agreement holds in every state of every honest run of one partition |
| ReadSurface.ConservedExactly | snode/state.go:517-523 | the unpromoted sum is the root of the recorded parts that are neither promoted nor removed exactly while no part is both |
| ReadSurface.BreaksExactly | snode/state.go:491-515 | an honest step breaks that exactly if it takes a promoted part out of the accounting (an abort, a rejected-part cleanup) or applies a promotion of a part that was taken out |
| ReadSurface.ConservedExactlyUntilCrossed | snode/state.go:356-395 | so over every honest run it holds in a state exactly if no step before did either; the first such step breaks it for good |
| ReadSurface.SurfaceIsExact | snode/state.go:417-447 | without a pending intent, hg_safe plus hg_unsafe minus the exclusion holds the rows of each part that was promoted or not discarded exactly once, and hg_safe those of the promoted parts |
| Books.RemoveRejectedBalanced | snode/state.go:556-587 | a rejected-part cleanup takes each recorded part's hash out of the unpromoted sum once, however often the command repeats the part or is delivered, promoted parts included |
| Books.AppliedBalanced | snode/state.go:356-395 | an applied promotion leaves the base root equal to the root of the promoted parts and the unpromoted sum balanced, candidates that were taken out before included |
| ReadSurface.SourceViewIsRecorded | snode/view.go:21-44 | base root plus unpromoted sum is the root of exactly the parts intake recorded and nothing removed |
| ReadSurface.ApplyKeepsSourceView | snode/view.go:74-102 | an applied promotion leaves that sum unchanged |
| Inventory.PublishedFinishes | snode/promote_match.go:22-87 | in every state of every honest run a publication that became visible passes the scan that finishes it exactly if each candidate's content is in hg_safe, and always unless a candidate left hg_unsafe before a whole-partition copy |
| Inventory.StuckStays | snode/settle.go:82-116 | one that does not pass stays so under every step of every actor: it is neither finished nor settled nor replaced |
| Inventory.EveryRunDistinct | snode/promote_replace.go:79-88 | in every state of every run, whatever the commands, no two parts of hg_safe have the same content |
| StuckPromotion.WholeCopyCanStick | snode/promote_replace.go:294-327 | a fifteen-step honest run of a new partition, with an abort and a rewrite between the choice of the whole copy and the copy, to a publication that is stuck in every state that can follow |
| ReadSurface.QuiescentExactly | snode/registry.go:154-185 | a partition is quiescent exactly when it has no intent, every promoted part has left the exclusion, nothing is owed, and the unpromoted parts hold exactly the rows of the parts that left the sum twice: none while the sum is conserved, so accounting holds the gate from the recording of a part |
| Progress.PromotionCompletes | snode/promote_replace.go:23-105 | from every idle state of an honest run without an intent, or with the command's own unpublished one, six honest steps carry an honest new command over the current base whose contents are not in hg_safe through copy, journal, REPLACE and scan: exactly its candidates join hg_safe, the base becomes the post root, no intent is left |
| Progress.JournalsExactly | snode/promote_replace.go:83-96 | that condition is exact: an undisturbed handler passes the closure gate exactly if no candidate's content is in hg_safe |
| Progress.DeliveryDecides | snode/promote.go:39-75 | a new command that finds the handler idle is unpublished or published, never both, and neither exactly while another's intent is pending |
| Progress.PublishedRecovers | snode/promote_replace.go:106-151 | a visible publication whose scan passes is finished by redelivery without another REPLACE |
| Progress.UnpublishedSettles | snode/settle.go:82-146 | an unpublished command can be settled: hg_safe stays, the intent goes, and its number is used up |
| AppliedInventory.AppliedRecords | snode/promote.go:132-152 | after every applied promotion, finished or recovered, the ledger holds its acknowledgement, post root, snapshot and number, and the partition the acknowledgement lists as inventory |
| AppliedInventory.AppliedStaysOnRecord | snode/state.go:262-304 | in every state of every run that inventory stays until the next promotion is applied, through refusals, settles, refreshes, cleanups and crashes |
| AppliedInventory.AppliedIsClean | snode/owner_audit_plan.go:47-109 | until then the audit chooses it, whether or not the arbiter can be read, and its verdict on the listed partition is clean |
| AppliedInventory.ScanIsListed | snode/promote_match.go:22-87 | what the finishing scan returns lists exactly the active parts, by name and file hash |
| AppliedInventory.FinishAppliedPromotion | snode/promote.go:132-152 | acknowledges what was scanned and records it as the inventory in the same write; a write that fails changes nothing |
| AppliedInventory.RefusalRecords | snode/settle.go:118-146 | a base mismatch or a not-applied answer changes the last acknowledgement and the watermark, keeps the known inventory, and removes the intent it answers |
| AppliedInventory.RefreshRecords | snode/promote.go:77-98 | a completed acknowledgement replaces the stored one and gives the inventory if there was none |
| AppliedInventory.JournalRecords | snode/promote_replace.go:89-96 | the journaled intent names the command, the shadow's root and the parts of hg_safe seen before REPLACE |
| PurgeGate.OpenCleanupShutsGate | snode/registry.go:135-185 | in every state of every honest run an unaccepted cleanup with parts keeps its whole table from being quiescent, unless it was overtaken or the sum is no longer conserved; a promotion's cleanup is never overtaken |
| PurgeGate.HoldsExactlyWhenNotOvertaken | snode/state.go:491-587 | the cleanup itself holds the gate exactly unless it has not executed and each of its parts, none excluded from reads, was promoted or taken out of the accounting by an abort or another cleanup |
| PurgeGate.GateOpensExactlyWhenOvertaken | snode/registry.go:113-134 | where one open cleanup is all that is left to do in a partition and the sum is conserved, the partition is quiescent exactly when that cleanup was overtaken; and where it was overtaken, exactly when the sum is conserved |
| PurgeGate.CrossedHolds | snode/registry.go:154-185 | where the sum is not conserved and nothing unpromoted is left, the gate stays shut |
| PurgeGate.AbortOvertakesCleanup | snode/staged.go:412-470 | an honest run of one partition in which an abort overtakes an open cleanup and the partition is quiescent |
| PurgeGate.RemovedExactlyWhenTakenOut | snode/state.go:491-587 | a part has the removed marker exactly when an abort excluded it or a rejected-part cleanup naming it executed, and keeps it |
| PurgeGate.OwedExactlyWhenExecuted | snode/state.go:595-665 | until the arbiter accepts it, an acknowledgement is owed exactly when its cleanup executed |
| PurgeGate.RecordedShutsGate | snode/registry.go:135-185 | from its recording until it is promoted or taken out, a part keeps its table from being quiescent, while the sum is conserved |
| PurgeGate.AppliedOpensCleanup | snode/promote.go:132-152 | every applied promotion that names candidates opens a cleanup |
| GateOpening.CleanupCompletes | snode/cleanup.go:19-112 | from every honest state every due cleanup can be carried out, one step per part and one write: its acknowledgement is owed and none of its parts is in hg_unsafe, excluded or, if rejected, still counted |
| GateOpening.AcceptedIsCleared | snode/state.go:650-665 | an owed acknowledgement that is accepted and cleared is owed no more, and nothing else changes |
| GateOpening.GateOpens | snode/registry.go:154-185 | from every honest state in which only acknowledgements are owed, clearing them opens the gate if and only if the sum is conserved |
| GateOpening.FirstPromotionApplies | snode/registry.go:187-201 | while no base is set, as after ForgetTable, a first promotion is not refused and six honest steps apply it |
| GateOpening.KeptBaseRefuses | snode/promote.go:56-66 | with another base it cannot start and is answered as a mismatch |
| TableGate.OpenGateLosesNothing | snode/registry.go:136-152 | in every world of an honest run, once no record of a table is unfinished and its ledger is quiescent, hg_safe holds every row of the parts that were not discarded; if the sum is conserved, hg_unsafe is empty and every part ever written was promoted or discarded |
| Projection.HistoryProjects | snode/staged.go:85-209 | what a partition goes through in an honest run of the node is an honest run of it |
| Projection.ConservedExactlyUnlessCrossed | snode/converge.go:164-227 | in every world of every honest run the unpromoted sum of a partition is the root of its unpromoted parts exactly if no abort and no rejected-part cleanup took out a part that was promoted |
| Projection.WholeGateExactly | snode/registry.go:136-152 | the whole gate, records included, opens over an unaccepted cleanup only if the cleanup was overtaken or the sum is not conserved; and where that cleanup is all that is left to do in the table, exactly if it was overtaken |
| Crossing.AbortAfterPromotion | snode/staged.go:412-470 | from every world of an honest run, aborting a statement saved as one counted part that was promoted takes four honest steps, leaves its record Cleaned and the part promoted, and breaks the sum |
| Crossing.PromotionCrossedByAbort | snode/converge.go:164-227 | a fifteen-step honest run from an empty node through prepare, promotion and abort, at whose end the statement is cleaned, readers see its row, the sum is not conserved and the gate is shut with nothing unfinished or unpromoted |
| TableGate.OvertakenOpensGate | snode/registry.go:136-152 | a ten-step honest run from an empty node, through prepare, rejection and abort, at whose end the whole gate is open over an unaccepted cleanup |
| TableGate.AbortAfterReject | snode/staged.go:412-470 | such a run continues every honest run at a statement saved as one counted part, while the outcome of its claim is unknown |
| StateStore.Store.BeginPromotion | snode/state.go:200-222 | journals the intent, refreshes the same command's with the parts of hg_safe it saw, refuses another's; nothing else of the entry changes, other partitions keep theirs, a failed write changes nothing |
| LedgerEffects.BeginEffect | snode/state.go:200-222 | refused exactly if a pending intent differs in anything but the parts of hg_safe it saw |
| StateStore.Store.RecordAck | snode/state.go:288-304 | the partition's entry becomes the specified one, an inventory known only from the last acknowledgement is written down, other partitions keep theirs |
| LedgerEffects.AckEffect | snode/state.go:288-304 | a refusal is the last acknowledgement; the inventory known before, recorded or listed by the last applied acknowledgement, is written down |
| StateStore.Store.RecordSettledNotApplied | snode/state.go:306-330 | as RecordAck, and an intent of that promotion is removed in the same write |
| StateStore.Store.RecordRefreshedAck | snode/state.go:332-354 | accepted exactly for the stored acknowledgement's promotion; completes its inventory, nothing else |
| LedgerEffects.RefreshEffect | snode/state.go:332-354 | only the stored acknowledgement is refreshed; its list becomes the inventory exactly if none as new is known |
| StateStore.Store.RecordAppliedPromotion | snode/state.go:356-395 | drains every candidate hash, merges the part names without repetition, moves base, snapshot and watermark, removes the intent and records the complete partition the acknowledgement lists as the inventory, in one write that changes nothing else |
| LedgerEffects.AppliedEffect | snode/state.go:356-395 | what an applied promotion leaves of the entry, field by field: the sum less the hashes, the exclusion with each name once, the listed partition as inventory |
| StateStore.Store.AddUnpromotedPart | snode/state.go:466-489 | adds a part once; a repeat with the same hash changes nothing, with another is refused |
| LedgerEffects.AddEffect | snode/state.go:466-489 | a part is counted once; another hash under its name, or any after it was removed, is refused |
| StateStore.Store.RemoveUnpromotedPart | snode/state.go:491-515 | removes a part once; a repeat changes nothing, another hash is refused; an unrecorded part is subtracted all the same |
| LedgerEffects.RemoveEffect | snode/state.go:491-515 | refused exactly for another hash; a part leaves the sum once |
| StateStore.CheckRejectedParts | snode/state.go:517-554 | accepts exactly commands without promotion seq whose parts are of the partition, named, and recorded with that hash, removed or never recorded |
| StateStore.RemoveRejectedParts | snode/state.go:556-587 | the loop computes the specified entry and touches no other partition |
| StateStore.Store.RecordExecutedCleanup | snode/state.go:595-648 | one write removes rejected parts from the sum, cleaned names from the exclusion and records the acknowledgement as owed; refusals and failed writes change nothing |
| LedgerEffects.CleanupWrites | snode/state.go:595-648 | when a cleanup is refused; else exactly its parts leave the exclusion, it is owed, and a rejected-part cleanup marks exactly its recorded parts as removed |
| StateStore.Store.ClearOwedCleanupAck | snode/state.go:650-665 | clears exactly that owed entry and no other partition's |
| LedgerEffects.ClearEffect | snode/state.go:650-665 | exactly the matching owed entry goes |
| StateStore.Store.PromotedUnsafeParts | snode/state.go:417-447 | refused exactly while some partition of the table has an intent; else the sorted names that some partition of the table lists |
| StateStore.IsTableQuiescent | snode/registry.go:154-185 | the prefix scans answer true exactly when every partition of the table has no intent, no promoted part, a zero sum and no owed acknowledgement |
| StateStore.Store.ForgetTable | snode/registry.go:203-263 | refused exactly when the table is not quiescent; else of every partition of the table only the watermark is left, and no other table changes |
| StateStore.Store.RecordRebuiltSafeInventories | snode/rebuilt_inventory.go:70-113 | all or nothing: refused exactly while an intent is pending anywhere or the journal is behind a publication; each listed partition's inventory is the last one listed for it, marked rebuilt, and nothing else changes |
| StateStore.CheckRebuild | snode/rebuilt_inventory.go:96-113 | admits exactly a journal without intents whose watermarks reach every publication |
| StateStore.PutOnly | snode/state.go:822-828 | a write to one field of one partition is that write to its entry and leaves every other partition's entry as it was |
| StateStore.SubtractHashes | snode/state.go:361-372 | the loop subtracts every listed hash |
| StateStore.MergePartNames | snode/state.go:378-392 | the seen-map loop appends each new non-empty name once |
| Keys.SplitKeyOf | snode/view.go:144-147 | cutting a key at the first NUL gives back the partition it was made from |
| Keys.PrefixIsTable | snode/state.go:822-824 | for ids without NUL the prefix test selects exactly the table's keys |
| Keys.PartKeyInjective | snode/state.go:826-828 | different parts of NUL-free partitions have different intake keys |
| Ledger.SubtractAllSum | snode/state.go:361-372 | draining the hashes of what was added gives back the sum before |
| IntakeWrites.StepKeepsWorld | snode/staged.go:85-209 | every honest step of prepare, insert, accounting, convergence, abort, promotion, cleanup and crash keeps the intake invariant |
| IntakeWrites.EveryWorldOk | snode/converge.go:58-198 | the intake invariant holds in every state of every honest run over all partitions and statements |
| IntakeTheorems.ClaimedExactlyOnce | snode/converge.go:111-132 | a record in UnsafeWritten or RCBound has each derived row id in exactly one part of its claim, once, and in no other part that was not discarded |
| IntakeTheorems.CleanedLeavesNothing | snode/staged.go:121-122 | a statement without a record, or a cleaned one, has no row in any part that was not discarded |
| IntakeTheorems.AbortsDropOnlyOwnRows | snode/converge.go:164-198 | in every honest run an abort drops only parts of its own statement, holding only derived row ids of it |
| IntakeTheorems.ReadersSeeOnce | snode/state.go:76-81 | between promotions a reader of the table sees each row of a claimed statement once, in one partition, if its part was promoted or not discarded as rejected, and nowhere else: exactly unless a promoted part of an earlier, aborted attempt holds the row too |
| IntakeTheorems.ReadersSeeCleanedExactlyIfPromoted | snode/state.go:76-81 | between promotions a reader sees a row of a cleaned statement exactly if a part with the row was promoted |
| IntakeTheorems.ExclusionIsOwn | snode/state.go:417-447 | though the exclusion is by name over the whole table, a part is excluded only for its own promotion |
| IntakeTheorems.BoundStaysBound | snode/journal.go:184-200 | over every honest run, once a claim was accepted its record never changes, aborts and crashes included, and its parts hold each row id of the statement once in every later world |
| IntakeTheorems.ConvergenceDecides | snode/converge.go:111-151 | convergence of an open record has exactly one outcome: complete, partial or failed |
| IntakeSteps.AttributedIsKept | snode/converge.go:80-109 | once no foreign row was seen, the attributed parts are exactly the parts inserted for the statement and not discarded |
| IntakeSteps.AddedIsKept | snode/parts.go:20-34 | the difference of the inventories before and after a write is exactly the statement's parts, whatever promotion and cleanup did meanwhile |
| IntakeProgress.StatementCompletes | snode/staged.go:85-209 | from every world of an honest run with the intake lock free, five honest steps (prepare, insert, inventory difference, accounting, save) take any new or cleaned statement to a claim naming one new part with each of its row ids once |
| ServedClaim.StatementIsServed | snode/staged.go:355-413 | six honest steps write, claim and bind any new statement, and between promotions a reader then sees each of its rows once, exactly unless a promoted part of an aborted attempt holds the row too |
| IntakeRecovery.CompleteWriteConverges | snode/converge.go:80-132 | after a crash behind a complete INSERT, convergence attributes exactly the new part, whatever else is in the partition, and saves the claim |
| IntakeRecovery.NothingWrittenIsCleaned | snode/converge.go:133-151 | after a crash before the INSERT, convergence cleans the statement, which can then be prepared again |
| AbortParts.CompactInPlace | snode/staged.go:490-504 | compaction in place leaves each value once, in strict order |
| AbortParts.RequireExactAbortParts | snode/staged.go:472-488 | accepts exactly the candidates' set of names, order and repetition aside |
| AdmissionGate.NoIntakeBehindGate | snode/registry.go:113-152 | after a table past Active was judged quiescent, no interleaving of prepares, crashes and registry versions opens a record of it until an incarnation is Active again |
| AdmissionGate.GateStaysShut | snode/registry.go:126-134 | so, statuses moving forward only, without a new incarnation it never has an open record again |
| AdmissionGate.UncheckedPrepare | snode/staged.go:100-137 | without the judgement it can: a prepare that converges an unfinished record to Cleaned saves a new Preparing record without reading the registry again |
| AdmissionGate.OpenMeans | snode/registry.go:136-152 | work the gate waits for is every record but a bound or a cleaned one |
| AuditReference.SameContent | snode/owner_audit_plan.go:111-130 | the counting loop answers whether every pair of row hash and file hash occurs equally often |
| AuditReference.SamePartSetIsMultiset | snode/owner_audit_plan.go:132-143 | comparing the sorted lists answers equality of the multisets of (name, hash) |
| AuditReference.ReferenceFor | snode/owner_audit_plan.go:47-109 | refuses exactly an arbiter ahead of the watermark and an equal-seq disagreement; no reference exactly when neither inventory is known; else the newer inventory, this SNode's own on an agreed tie, as the names and file hashes of its parts in their order |
| RebuiltInventory.RebuiltStaysClean | snode/rebuilt_inventory.go:16-25 | after an admitted rebuild, through every refusal, settle and completed acknowledgement, and whether or not the arbiter can be read, the chosen reference is the restored parts and the audit's verdict on them is clean |
| RebuiltInventory.RecordStaysExactly | snode/promote.go:81-98 | the rebuilt record itself stays exactly unless the stored acknowledgement is of a later promotion, has no inventory and closes at the restored hg_safe; completing that one writes the same parts |
| RebuiltInventory.RefreshCloses | snode/promote.go:81-98 | a completed acknowledgement lists parts that add up to its post root |
| AuditPlan.PlanAudit | snode/owner_audit_plan.go:157-215 | grouping by file hash computes the declarative verdict, whatever order the groups are visited in |
| AuditRepair.VerdictMeans | snode/owner_audit_plan.go:157-215 | when each reason is given and exactly which names it lists, in order; something is dropped exactly if every listed part is active, every active part shares its file with an active listed one, and more is active than listed |
| AuditRepair.NoReferenceMeans | snode/owner_audit_plan.go:157-180 | without a reference every active part is listed and nothing dropped |
| AuditRepair.DropsOnce | snode/owner_audit_plan.go:203-214 | no part is to be dropped twice |
| AuditRepair.CleanIffReference | snode/owner_audit_plan.go:203-214 | clean exactly when the active (name, hash) set is the reference's |
| AuditRepair.DropsAreLossless | snode/owner_audit.go:453-467 | after any of the planned drops, in any order and stopping anywhere, every reference part is active and no file content is lost |
| AuditRepair.DropsAreExact | snode/owner_audit.go:468-477 | after all drops the active set is the reference and the verdict is clean |
| AuditRepair.SafePartition.DropResurrectedTwins | snode/owner_audit.go:453-478 | the drop loop, failing at any DROP PART, keeps the reference and all contents; if it does not fail, the partition is the reference and clean |
| AuditRepair.SafePartition.Audit | snode/owner_audit.go:413-451 | refusals, report mode and unrepairable findings change nothing and are reported; a repairable partition is left exactly as the chosen reference if ClickHouse takes the drops; a clean answer means hg_safe is the reference (or empty without one) |
| AuditHold.HeldUntilAuditedAfresh | snode/owner_audit.go:304-341 | from any moment a pass is due, the start included, a table of every later pass is held in every state until an audit of it by a pass begun since the last restart returned without error |
| AuditHold.RestartHoldsAll | snode/owner_audit_plan.go:285-302 | while a due pass has not begun, a restart during a pass included, every table is held |
| AuditHold.FindingHolds | snode/owner_audit_plan.go:265-283 | a finding holds its table until it is cleared or the table is forgotten |
| AuditHold.DoneFreesUnlessDueOrFound | snode/owner_audit_plan.go:304-321 | marking a table done frees it exactly when no pass became due and none of its partitions has a finding |
| AuditHold.ForgottenIsFree | snode/owner_audit_plan.go:383-396 | a forgotten table is held exactly while a pass is due, and no other table's hold changes |
| AuditHold.OwnerAuditState.IsHeld | snode/owner_audit_plan.go:265-283 | the loop over findings answers the hold |
| AuditHold.OwnerAuditState.Begin | snode/owner_audit_plan.go:304-315 | the pass holds exactly its tables |
| AuditHold.OwnerAuditState.ForgetTable | snode/owner_audit_plan.go:383-396 | removes the table's findings and its place in the pass, nothing else |
| SubsetMatch.MatchShadowCandidates | snode/promote_subset.go:184-232 | succeeds exactly when every hash parses and the candidate hashes are a sub-multiset of the shadow's; then keep and drop partition the shadow in name order and the kept hashes are the candidates' |
| SubsetMatch.CandidateMultiset | snode/promote_subset.go:168-182 | counts the candidates by content, refusing a missing or malformed hash |
| SubsetGuard.MatchDecidesCopy | snode/promote_subset.go:184-232 | some subset of hg_unsafe satisfies the partition machine's guard for copying exactly when the matching loop succeeds on what ATTACH made of it |
| SubsetGuard.KeptMatches | snode/promote_subset.go:64-87 | what the loop keeps is, part for part, a subset that satisfies the guard |
| ShadowBuild.ShadowPartition.AttachCandidateSubset | snode/promote_subset.go:46-88 | success leaves base and matched parts only, with root base plus candidates, even if a DROP PART silently fails; a failure leaves nothing if the shadow could be dropped, and nothing foreign otherwise |
| ShadowBuild.MatchedRoot | snode/promote_subset.go:81-87 | the root of base and matched parts is the base's plus the candidates' |
| ShadowBuild.CombineHex | snode/view.go:74-87 | the sum of the parsed hashes, refused exactly for malformed text |
| ShadowBuild.CombineHexAll | snode/view.go:89-102 | the base plus every part, refused exactly for malformed text |
| SafeScan.SafeMappings | snode/promote_match.go:22-87 | succeeds exactly when the scan covers every active part once, with distinct contents summing to the post root and holding every candidate; lists them all and maps each candidate to the part with its content |
| SafeScan.ScanMeans | snode/promote_match.go:30-58 | every scanned part is active, has a file hash and a row hash, is scanned once and shares its row hash with no other |
| SafeScan.ScanDecidesFinish | snode/promote_match.go:60-85 | the guard under which the partition machine finishes a promotion is what that scan accepts |
| Memo.EvictKeepsRecent | verifier/replay_executor_memo.go:257-260 | eviction ends and keeps the longest run of most recently used entries that leaves room |
| Memo.PutStores | verifier/replay_executor_memo.go:247-264 | a value that fits is stored, or kept if its key is known, and its key is the most recent; of the others the longest recent run that leaves room stays unchanged |
| Memo.EvictsExactly | verifier/replay_executor_memo.go:257-260 | room is made exactly at 128 entries or past 8 MiB |
| Memo.ReplayMemo.Get | verifier/replay_executor_memo.go:237-246 | returns the stored value and moves its key to the front, the others keeping their order; the bijection, byte count and bounds hold |
| Memo.ReplayMemo.Put | verifier/replay_executor_memo.go:247-264 | afterwards a value that fits is in the table under the most recent key; keeps list and map in bijection, bytes the sum of costs, at most 128 entries and 8 MiB; the loop terminates |
| Memo.ReplayMemo.Remove | verifier/replay_executor_memo.go:265-273 | removes one key from list, map and byte count |
| Memo.ReplayMemo.RemoveRun | verifier/replay_executor_memo.go:274-282 | removes exactly the run's entries, keeps the others' values and their order |
| MemoRuns.AnswersAreTheExecutors | verifier/replay_executor_memo.go:154-236 | under every interleaving of calls, closes and forgets, a call is answered with the executor's answer to its request or with its context's error, and with the latter only if the context was cancelled |
| MemoRuns.SecondCallHits | verifier/replay_executor_memo.go:154-236 | from the return of a call on, until another answer is stored in the memo or the run is closed or forgotten, the same call is answered with the executor's answer without reaching the executor |
| MemoRuns.ClosedRunIsGone | verifier/replay_executor_memo.go:81-88 | once a run is closed it stays closed and no memo holds or ever again stores an entry of it |
| Normalize.NormalizeConsensusParamsUpdate | authority/consensus.go:24-88 | returns the canonical form of the update and refuses exactly the updates that have none |
| NormalizeAccepts.AcceptedExactly | authority/consensus.go:31-88 | an update has a canonical form exactly if it satisfies the listed conditions on its own fields, as given: addresses in any case, lists in any order |
| Normalize.NormalizeIndexers | authority/consensus.go:127-157 | strictly by id, lowercase signers, no shared SNode, within max_writers; refused exactly if no such list exists |
| Normalize.NormalizeStage3 | authority/consensus.go:90-125 | domains strictly by indexer, all enrolled, all indexers named once placement is on; refused exactly if no such form exists |
| Normalize.NormalizeVerifiers | authority/consensus.go:159-222 | strictly by node id, distinct keys and member signers, members hosted by an enrolled indexer with that host's domain; refused exactly if no such list exists |
| Normalize.NormalizeAddresses | authority/consensus.go:40-58 | strictly ordered lowercase non-zero addresses, duplicates gone; refused exactly if no such list exists |
| Normalizer.OneCanonicalForm | authority/consensus.go:24-29 | updates that differ in list order, repeated authority addresses or address case have the same canonical form |
| Normalizer.SameUpdateSameForms | authority/consensus.go:24-29 | and so are accepted or refused alike |
| Normalizer.CanonicalIsFixed | authority/consensus.go:24-29 | normalising is idempotent |
| Normalizer.SwitchesArePrefix | stage3.go:83-119 | the stage-3 switch rule holds exactly when the switches that are on are a prefix of the order |
| Normalizer.SwitchOrder | stage3.go:43-48 | purge, eviction voiding, owner-aware selection, placement, reselection, checkpoints, narrowed drain: each requires the one before |
| WireDecoder.ValidateCommandBytes | wire/snapshot_query.go:1326-1379 | terminates and accepts exactly the byte strings in which every field at every depth is known, has a legal wire type and, if singular, occurs once, with one field at the top of a command |
| WireDecoder.LegalMeans | wire/snapshot_query.go:1341-1354 | which wire types each kind of field may have |
| WireDecoder.TagMeans | wire/snapshot_query.go:1332-1336 | a tag is a varint from 8 up to 2^34, split into number and wire type |
| WireDecoder.WholeExactlyWhenOneofsApart | wire/snapshot_query.go:1326-1379 | on accepted input last-one-wins decoding erases nothing exactly when no two members of one oneof occur together at any depth |
| WireOneofs.AcceptedDecodesWhole | wire/snapshot_query.go:1326-1379 | so for descriptors without a oneof below the top an accepted command decodes whole |
| WireOneofs.NestedOneofErases | wire/snapshot_query.go:1326-1379 | and for every other descriptor (of at most 2^56 messages) some accepted command loses a field |
| WireOneofs.WholeExactlyWithoutNestedOneof | wire/snapshot_query.go:1326-1379 | both directions: every accepted command decodes whole exactly if no message reachable through sendable fields has two sendable fields of one oneof |
| WireOneofs.RaftCommandLosesAction | wire/command.go:411-420 | any descriptor in which RaftCommand leads to the action oneof of ArtifactDisposition lets a command with two actions through, and decoding keeps one |
| WireOneofs.DispositionIsNested | wire/artifact_disposition_test.go:555-582 | the numbers that lead there: 28, 1 and 7, with actions 1 and 12 in one oneof |
| WireOneofs.VarintRoundTrip | wire/snapshot_query.go:1332-1336 | reading a varint undoes writing it, whatever follows |
| WireOneofs.VarintFits | wire/snapshot_query.go:1332-1336 | what is read as a varint fits into 64 bits |
| Restore.ExpectedReadParts | dataplane/snapshot_restore.go:203-265 | accepts exactly selections that name manifest tables, with their schema, all their active parts and no key twice; returns those parts, each once, by table, then partition, then name |
| Restore.CheckParts | dataplane/snapshot_restore.go:227-253 | as many distinct listed parts as the manifest lists are the manifest's parts, even if it repeats a key |
| Restore.Pigeonhole | dataplane/snapshot_restore.go:227-253 | the counting argument behind it |
| Restore.WithinBound | dataplane/snapshot_restore.go:102-109 | continues exactly when the true total is at most 1 GiB, despite wrap-around at 64 bits |
| Restore.AddUint64 | dataplane/snapshot_restore.go:341-344 | the overflow flag is set exactly when the sum does not fit; else the sum is exact |
| LaunchBarrier.ReadyComesFirst | snode/snode.go:432-460 | ready runs at most once, after all workers launched, and no body begins before the decision that follows it, nor ever after an abort or a panicking ready |
| LaunchBarrier.AllOrNone | snode/snode.go:462-547 | a finished run received one result from every worker, and all bodies ran or none |
| LaunchBarrier.CancelledInTime | snode/snode.go:444-460 | a cancellation before the decision is honoured: no body ever begins, and ready is not called if it was not called before |
| LaunchBarrier.UncancelledRuns | snode/snode.go:453-460 | without one by then every body has run when the run ends |
| LaunchBarrier.EveryRunEnds | snode/snode.go:437-548 | every run makes at most 6n + 6 moves besides cancellations, and until it has ended some goroutine can move |
| LtHash.SumPermutes | snode/view.go:89-102 | the accumulated sum does not depend on the order of the parts |

## Left out

- Books.StepKeepsSound: assumes the honesty listed above and no more; a promotion that names unrecorded or already promoted parts can break the sums.
- StuckPromotion.WholeCopyCanStick: a run of one partition; the statement journal around it is not part of the run.
- WireOneofs.NestedOneofErases: a chain of messages too long for 64-bit length prefixes is excluded by the bound on the number of messages; the generated descriptors are not part of this model.
- Restore.ExpectedReadParts: typed keys stand for the NUL-joined text of partKey (dataplane/snapshot_restore.go:318-320); ids that contain NUL, for which that text is ambiguous, behave differently in the code.
- RebuiltInventory.RebuiltStaysClean: the arbiter's state is the one at the rebuild, which is refused while a promotion is unacknowledged (snode/rebuild/rebuild.go:155-164); a row hash is an accumulator, not its text.
- Intake.NextWorld: an insert never writes after its call ended, and a ClickHouse restart that resurrects parts is not a step.
- MemoRuns.AnswersAreTheExecutors: calls that bypass the memo (another identity, a query request, an oversized request) are the executor itself and have no step; the executor's own reaction to a cancelled context is part of its answer.
- Normalizer.OneCanonicalForm: case mapping is ASCII, which is all an accepted address can contain.
- ShadowBuild.CombineHexAll: hash text is missing, malformed or an accumulator; the spelling of hex is not modelled.
- AuditHold.HeldUntilAuditedAfresh: repair mode only; report mode holds nothing.
- LaunchBarrier.EveryRunEnds: worker bodies are taken to return, and the coordinator has any number of workers.
- Cleanup acknowledgement keys: typed keys stand for the decimal text of cleanupAckKey.
- Zero-row covering parts that DROP PART leaves for a moment are not part of the inventories.
- Purging a table in ClickHouse and a new incarnation's reuse of part names.
- Signing, verification, digests, base64 and JSON.
- The protobuf converters, gRPC clients, leader retry, subscriptions and registry follower.
- SQL text, DDL, part scanning and the housegate libraries behind it.
- Temp file, fsync and rename: a state write is one atomic step.
- AddUnpromoted and DrainUnpromoted, which only tests call.
- legacyAckMatchesCommand, the re-send loops, timers, metrics, logging and configuration.
- The arbiter's own state machine.
