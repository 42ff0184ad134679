# Verified model of the registry's event, evidence, archive, binding, resolver and drill protocols

The repository is a control plane: capability bindings are published under slot arbitration, every
change leaves an event in a transactional outbox, workers publish the events, an evidence index ingests
them, an archiver seals the records into write-once packs, a resolver turns requests into plans over the
live bindings, and exit drills rehearse leaving a vendor. This project models those protocols and proves
what holds in every interleaving of their transactions, with crashes and stale workers included.

How a protocol is modelled. Each has a module with a `State` (its tables, and the local variables of
whoever is in the middle of a command), a `Step` (one committed transaction, one external call, or one
crash), a total `Apply(s, step)` in which a refused step changes nothing that is stored, and `Run`, the
fold of `Apply` over any sequence of steps. Every gap between two transactions in the code is therefore a
place where any other step can happen. Beside it a class holds the same tables as fields; its methods are
the code's operations, with their loops, and each is proved to do exactly what the step function says.
Theorems quantify over all step sequences. Beside the laws of what never goes wrong stand laws of what must go
right (the modules named `...Outcomes`, `...Rules`, `...Retries`, `...Recovery`, `...Items` and `...Steps`): when each
operation succeeds and what it then leaves, in the columns of the tables and not in the model's own functions.

| files | what they model |
|---|---|
| `Outbox`, `OutboxRuns`, `OutboxRetries`, `OutboxWorker` | the outbox table, leased claims, publish-then-mark, the watermark, retries and dead letters, stale failure writes |
| `Evidence`, `EvidenceRules`, `EvidenceIndex`, `NoGap` | scan past a checkpoint, classification, idempotent ingest, workers and consumers together |
| `Archive`, `ArchiveSafety`, `ArchiveProgress`, `ArchiveChunks`, `ArchiveRecovery`, `ArchiveRetention`, `ArchiveOutcomes`, `ArchiveLedger` | packs, drive-locked drivers, the object store, recovery, how a drive ends, runs of ticks |
| `PackDigest`, `PackCollisions`, `PackIds` | the text under the content id, which windows share one, the archive's ids |
| `Scope`, `Binding`, `BindingTable`, `BindingLife`, `BindingSlots`, `BindingUndercuts`, `BindingOutcomes`, `BindingRuns`, `BindingStore` | scopes, revisions, events, slot arbitration, when each command succeeds |
| `EventConsumer`, `EventIds`, `Replay` | duplicate absorption, revision tracking, event ids, replay of a binding's events |
| `ResolverRequest`, `ResolverDigest`, `Resolver`, `ResolverLaws`, `ResolverItems`, `ResolverPlans` | validation, normalization, candidate choice, what each requirement is answered, whole plans |
| `SnapshotCache`, `CacheOutcomes`, `TokenBucket` | the snapshot cache and the rate limiter |
| `Drill`, `DrillOutcomes`, `DrillWorker`, `DrillSteps`, `DrillRun` | the drill state machine, its audit log and findings, leased step workers, both together |
| `Base`, `Text` | ascending scans of finite sets; string order, sorting, separators, decimals |

Where a claim one would expect is false of the code, the project keeps the code, shows a run in which the
claim fails, and proves when it holds:

- **Slot arbitration can be skipped.** `transition` reads the active row of a Resume; when there is none it
  goes on to the UPDATE without taking the slot's lock or checking overlaps (`internal/binding/store.go:471-504`;
  the comment there says the UPDATE must miss). If the caller named a revision that does not exist yet, the
  binding can reach it before that UPDATE, which then revives it beside an overlapping live binding
  (`BindingRuns.ABlindResumeBreaksTheSlot`), or under a publish that has passed its overlap check and will still
  insert (`BindingRuns.AnUndercutCheckBreaksTheSlot`). `BindingSlots.BlindResumeBreaksExactly` says exactly when such
  an UPDATE breaks live scopes or standing checks, `BindingSlots.RunIsSafeExactlyWhen` that nothing else does, and
  `BindingSlots.NoRequestMatchesTwoLiveBindings` that runs without one keep the slots disjoint, in particular every
  run in which no Resume names a revision beyond the binding's latest at its first read. For the table alone,
  `BindingUndercuts.BlindResumeKeepsDisjointExactly` says when the UPDATE itself breaks it and
  `BindingUndercuts.UndercutHolderBreaksBySucceeding` when a transaction whose check it undercut does.
- **PUBLISHED is not final** for a worker that outlived its lease; a lease bound on the failing calls alone is
  not enough, because the stale one may be the successful mark (`OutboxRuns.StaleMarkThenFailure`,
  `OutboxRuns.PublishedIsLeftExactlyBy`, `OutboxRuns.PublishedIsFinalWhenPunctual`). The no-gap theorem does not need it.
- **DONE is not final** for the same reason (`DrillWorker.StaleReleaseReopens`, `DrillWorker.DoneIsLeftExactlyBy`), so a
  drill can be SUCCEEDED over a step that is PENDING again (`DrillRun.SuccessOverAPendingStep`).
- **A quarantined pack stalls the archive**: while it holds the next window's content id, no tick archives
  anything (`ArchiveProgress.TwinStallsForever`); everything is archived in time exactly when that never happens
  (`ArchiveProgress.EverythingIsArchived`), which can be read off the state the first sweep leaves
  (`ArchiveChunks.EverythingIsArchivedExactlyWhen`).
- **A policy version that goes on where another ends**, after a newline and with what reads as a record's line, can
  share a content id with it; over one evidence table nothing else can, whatever event ids hold
  (`PackCollisions.PoliciesCollideExactlyWhen`, `PackDigest.OneTableSameTextExactlyWhenSameWindow`). The function `Digest`
  by itself also confuses windows of two different tables, exactly when event ids may hold each of the eight
  characters of a line break (`PackCollisions.TellsApartExactlyWhen`).
- **Two aggregate kinds share revision keys** exactly when one goes on after a "/" where the other ends
  (`EventConsumer.KeysCollide`).
- **A boolean constraint and the string it is written as** give two different requests one digest, and nothing else
  but the order of requirements does (`ResolverDigest.DigestsAgreeExactlyWhen`).
- **Recovery quarantines** an interrupted pack exactly when the worker's policy is not the pack's or the unarchived
  records between its bounds are no longer its own (`ArchiveRecovery.RecoveryCompletesExactly`).
- **Ambiguity** needs both a named region and bindings without factory or agent restrictions to be excluded
  (`ResolverPlans.BothHypothesesAreNeeded`).

Other places where code and documentation differ, modelled as the code has them: approving an APPROVED drill
succeeds silently for a different approver too (`internal/exitdrill/drill.go:125-127` says the same one);
the resolver filters by policy before it looks up capabilities (`internal/resolver/domain.go:6-7` says after);
the outage path spends the same attempts counter the dead-letter budget reads; the back-off after a refusal is
truncated to whole seconds while the one after an outage is not; changing the policy version quarantines packs
in flight, whose content id no longer matches; the pack matrix is said to mirror the SQL exactly
(`internal/evidencepack/pack.go:53-55`), while MarkFailed's WHERE alone would also let a LOCKED pack become RETRYABLE; a drill aborted before it ran has no result evidence and can never be closed.

Idealizations. SHA-256 is a free constructor (distinct inputs, distinct values); `PackDigest` relates the
archive's content ids to the actual hashed text. NFC is any idempotent string function. Clocks are
nondecreasing naturals. A unique constraint is a guard of the step that inserts. SKIP LOCKED is a claim that
skips an arbitrary set of rows. An advisory lock is held from the step that takes it to the end of its transaction.

## Model

| member | source | states |
|---|---|---|
| `Outbox.StepKeepsInv` | internal/events/worker.go:210-392 | every worker step keeps event ids and published_seq values distinct, PUBLISHED accepted, FAILED condemned by a refused call with enough attempts, watermarks increasing |
| `Outbox.StepGrows` | internal/events/worker.go:210-392 | no step loses a row, rewrites an event, or lowers attempts or published_seq |
| `OutboxRuns.Lifecycle` | internal/events/worker.go:267-392 | in every reachable state a PUBLISHED row was accepted by the transport, a FAILED row was refused with claimed attempts at or over the budget, watermarks were handed out strictly increasing and are distinct |
| `OutboxRuns.RowsAreNeverLost` | internal/events/worker.go:210-392 | over every run rows survive with their event, attempts and published_seq never go down |
| `OutboxRuns.OutagesNeverDeadLetter` | internal/events/worker.go:327-350 | if the transport never refuses an event, no row is ever FAILED, however many outages |
| `OutboxRuns.PublishedIsLeftExactlyBy` | internal/events/worker.go:337-379 | a step takes a row out of PUBLISHED if and only if it is an unguarded failure write for that row |
| `OutboxRuns.PublishedIsFinalWhenPunctual` | internal/events/worker.go:210-392 | over every run from the empty table whose settling writes are all made inside their leases, PUBLISHED is final |
| `OutboxRuns.StaleMarkThenFailure` | internal/events/worker.go:294-342 | a reachable state where a stale mark is followed by an in-lease failure write that un-publishes the row |
| `OutboxRetries.FailureWrites` | internal/events/worker.go:327-379 | a refusal that has read retryMax attempts or more leaves the row FAILED; any other refusal or outage leaves it PENDING with one attempt more and its back-off |
| `OutboxRetries.MarkWrites` | internal/events/worker.go:294-302 | an acceptance publishes a row that is still PUBLISHING under the next number and leaves any other alone |
| `OutboxRetries.AttemptsAreThePutBacks` | internal/events/worker.go:327-362 | over every run a row's attempts are the outages and non-final refusals that put it back |
| `OutboxRetries.RefusedUntilFailed` | internal/events/worker.go:351-379 | an event refused every time, in any interleaving, is FAILED exactly from refusal retryMax + 1 on |
| `OutboxRetries.ClaimTakesExactly` | internal/events/worker.go:217-262 | a claim takes a row exactly when it is ready, unlocked, and fewer ready ones than the batch come before it; and what it then writes |
| `OutboxRetries.WaitsForItsRetry` | internal/events/worker.go:224-227 | a row that was put back is left alone by everybody until its retry time has passed |
| `OutboxRetries.AcceptedIsPublished` | internal/events/worker.go:210-302 | a ready row that is claimed, accepted and marked ends PUBLISHED |
| `OutboxWorker.Table.Claim` | internal/events/worker.go:210-262 | the claim transaction: lowest claimable ids, lease, one call each |
| `OutboxWorker.Table.MaxPublishedSeq` | internal/events/worker.go:294-298 | the scan for COALESCE(MAX(published_seq), 0) |
| `OutboxWorker.Table.Settle` | internal/events/worker.go:267-392 | mark under the watermark lock, release with the right back-off, or dead-letter |
| `OutboxWorker.Table.PublishOne` | internal/events/worker.go:267-366 | publish, any steps of others, settle |
| `OutboxWorker.Table.DrainOnce` | internal/events/worker.go:175-196 | claim a batch and handle its rows in order, dying after any number of them |
| `Evidence.IngestAllCovers` | internal/evidence/index.go:115-205 | after a batch every event of it has exactly one record, stored records are faithful, none is lost |
| `EvidenceRules.IngestWrites` | internal/evidence/index.go:164-245 | an event with a new id gets one record: LINKED exactly when its payload is a clean object, its topic known and its row there; each of the four reasons, the retention class and deadline, the plan id and the stored content by field |
| `EvidenceRules.RepairFlipsExactly` | internal/evidence/index.go:326-343 | a repair turns exactly the broken links whose row exists by now to LINKED |
| `EvidenceRules.RecordsAreRuled` | internal/evidence/index.go:164-343 | over every interleaving each record is what its event calls for, and after a repair it is LINKED exactly when its event is clean and its row exists |
| `EvidenceRules.PassesCatchUp` | internal/evidence/index.go:115-320 | each undisturbed pass of a consumer takes a batch off what waits past its checkpoint, until nothing does |
| `EvidenceRules.EveryPublishedEventIsIndexed` | internal/evidence/index.go:115-320 | with passes enough every published event has its record |
| `EvidenceIndex.ScanRows` | internal/evidence/index.go:279-320 | the scan returns the visible rows past the checkpoint in watermark order, none left out below the last one taken |
| `EvidenceIndex.Index.IngestOne` | internal/evidence/index.go:164-205 | the insert adds the classified record unless the event id is there |
| `EvidenceIndex.Index.IngestBatch` | internal/evidence/index.go:115-158 | the loop ingests the whole batch and moves the checkpoint forward only |
| `EvidenceIndex.Index.RepairQuarantined` | internal/evidence/index.go:326-343 | exactly the broken links whose target now exists flip to LINKED; the count is of those |
| `NoGap.StepOpensNoGap` | internal/events/worker.go:294-302 | whatever a worker does, a row PUBLISHED at or below the current maximum was PUBLISHED there before |
| `NoGap.NothingPublishedIsSkipped` | internal/evidence/index.go:115-320 | in every interleaving of workers and consumers a PUBLISHED row at or below any checkpoint has exactly one evidence record, carrying that row's event |
| `NoGap.CheckpointsOnlyAdvance` | internal/evidence/index.go:144-153 | no checkpoint goes back and no record is lost, over every run |
| `NoGap.RecordsStayFaithful` | internal/evidence/index.go:212-275 | no stored record ever holds a forbidden or malformed payload, digests are the payloads', LINKED records point at existing rows |
| `ArchiveSafety.StepKeepsInv` | internal/evidencepack/archive.go:97-270 | every step of crashing, drive-locked drivers keeps the archive's invariant |
| `ArchiveSafety.LinksNameVerifiedManifests` | internal/evidencepack/store.go:172-230 | every link names a VERIFIED pack at its object version, whose bytes hash to the manifest digest and list the record; one link per record |
| `ArchiveSafety.ArchivedExactlyWhenLinked` | internal/evidencepack/store.go:203-230 | a record reads ARCHIVED if and only if it is linked |
| `ArchiveSafety.VerifiedPacksAreCovered` | internal/evidencepack/archive.go:150-183 | every record a VERIFIED pack covers is linked, and its object lock reaches the retention recorded at locking less one minute |
| `ArchiveSafety.ChangesFollowTheMatrix` | internal/evidencepack/pack.go:56-63 | every state change of a drive-locked run is an edge of the pack matrix |
| `ArchiveSafety.TerminalStatesAreFinal` | internal/evidencepack/pack.go:56-63 | VERIFIED and QUARANTINED are never left |
| `ArchiveSafety.RetentionNeverShrinks` | internal/evidencepack/store.go:127-166 | once LOCKED, the recorded retention never shrinks |
| `ArchiveRetention.CommitmentsAreDated` | internal/evidencepack/archive.go:97-146 | over every run the retention a pack is locked with is the clock at which its driver read the row plus the driver's days, and a VERIFIED pack's object lock reaches it less a minute |
| `ArchiveRecovery.PacksAreDescribed` | internal/evidencepack/store.go:64-82 | in every reachable state a pack row's count, first and last are the number, least and greatest of the records its id covers |
| `ArchiveRecovery.RecoveryCompletesExactly` | internal/evidencepack/archive.go:189-270 | in an honest world recovery ends an interrupted pack VERIFIED, all it covers linked to it and archived, if and only if the policy is the worker's and the unarchived records between its bounds are just its own; otherwise QUARANTINED with no record or link touched |
| `ArchiveOutcomes.DriveEndsExactly` | internal/evidencepack/archive.go:97-183 | against any store, a drive of a claimed pack ends RETRYABLE, QUARANTINED, LOCKED or VERIFIED exactly as upload, read-back, lock and extension answer |
| `ArchiveOutcomes.VerifiesExactly` | internal/evidencepack/store.go:172-230 | when MarkVerified acts, which links it adds and which records it flips |
| `ArchiveOutcomes.ManifestExactly` | internal/evidencepack/pack.go:180-218 | what a manifest says of its window, line by line |
| `ArchiveOutcomes.LedgerStepsExactly` | internal/evidencepack/store.go:143-166 | extensions move a deadline to the later of two and nothing else |
| `ArchiveProgress.RecoverSettles` | internal/evidencepack/archive.go:189-270 | against an honest store a recovery drive ends with the pack terminal and nothing lost |
| `ArchiveProgress.TakenMeansQuarantined` | internal/evidencepack/store.go:68-78 | with every pack terminal, a taken content id of a waiting window can only be a quarantined pack's |
| `ArchiveProgress.ClaimArchivesUnlessTwin` | internal/evidencepack/archive.go:60-94 | the claim half archives exactly the next window, or does nothing at all if a quarantined pack holds its id |
| `ArchiveProgress.TickArchives` | internal/evidencepack/archive.go:34-94 | one tick leaves every pack terminal and archives min(batch, remaining) records unless a quarantined twin exists |
| `ArchiveProgress.TicksArchive` | internal/evidencepack/archive.go:34-94 | from any interrupted state, n whole ticks whose windows no quarantined pack holds leave max(0, waiting - n * batch) records |
| `ArchiveProgress.EverythingIsArchived` | internal/evidencepack/archive.go:34-94 | after ceil(n / batch) ticks or more, n waiting records are all archived if and only if at no tick a quarantined pack holds the id of the window about to be claimed |
| `ArchiveChunks.UnobstructedExactlyWhen` | internal/evidencepack/archive.go:34-94 | no tick meets such a pack if and only if, in the state the first sweep leaves, none has the content id of any of the consecutive batch-sized chunks of the ascending waiting records |
| `ArchiveChunks.EverythingIsArchivedExactlyWhen` | internal/evidencepack/archive.go:34-94 | with enough ticks everything is archived if and only if no quarantined pack of the swept start state has the id of one of those chunks |
| `ArchiveProgress.TwinStallsForever` | internal/evidencepack/archive.go:69-73 | while a quarantined pack holds the next window's id, no number of ticks, sweeps included, changes anything |
| `ArchiveLedger.Ledger.ClaimWindow` | internal/evidencepack/store.go:27-84 | the window query, the content id, and the insert that may lose to an existing pack |
| `ArchiveSafety.MarkWritingTakesItsEdge` | internal/evidencepack/store.go:93-107 | MarkWriting changes a pack exactly when the matrix has an edge from its state into WRITING, once, counting the attempt, and keeps the pack sound |
| `ArchiveLedger.Ledger.StartAction` | internal/evidencepack/archive.go:105-110 | the driver's MarkWriting: on to the upload, or the drive ends |
| `ArchiveSafety.MarkWrittenOpensTheLock` | internal/evidencepack/store.go:110-124 | MarkWritten keeps the state and the pack's soundness, and MarkLocked then locks exactly the version and digest it recorded |
| `ArchiveLedger.Ledger.RecordAction` | internal/evidencepack/archive.go:121-124 | the driver's MarkWritten: on to the digest check, or the drive ends |
| `ArchiveSafety.MarkLockedIsSoundExactlyWhen` | internal/evidencepack/store.go:127-140 | MarkLocked takes the edge into LOCKED once; the locked pack is sound if and only if the recorded version's stored bytes are its manifest with the recorded hash |
| `ArchiveSafety.MarksInOrder` | internal/evidencepack/store.go:93-140 | in order the three statements lock a claimed or retried pack with what was uploaded; out of order the later ones do nothing |
| `ArchiveLedger.Ledger.LockAction` | internal/evidencepack/archive.go:139-146 | the driver's MarkLocked: on to the retention check, or the drive ends |
| `ArchiveSafety.MarkFailedAloneBreaksTheMatrix` | internal/evidencepack/store.go:234-250 | the failure statement by itself leaves the matrix exactly when it makes a LOCKED pack RETRYABLE |
| `ArchiveLedger.Ledger.ExtendRetention` | internal/evidencepack/store.go:143-166 | the deadline only moves later |
| `ArchiveLedger.Ledger.MarkVerified` | internal/evidencepack/store.go:172-230 | guard, one link per unlinked record, transition and flips, together or not at all |
| `ArchiveLedger.Ledger.Action` | internal/evidencepack/archive.go:97-270 | the next action of a driver, whatever the world answers |
| `ArchiveLedger.Ledger.DriveToEnd` | internal/evidencepack/archive.go:97-183 | a driver run to its end in an honest world, nobody else running |
| `ArchiveLedger.Ledger.DriveAmong` | internal/evidencepack/archive.go:97-270 | a driver's actions against any replies, with any steps of others before each, crashing after any number |
| `ArchiveLedger.Ledger.ArchiveOnce` | internal/evidencepack/archive.go:34-94 | the sweep over pending packs, then claim and archive, in an honest world, nobody else running |
| `ArchiveLedger.Ledger.ArchiveAmong` | internal/evidencepack/archive.go:34-94 | the same among others, against any replies, with crashes |
| `PackDigest.DigestInput` | internal/evidencepack/pack.go:165-177 | the loops that build, sort and print the record lines |
| `PackDigest.OneTableSameTextExactlyWhenSameWindow` | internal/evidencepack/pack.go:162-177 | windows of one evidence table hash the same bytes if and only if they agree on policy and records, in any order, whatever event ids and digests hold |
| `PackCollisions.PoliciesCollideExactlyWhen` | internal/evidencepack/pack.go:165-177 | two different policy versions share bytes over some table if and only if one goes on where the other ends with a newline and what reads as a record's line |
| `PackDigest.SameTextExactlyWhenSameWindow` | internal/evidencepack/pack.go:165-177 | the same as over one table for windows of any two tables with newline-free event ids |
| `PackCollisions.NewlineCollides` | internal/evidencepack/pack.go:170-175 | `Digest` applied to records of two different tables: two different windows with the same hashed bytes |
| `PackCollisions.TellsApartExactlyWhen` | internal/evidencepack/pack.go:165-177 | `Digest` tells all different windows of all tables apart if and only if event ids cannot hold every character of "sha256:" and the newline |
| `PackIds.ContentIdsStandForDigests` | internal/evidencepack/pack.go:162-177 | over windows of one evidence table the archive model's content ids agree exactly when the hashed bytes do |
| `PackIds.PackIdsStandForDigests` | internal/evidencepack/store.go:27-84 | the same for windows read at any two moments of any run of the archive |
| `PackIds.WindowsAreRead` | internal/evidencepack/store.go:35-64 | what ClaimWindow selects and Recover reloads are such windows |
| `Scopes.CanonicalizeStrings` | internal/binding/domain.go:93-105 | the loop with its seen map, and the sort |
| `Scopes.CanonicalContents` | internal/binding/domain.go:81-105 | the canonical form is ascending, without repeats, and holds exactly the normalized inputs |
| `Scopes.CanonicalDecides` | internal/binding/domain.go:107-117 | canonical forms (so scope hashes) agree if and only if the inputs normalize to the same set |
| `Scopes.CanonicalScopeIsStable` | internal/binding/domain.go:84-91 | canonicalizing a canonical scope changes nothing |
| `Scopes.OverlapsIn` | internal/binding/domain.go:134-146 | the scan decides co-matching of one dimension |
| `Scopes.OverlapMeansCommonRequest` | internal/binding/domain.go:119-132 | two scopes overlap if and only if some request matches both |
| `BindingTable.StepDid` | internal/binding/store.go:168-576 | a step refuses, drafts, publishes or moves one row, with exactly its event and change record |
| `BindingTable.OpeningWritesNothing` | internal/binding/store.go:213-243 | opening, queueing and rolling back write nothing; a replayed publish changes nothing at all |
| `BindingOutcomes.PublishSucceedsExactly` | internal/binding/store.go:168-377 | an unopposed publish leaves the new live revision, the former one inactive, one event, one change record and its ledger entry if and only if it is approved, explained and signed, its key is new, no live sibling overlaps, and the caller has seen the live revision or the only draft; otherwise it changes nothing |
| `BindingOutcomes.ResumeSucceedsExactly` | internal/binding/store.go:449-576 | an unopposed resume revives the suspended row if and only if it is signed, the revision is the row's and no live sibling overlaps |
| `BindingOutcomes.ShiftSucceedsExactly` | internal/binding/store.go:431-576 | suspend, deprecate and retire move the active row if and only if the matrix, the signature, the revision and the state allow |
| `BindingOutcomes.CreateSucceedsExactly` | internal/binding/store.go:382-423 | a draft goes in if and only if it is complete and its binding new |
| `BindingOutcomes.NothingUnsignedIsPublished` | internal/binding/store.go:168-173 | over every run no revision is published without approval, reason and actor, and its change record names the actor |
| `BindingTable.StepKeepsInv` | internal/binding/store.go:168-576 | every step keeps the table and stream invariants |
| `EventIds.EventIdsNeverCollide` | internal/binding/store.go:347-352 | event ids of publishes and lifecycle changes agree if and only if binding, revision and operation do |
| `BindingLife.OneActiveRowAtTheTop` | internal/binding/store.go:245-332 | at most one active row per key, at the greatest revision, in every reachable state |
| `BindingLife.StreamReachesTheActiveRow` | internal/binding/store.go:339-353 | a binding's events carry revisions 2, 3, ... up to the latest, the last with the active row's state |
| `BindingLife.EveryMutationIsAccountedFor` | internal/binding/store.go:318-576 | each mutation raises one binding's latest revision by one with exactly one event and one change record of that revision |
| `BindingLife.RetiredIsFinal` | internal/binding/domain.go:29-35 | a RETIRED active row never changes again |
| `BindingLife.ContentIsFrozen` | migrations/00005_binding.sql:58-78 | no row's key or content ever changes and none disappears |
| `BindingLife.KeysPublishOnce` | internal/binding/store.go:213-243 | an idempotency key's entry stands for ever and later publishes with it write nothing |
| `BindingLife.LateDuplicatesAreRefused` | internal/binding/store.go:355-374 | a publish already past the ledger read is refused when its key has meanwhile published |
| `BindingSlots.StepIsSafeExactlyWhen` | internal/binding/store.go:121-154 | a step from a safe state (live scopes of a slot disjoint, every check made under a lock still true, one holder per slot) leads to a safe one if and only if it is not an unguarded UPDATE that breaks something |
| `BindingSlots.RunIsSafeExactlyWhen` | internal/binding/store.go:121-576 | a run is safe throughout if and only if none of its steps is such an UPDATE |
| `BindingSlots.SlotsOkMeansDisjoint` | internal/binding/domain.go:119-132 | no overlapping live pair if and only if no request matches two live bindings of a slot |
| `BindingSlots.NoRequestMatchesTwoLiveBindings` | internal/binding/store.go:121-306 | in every run without a breaking unguarded UPDATE, no request matches two live bindings of one slot |
| `BindingSlots.InformedRunsAreUnbroken` | internal/binding/store.go:471-504 | runs in which no Resume names a revision beyond the binding's latest have no breaking UPDATE |
| `BindingSlots.BlindResumeBreaksExactly` | internal/binding/store.go:471-504 | an unguarded Resume breaks safety if and only if it revives a row that clashes with a live sibling or with what another transaction past its check in that slot is about to make live |
| `BindingUndercuts.BlindResumeKeepsDisjointExactly` | internal/binding/store.go:471-504 | from a disjoint table an unguarded Resume's UPDATE leads to a disjoint one if and only if it revives no row that clashes with a live sibling |
| `BindingUndercuts.UndercutHolderBreaksBySucceeding` | internal/binding/store.go:245-374 | a transaction whose overlap check such an UPDATE undercut puts two live bindings in each other's way exactly when the rest of its command is not refused |
| `BindingRuns.DraftPublishes` | internal/binding/store.go:168-377 | an unopposed first publish of a draft succeeds in its four steps |
| `BindingRuns.ABlindResumeBreaksTheSlot` | internal/binding/store.go:471-504 | a run after which two live bindings of one slot match the same request |
| `BindingRuns.AnUndercutCheckBreaksTheSlot` | internal/binding/store.go:471-504 | a run in which the unguarded UPDATE leaves the table disjoint but undercuts the check of a publish that then breaks it |
| `BindingStore.Store.Create` | internal/binding/store.go:382-423 | a draft at revision 1 and its change record, or nothing |
| `BindingStore.Store.BeginPublish` | internal/binding/store.go:168-243 | the gate and the ledger: replayed, superseded, key reused, or waiting for the slot |
| `BindingStore.Store.FindClash` | internal/binding/store.go:127-153 | the guard's scan finds a clash if and only if there is one |
| `BindingStore.Store.TakeSlot` | internal/binding/store.go:121-154 | the lock once free, and the overlap check under it |
| `BindingStore.Store.Insert` | internal/binding/store.go:299-374 | the insert with its constraints, change record, event and ledger entry, or a rollback |
| `BindingStore.Store.Supersede` | internal/binding/store.go:252-297 | the superseding UPDATE, and on a miss the arbitration by the latest row |
| `BindingStore.Store.Update` | internal/binding/store.go:506-573 | the guarded lifecycle UPDATE with its change record and event |
| `BindingStore.Store.Publish` | internal/binding/store.go:168-377 | the whole command with any commits between its statement groups |
| `BindingStore.Store.Resume` | internal/binding/store.go:449-576 | read, slot, UPDATE, with any commits in between |
| `EventConsumer.Deduper.FirstSeen` | internal/events/consumer.go:48-69 | new ids are recorded, a full table is emptied first |
| `EventConsumer.OneIdPerTable` | internal/events/consumer.go:33-69 | the table never exceeds its capacity, and one id is let through at most acceptances over capacity, rounded up, times |
| `EventConsumer.ShortBatchesNeverReset` | internal/events/consumer.go:98-101 | Ordered's own deduper never empties its table |
| `EventConsumer.RevisionTracker.Confirm` | internal/events/consumer.go:84-93 | applied exactly for a new aggregate or a higher revision |
| `EventConsumer.KeysTellAggregatesApart` | internal/events/consumer.go:84-86 | aggregates of one kind, or of two of which neither goes on after a separator where the other ends, have equal keys only when they are equal |
| `EventConsumer.KeysCollide` | internal/events/consumer.go:84-86 | two different kinds have aggregates with a common key if and only if one kind followed by "/" is a prefix of the other |
| `EventConsumer.Ordered` | internal/events/consumer.go:98-112 | the loop keeps exactly the first rows of their ids above every earlier first of their aggregate |
| `EventConsumer.KeepsRunningMaxima` | internal/events/consumer.go:95-112 | when ids fix aggregate and revision, what is kept is exactly the strict running maxima |
| `EventConsumer.OrderedIsIdempotent` | internal/events/consumer.go:95-112 | ordering an ordered batch drops nothing |
| `EventConsumer.KeptIsSubsequence` | internal/events/consumer.go:95-112 | the result is a subsequence of the batch |
| `Replay.ReplayEndsAtTheActiveRow` | internal/events/consumer.go:84-93 | replaying a binding's events in any order with any repeats ends at the active row's revision, the last one confirmed carrying its state |
| `ResolverRequest.ValidateRequest` | internal/resolver/domain.go:160-242 | the loop accepts exactly the valid requests |
| `ResolverRequest.DigestIgnoresOrder` | internal/resolver/domain.go:271-319 | the request digest does not see the order of the requirements |
| `ResolverDigest.DigestsAgreeExactlyWhen` | internal/resolver/domain.go:271-319 | two valid requests have one digest if and only if they ask the same, up to order and to a boolean sent as the string it is written as |
| `ResolverItems.ValidExactlyWhen` | internal/resolver/domain.go:160-242 | which requests validation accepts, field by field |
| `ResolverItems.PolicyDecides` | internal/resolver/service.go:141-177 | the first requirement the engine does not allow decides; what it is asked and what is answered |
| `Resolver.ListCandidates` | internal/resolver/service.go:326-366 | the loop over the listed rows keeps those with a published provider and a matching scope |
| `Resolver.ScopeTest` | internal/resolver/service.go:372-392 | tenant and region membership, empty meaning unrestricted |
| `Resolver.FilterByPolicy` | internal/resolver/service.go:141-177 | the policy filter in request order, first denial or failure wins |
| `Resolver.ResolvePlan` | internal/resolver/service.go:127-288 | the pipeline: validation, policy, the loop over sorted ids, the plan |
| `ResolverLaws.CandidatesAreTheMatches` | internal/resolver/service.go:326-366 | the candidates are the matching rows, each as often as in the table, by priority |
| `ResolverLaws.ChosenIsUniqueLowest` | internal/resolver/service.go:198-211 | the chosen binding is the one matching row of lowest priority |
| `ResolverLaws.ChoiceFailsExactlyWhen` | internal/resolver/service.go:198-210 | AMBIGUOUS_BINDING if and only if two matches share the lowest priority, NO_COMPATIBLE_PROVIDER if and only if none matches |
| `ResolverItems.FailsBeforeRows` | internal/resolver/service.go:291-319 | the answers when the registry is down, the capability unknown, or its schema not satisfied |
| `ResolverItems.FailsAtTheChoice` | internal/resolver/service.go:192-211 | the answers when no row suits or two are tied, in the rows' columns |
| `ResolverItems.BestRowAnswers` | internal/resolver/service.go:212-267 | the best row is given exactly when its snapshot is served unexpired and the first profile with its id is available, lists the capability and the region or none, and no data class limit is exceeded; each failure's code; every field of the item |
| `ResolverPlans.PlansAreSound` | internal/resolver/service.go:179-287 | one sound item per requirement, every snapshot valid at created_at, expiry within the maximum |
| `ResolverPlans.DecideSucceedsExactly` | internal/resolver/service.go:179-267 | a requirement is given an item if and only if a sound one exists |
| `ResolverPlans.ResolveSucceedsExactly` | internal/resolver/service.go:127-288 | a valid request the policy lets pass resolves if and only if every requirement has a sound item |
| `ResolverPlans.ResolveFailsWithTheFirst` | internal/resolver/service.go:190-267 | otherwise it is answered as its first requirement without one, in id order |
| `ResolverPlans.PlanCarries` | internal/resolver/service.go:255-287 | what the plan, its fingerprint and its expiry are made of |
| `ResolverPlans.ReorderingChangesNothing` | internal/resolver/domain.go:271-353 | reordering the requirements of a request that resolves gives the same plan |
| `ResolverPlans.NamedRegionsAreNeverAmbiguous` | internal/resolver/service.go:205-209 | over what any store run without a breaking unguarded UPDATE holds, a requirement naming a region is never ambiguous if live bindings leave factories and agents open |
| `ResolverPlans.ResolveIsNeverAmbiguous` | internal/resolver/service.go:192-211 | the same for whole requests, each requirement read from the store at its own moment |
| `ResolverPlans.BothHypothesesAreNeeded` | internal/resolver/service.go:368-380 | reachable store states in which each hypothesis alone fails and a requirement is ambiguous |
| `SnapshotCache.StepKeepsInv` | internal/resolver/cache.go:91-149 | every cache step keeps entries, flights and past serves justified |
| `SnapshotCache.EveryServeIsJustified` | internal/resolver/cache.go:91-149 | every serve was a loader answer with no eviction since; memory and degraded serves are unexpired and were stored by an earlier flight at their loading time, memory serves less than the refresh interval ago |
| `SnapshotCache.GoneStaysGone` | internal/resolver/cache.go:117-127 | from the landing of a gone verdict on, nothing is served for the id until the loader returns it again |
| `SnapshotCache.Cache.Look` | internal/resolver/cache.go:92-101 | the fast path serves if and only if the entry is fresh |
| `SnapshotCache.Cache.Finish` | internal/resolver/cache.go:103-143 | evict, serve degraded, or store and serve; every waiting caller gets the result |
| `SnapshotCache.EveryCallIsAnswered` | internal/resolver/cache.go:91-149 | whatever runs in between, a call ends with an error or with a snapshot served for its id during the call |
| `CacheOutcomes.LookExactly` | internal/resolver/cache.go:91-101 | memory answers exactly while an entry is unexpired, its refresh not due and no refresh has failed |
| `CacheOutcomes.ErrorsExactly` | internal/resolver/cache.go:103-149 | a waiting caller gets an error exactly when the snapshot is gone, or the loader is out and no unexpired entry is left |
| `CacheOutcomes.LandingExactly` | internal/resolver/cache.go:103-149 | what each answer of the loader does to the entry and to every waiting caller |
| `CacheOutcomes.OutagesAreRetried` | internal/resolver/cache.go:120-137 | after an outage no call is answered from memory, by any interleaving, until the loader returns a snapshot |
| `SnapshotCache.Cache.Get` | internal/resolver/cache.go:91-149 | the whole call with anything in between: its steps, and what it returns |
| `TokenBucket.AdmissionsAreBounded` | internal/platform/middleware/middleware.go:175-233 | per subject and interval, admissions are at most burst plus the interval over the refill time |
| `TokenBucket.TokensStayInRange` | internal/platform/middleware/middleware.go:206-220 | tokens stay between 0 and burst |
| `TokenBucket.PatientRequestsAreAdmitted` | internal/platform/middleware/middleware.go:206-220 | a request one refill time after its subject's previous one is admitted |
| `TokenBucket.BurstIsSpendable` | internal/platform/middleware/middleware.go:206-220 | a new subject, or one that has rested long enough, is let through until it has spent its whole burst, however fast it asks |
| `TokenBucket.DisabledExactlyWhen` | internal/platform/middleware/middleware.go:184-197 | the limiter is off if and only if the rate is not positive or exceeds 10^9 |
| `TokenBucket.Limiter.Allow` | internal/platform/middleware/middleware.go:193-231 | one request under the mutex |
| `Drill.LogsArePaths` | internal/exitdrill/drill.go:59-72 | the log is a legal path from DRAFT to the state; past DRAFT approver and initiator differ and exactly one transition into APPROVED exists, by the approver |
| `Drill.AuditSection` | internal/exitdrillverify/checker.go:289-326 | the audit section reports no break exactly for a non-empty log with a named, distinct approver who made a transition into APPROVED |
| `Drill.AuditPassesExactlyWhen` | internal/exitdrillverify/checker.go:289-326 | a drill made by these commands passes if and only if it is past DRAFT and its approver has a name |
| `Drill.ClosedIsSettled` | internal/exitdrill/drill.go:199-215 | in every interleaving a CLOSED drill has no OPEN finding and a result evidence |
| `Drill.ClosedIsFrozen` | internal/exitdrill/drill.go:326-386 | a CLOSED drill is never changed again |
| `Drill.WithoutEvidenceNeverCloses` | internal/exitdrill/drill.go:155-215 | a drill over without result evidence can never be closed |
| `Drill.ResolvedStaysResolved` | internal/exitdrill/drill.go:326-386 | findings never disappear and a resolved one never reopens |
| `Drill.StepFollows` | internal/exitdrill/drill.go:128-386 | every step keeps a drill's invariant, extends its log, and freezes what is over |
| `DrillOutcomes.WritesExactly` | internal/exitdrill/drill.go:128-278 | over every run an open command moves its drill as it says if and only if the drill as it then is allows it; a success over findings goes into remediation, a finish stores its evidence |
| `DrillOutcomes.CommandSucceedsExactly` | internal/exitdrill/drill.go:128-278 | the same for a whole command nobody gets in the way of |
| `DrillOutcomes.FindingsExactly` | internal/exitdrill/drill.go:326-370 | when a finding goes in, and that it takes an ended drill into remediation |
| `DrillOutcomes.ADrillSucceeds` | internal/exitdrill/drill.go:109-278 | the plain course of commands leads from nothing to SUCCEEDED with a log of four rows |
| `DrillOutcomes.CountsDecide` | internal/exitdrill/worker.go:155-171 | what a worker's count of the steps makes of a running drill |
| `Drill.Store.Read` | internal/exitdrill/drill.go:220-253 | the read's answer: missing, replay, outside the matrix, conflict, or proceed |
| `Drill.Store.Write` | internal/exitdrill/drill.go:254-278 | the compare-and-set, audit row and hook, together or not at all |
| `Drill.Store.AddFinding` | internal/exitdrill/drill.go:326-370 | the finding and the remediation phase under the row lock |
| `Drill.Store.Transition` | internal/exitdrill/drill.go:220-278 | read, any commits, write |
| `DrillWorker.ExecutorCallsAreBounded` | internal/exitdrill/worker.go:51-136 | over every run the executor is called for a step at most as often as its attempts were short of the budget |
| `DrillWorker.DoneIsLeftExactlyBy` | internal/exitdrill/worker.go:114-136 | DONE is left if and only if a failing call on the step writes its release |
| `DrillWorker.DoneIsFinalWhenPunctual` | internal/exitdrill/worker.go:51-186 | over every run from fresh steps, DONE is final while outcomes are written inside their leases and no sweep takes a live lease away |
| `DrillWorker.StaleReleaseReopens` | internal/exitdrill/worker.go:114-122 | a run that finishes every step and then has one put back by a stalled worker |
| `DrillSteps.ClaimsExactly` | internal/exitdrill/worker.go:51-108 | the claim takes exactly the first ready, unlocked step, fails it on spent attempts, and else counts one more and leases it |
| `DrillSteps.OutcomesExactly` | internal/exitdrill/worker.go:114-136 | what a success confirms and what a failure puts back |
| `DrillSteps.UndisturbedDrillsSucceed` | internal/exitdrill/worker.go:142-171 | a worker nobody disturbs makes every step DONE, one by one, and its count calls for SUCCEEDED |
| `DrillWorker.Drill.ClaimNext` | internal/exitdrill/worker.go:51-108 | the first claimable step, failed when its budget is spent, else leased with one more attempt |
| `DrillWorker.Drill.Confirm` | internal/exitdrill/worker.go:114-136 | the unguarded release or the guarded confirmation |
| `DrillWorker.Drill.TimeoutSweep` | internal/exitdrill/worker.go:177-186 | exactly the timed-out RUNNING steps go back to PENDING |
| `DrillWorker.Drill.Aggregate` | internal/exitdrill/worker.go:155-171 | FAILED exactly when some step is, else SUCCEEDED exactly when every step of a non-empty list is DONE |
| `DrillWorker.Drill.RunStep` | internal/exitdrill/worker.go:114-136 | the executor call, any steps of others, the outcome's write |
| `DrillWorker.Drill.Round` | internal/exitdrill/worker.go:142-154 | each round takes exactly the steps of its look, claim (skipping steps others have locked) and executor call, answers as the claim rules, and uses up an attempt or ends the loop, whatever others do |
| `DrillWorker.Drill.RunDrill` | internal/exitdrill/worker.go:142-163 | the loop terminates after the first round that does not go on, having taken exactly its rounds' steps, and ends as the counts of the step rows decide, or in an error after a spent budget or a failing executor |
| `DrillRun.Conclude` | internal/exitdrill/worker.go:164-171 | the Finish the count calls for, with any commits between its read and its write |
| `DrillRun.SuccessMeetsDoneSteps` | internal/exitdrill/worker.go:155-171 | over every run of commands and workers, the write that takes the drill from RUNNING to SUCCEEDED answers a count of all steps DONE, and if outcomes were written in time every step is still DONE |
| `DrillRun.FailureMeetsAFailedStep` | internal/exitdrill/worker.go:155-171 | likewise a write to FAILED answers a count with a FAILED step |
| `DrillRun.SuccessOverAPendingStep` | internal/exitdrill/worker.go:114-171 | a run in which a stale release puts a step back between the count and the write to SUCCEEDED |

## Left out

- SQL, connection pools, isolation anomalies inside one statement, hashtext collisions and lost lock sessions: a statement group is one atomic step, a transaction may always roll back.
- NATS, MinIO and the HTTP layer: only their contracts (accept, refuse or be down; versioned extend-only objects) appear, as arbitrary answers.
- JSON, CEL and regular expressions: a payload carries what the decoder and the red-line scan say of it, a policy is an arbitrary function, a schema is its required keys and allowed values.
- Republish: it reads the latest row and calls Publish; its replay flag is not modelled.
- The publish backlog gate (`MaxBacklog`): it only refuses, before anything is written.
- Producers of outbox rows other than the binding store: their event ids are arbitrary distinct strings.
- The request fingerprint's text: two intents are equal exactly when their fields are.
- Storing a resolved plan under its idempotency key, plan ids, and the plan's own lifecycle.
- tenant_ref of scanned evidence rows, read by a second query per row.
- Legal hold, the archive checkpoint table, and `IsRetryable`: they decide nothing the theorems speak of.
- Floating point in the token bucket: tokens are exact reals, so rounding is not bounded.
- Counters kept for monitoring, logging, and the bounded retry sleep of the worker loops.
- The rest of the drill chain verifier: findings, metrics and evidence links repeat queries without state of their own.
- Policy sets, exit packs, the metrics module and the registry: smaller compare-and-set patterns that the binding store shows with more at stake.
- Outbox.Insert order: outbox ids are arbitrary distinct numbers, so nothing is said about id order following commit order.
- Drill.Store.Transition: Abort's preliminary lookup of the state is a parameter of the command, so a lookup made at any earlier time is covered, and it has no method of its own.
- DrillWorker.DoneIsFinalWhenPunctual: excludes sweeps that take a live worker's lease away, because such a worker may then release a finished step.
- BindingSlots.NoRequestMatchesTwoLiveBindings: is weaker than the documented invariant, which the code does not keep when an unguarded Resume revives a row.
