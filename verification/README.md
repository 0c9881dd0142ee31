# degu: a verified model

degu scans disk usage, finds reclaimable trees and stages them for deletion. This project
models the parts of it whose correctness is a property of whole runs rather than of single
functions, and proves those properties with Dafny 4.11. `dafny verify dfyconfig.toml` checks
everything.

- **Crash-safe activation** (`Codec`, `CodecLayout`, `Activation`, `ActivationInvariant`,
  `ActivationSteps`, `ActivationJobs`, `ActivationTheorems`, `ActivationSticky`,
  `ActivationResume`, `ActivationFirst`, `ActivationEarned`, `Publication`). Two fixed anchor
  directories, system and self-managed, hold immutable `authority`, `prepare` and `active`
  records; a store holds the reciprocal binding. Any number of selectors, activations and
  self-initializers interleave, either anchor may be provisioned late, `active` may be lost, any
  process may fail at any point and the machine may crash, keeping any subset of the renames
  whose directory was not yet synced.
- **The concurrent tree walker** (`Accounting`, `WalkTree`, `WalkFold`, `WalkPool`,
  `WalkTheorems`, `WalkCensus`, `WalkDescriptors`). Any number of workers over one mutex-protected
  last-in-first-out queue, with a deadline that may strike at any poll. The specification is the
  recursive fold of a finite tree, and the fold's numbers are those of a census of its files and
  directories.
- **Trusted resolution and the guarded tree check** (`Trusted`, `TrustedStability`,
  `TrustedExact`, `Guard`). The symlink work list against recursive pathname resolution (section 4.13 of the POSIX.1-2017 Base
  Definitions), its stability under everything foreign users may do (section 4.3), and a stack of
  directory iterators against the preorder of the tree.
- **Seal, restore and the staging lifecycle** (`ModeBits`, `Seal`, `SealRuns`, `Staging`,
  `StagingRuns`, `Recovery`, `RecoveryPlaces`, `Exposure`). The held-descriptor mode machine over an object others
  may change, one-shot purge authority over the write-ahead log's transition table, bounded
  startup recovery, and the writer-exposure preorder.
- **Project discovery** (`Traversal`, `RootDiscovery`, `DiscoveryMeaning`). A stack-driven walk
  that claims whole directories and never attributes a file twice, and exactly what it claims.

## How the code is modelled

System calls, clocks and other people are parameters: every operation takes the answers it gets
(an inspection that fails, a write that is not durable, a deadline poll that has expired) and the
theorems hold for all of them. Code that works in place is a class whose methods are tied to a
function of the old state; the theorems are about those functions over all runs. A record slot
keeps `visible` (what readers see) apart from `durable` (what a crash preserves). Fixed-width
counters saturate explicitly.

Assumptions taken from code outside the modelled files: `SealWalStore` makes a created store
durable and re-syncs the store directory on every exclusive open
(`crates/degu-core/src/seal/store.rs:197-271`), which is what makes it safe that a matching store
binding is accepted without a sync (`crates/degu-core/src/activation/mod.rs:1144`). A selector
whose anchor opens re-syncs that anchor's directory.

Where the code and a plausible reading of it differ, the model follows the code:

- A prepare or active record may be publishable and yet unreadable: each locator may have 64 KiB
  but the reader stops at 128 KiB. `PrepareReadBack` gives the exact condition and
  `LongLocatorsAreUnreadable` an input. Such a record makes discovery report corruption, which is
  one of the two exceptions in `CrashConsistentDiscovery`.
- Sticky selection holds of what every process decides, holds and publishes, whenever it began
  (`StickySelection`). The bare choice made before the gate can still name the other root: exactly
  for a selector that found no system anchor and then a self-managed anchor without a claim
  (`StaleChoice`). `StaleSelectorExists` is such a run, and the gate stops that selector.
- "Verified evidence with a lineage is at its sealed mode" is false when two seals are prepared
  before either is applied (`SecondSealBreaksLineage`). An application can break it exactly when,
  before the call, it is a seal aiming at another mode than the active lineage's and the object is
  still as the seal was prepared for (`BreaksExactlyWhenEndangered`); on every run without such an
  application it holds (`LineageMode`).
- "Every anchor-using recovery step changes the state" is false for quarantined trees
  (`QuarantineFinishesInPlace` is an input). It holds exactly for transactions in any other state,
  which is known before the step (`InPlaceExactlyQuarantined`); a step that finishes in place
  released the last seal, and the table lets such a transaction move nowhere safe
  (`FinishesInPlace`).

## Model

| member | source | states |
|---|---|---|
| `RecordCodec.ValidateAbsoluteLocator` | crates/degu-core/src/activation/mod.rs:1606-1626 | the component scan accepts exactly the absolute locators with a normal component and no parent component |
| `RecordCodec.AuthorityRoundTrip` | crates/degu-core/src/activation/mod.rs:1433-1457 | decoding inverts encoding for every authority record that encodes |
| `RecordCodec.AuthorityReencode` | crates/degu-core/src/activation/mod.rs:1443-1457 | every byte string accepted as an authority record re-encodes to itself |
| `RecordCodec.PrepareRoundTrip` | crates/degu-core/src/activation/mod.rs:1459-1493 | decoding inverts encoding for prepare records |
| `RecordCodec.PrepareReencode` | crates/degu-core/src/activation/mod.rs:1472-1493 | every accepted prepare byte string re-encodes to itself |
| `RecordCodec.ActiveRoundTrip` | crates/degu-core/src/activation/mod.rs:1495-1533 | decoding inverts encoding for active records |
| `RecordCodec.ActiveReencode` | crates/degu-core/src/activation/mod.rs:1510-1533 | every accepted active byte string re-encodes to itself |
| `RecordCodec.KindsAreDisjoint` | crates/degu-core/src/activation/mod.rs:60-62 | no byte string decodes as two record kinds |
| `RecordCodec.PrepareReadBack` | crates/degu-core/src/activation/mod.rs:1343-1378 | a prepare record is 114 bytes plus its locators and reads back exactly when they total at most 130958 bytes |
| `RecordCodec.ActiveReadBack` | crates/degu-core/src/activation/mod.rs:1495-1533 | an active record has the same size and reads back under the same condition |
| `RecordCodec.AuthorityReadBack` | crates/degu-core/src/activation/mod.rs:1343-1378 | every authority record that encodes reads back |
| `RecordCodec.LongLocatorsAreUnreadable` | crates/degu-core/src/activation/mod.rs:60-65 | two admissible locators whose record encodes and cannot be read back |
| `RecordLayout.AuthorityLayout` | crates/degu-core/src/activation/mod.rs:1433-1441 | an authority record is eight letters, the 32-byte id, a big-endian length, the locator, four big-endian identity words in order and the backend byte |
| `RecordLayout.PrepareLayout` | crates/degu-core/src/activation/mod.rs:1459-1470 | a prepare record is its letters and id, then authority and store in that layout, and nothing else |
| `RecordLayout.ActiveLayout` | crates/degu-core/src/activation/mod.rs:1495-1508 | an active record has the same bytes behind its own letters |
| `RecordPublication.FreeTemporary` | crates/degu-core/src/activation/mod.rs:1210-1236 | the bounded search finds an unused temporary name, and gives up exactly when all 128 are taken |
| `RecordPublication.RecordDirectory.Publish` | crates/degu-core/src/activation/mod.rs:1183-1268 | whatever fails: an existing record is never replaced, the callback fires exactly when the complete record is in place and before that nothing changed; it gets into place, and succeeds durably, exactly under the stated faults and free names |
| `RecordPublication.NoTornRecord` | crates/degu-core/src/activation/mod.rs:1244-1267 | after any crash a name holds no record or the complete one, and a synced record survives |
| `RecordPublication.CompleteSelfAuthority` | crates/degu-core/src/activation/selection.rs:489-561 | honest reporting: not attempted means nothing changed, may-have-published means in place, published and success mean durable; and the exact circumstances of success |
| `ActivationSteps.OpenSelfInv` | crates/degu-core/src/activation/selection.rs:278-300 | opening the self anchor after the system anchor keeps the protocol invariant |
| `ActivationSteps.InitRecheckInv` | crates/degu-core/src/activation/selection.rs:501-510 | the re-check of the system anchor after provisioning keeps the invariant, excluding every process that holds the system anchor blind to self |
| `ActivationSteps.SelectInv` | crates/degu-core/src/activation/selection.rs:302-345 | choosing an authority and starting its publication keeps the invariant |
| `ActivationJobs.PublishClaimInv` | crates/degu-core/src/activation/selection.rs:766-787 | publishing the witness and then the claim keeps the invariant |
| `ActivationJobs.BindInv` | crates/degu-core/src/activation/mod.rs:1135-1164 | publishing or accepting the store binding keeps the invariant |
| `ActivationJobs.RunInv` | crates/degu-core/src/activation/mod.rs:489-571 | every run of every interleaving keeps the invariant |
| `ActivationTheorems.ClaimAgreement` | crates/degu-core/src/activation/selection.rs:278-345 | starting from no records, all authority records present in the two anchors, durable or not, are equal in every reachable state |
| `ActivationTheorems.NoSplitEvidence` | crates/degu-core/src/activation/selection.rs:205-268 | at most one anchor ever carries a prepare or active record |
| `ActivationTheorems.WitnessBeforeClaim` | crates/degu-core/src/activation/selection.rs:766-787 | a selector holding both anchors makes the selected claim visible only once the peer's witness of it is durable |
| `ActivationSticky.VisibleClaimDecides` | crates/degu-core/src/activation/selection.rs:302-344 | a claim in view is the claim of the choice, and the root it names is the only one chosen |
| `ActivationSticky.DecisionSticks` | crates/degu-core/src/activation/selection.rs:278-345 | with a durable claim anywhere, whoever has seen both anchors stops or starts publishing that very claim for the root it names; it never leases another |
| `ActivationSticky.StickySelection` | crates/degu-core/src/activation/selection.rs:205-344 | once a claim is durable it stays, and in every later state every job works for it, every finished process holds the root it names whatever its outcome, and every decision stops or picks that root |
| `ActivationSticky.StaleChoice` | crates/degu-core/src/activation/selection.rs:278-345 | the bare choice names another root exactly for a selector that saw no system anchor and an unclaimed self-managed one, and its decision is to stop |
| `ActivationSticky.StaleSelectorExists` | crates/degu-core/src/activation/selection.rs:139-163 | a concrete nine-step run in which that happens |
| `ActivationTheorems.CrashConsistentDiscovery` | crates/degu-core/src/activation/mod.rs:592-788 | discovery never reports a lost store, and a corrupt one exactly when the recorded store carried another activation's binding or the record is too long |
| `ActivationTheorems.DurabilityChain` | crates/degu-core/src/activation/mod.rs:489-571 | durable active implies durable prepare and binding; durable prepare implies a durable claim naming the anchor with the same identifier |
| `ActivationResume.ResumeCompletes` | crates/degu-core/src/activation/mod.rs:489-571 | with a prepare record on disk, synced or not, and nothing running, running the selector again reaches the recorded store in at most twelve actions and discovery then reports it activated, whatever store is desired and also after losing `active` |
| `ActivationFirst.FirstActivation` | crates/degu-core/src/activation/mod.rs:422-426 | nothing runs, no prepare record exists, there is a system anchor or a claimed self-managed one, and the desired store is new or unbound and its record readable: opening, selecting with a supported backend and at most twelve actions end with the desired store activated on the root the claim names, otherwise on the system root, and discovery reports it |
| `ActivationEarned.ActivationIsEarned` | crates/degu-core/src/activation/mod.rs:489-571 | in every interleaving and after every crash, whoever ends with an activated store holds the one its root durably recorded, under a record its reader accepts, and that store came unbound or bound by this very record |
| `ActivationFirst.UnsupportedOnlyLeases` | crates/degu-core/src/activation/mod.rs:427-441 | from the same states an unsupported backend ends in a lease on that root within four actions and no prepare record is written; without a claim nothing at all is |
| `ActivationFirst.RefusesExactly` | crates/degu-core/src/activation/mod.rs:388-454 | a selector alone on the machine is refused exactly when a recorded store cannot be resumed, or nothing is recorded and there is neither a system anchor nor a claimed self-managed one; deciding writes nothing |
| `ActivationFirst.SelfInitialization` | crates/degu-core/src/activation/selection.rs:489-561 | on a machine without a system anchor and with nothing running, explicit initialization durably declares the self-managed root, keeping a claim already made, exactly unless what that root recorded cannot be resumed |
| `WalkAccounting.PlusAssociates` | crates/degu-walk/src/accounting.rs:11-51 | saturating addition of all counters is associative |
| `WalkAccounting.MergeAssociates` | crates/degu-walk/src/accounting.rs:11-51 | merging partial results in any grouping gives the same counters and the same sample |
| `WalkAccounting.MergeKeepsSample` | crates/degu-walk/src/accounting.rs:49-50 | merging keeps the skip sample at the length min(32, total) |
| `WalkAccounting.WalkStats.Merge` | crates/degu-walk/src/accounting.rs:11-62 | the in-place merge is the algebraic merge |
| `WalkAccounting.WalkStats.RecordSkip` | crates/degu-walk/src/accounting.rs:68-78 | recording a skip merges one skip with its clipped reason |
| `WalkAccounting.WalkStats.RecordFile` | crates/degu-walk/src/accounting.rs:96-112 | recording a file merges exactly its contribution |
| `WalkAccounting.WalkStats.RecordDirectory` | crates/degu-walk/src/accounting.rs:114-125 | recording a directory merges exactly its contribution |
| `WalkAccounting.TruncateReason` | crates/degu-walk/src/accounting.rs:80-94 | the scan returns the clipped reason |
| `WalkAccounting.ClipIsLongest` | crates/degu-walk/src/accounting.rs:80-94 | the clipped reason is the longest prefix of whole characters within 128 bytes |
| `WalkTree.ScanDir` | crates/degu-walk/src/walker.rs:272-304 | the scan records exactly what its readable prefix contributes, defers exactly its eligible children, and marks itself truncated when a poll expires |
| `WalkTree.ScanEntry` | crates/degu-walk/src/walker.rs:339-410 | one entry is excluded, skipped, counted or deferred as the policy says |
| `WalkFold.CutIsMarked` | crates/degu-walk/src/walker.rs:328-331 | a scan is marked truncated exactly when it was cut, and then counts its own directory as unvisited |
| `WalkFold.ConsumeConserves` | crates/degu-walk/src/walker.rs:171-210 | what one consumed directory visits, records, defers and loses adds up to its whole subtree |
| `WalkFold.VisitsOnce` | crates/degu-walk/src/walker.rs:386-410 | the fold visits each eligible directory exactly once and nothing else |
| `WalkPool.MoveConserves` | crates/degu-walk/src/walker.rs:212-270 | every step of every worker conserves settled plus outstanding work |
| `WalkTheorems.ScheduleIndependence` | crates/degu-walk/src/walker.rs:164-304 | without a deadline, for any tree, worker count and interleaving, each eligible directory is consumed exactly once and the counters are the tree's saturating fold |
| `WalkTheorems.SameResult` | crates/degu-walk/src/walker.rs:119-125 | two schedules of one tree, with any worker counts, report the same numbers |
| `WalkCensus.ReportedNumbers` | crates/degu-walk/src/accounting.rs:96-125 | for every tree, worker count and schedule without a deadline each reported counter is, clamped to 64 bits, that of the census: apparent bytes sum the lengths of the counted files, allocated bytes their blocks, hard-linked bytes those of files with several links, and so on |
| `WalkCensus.CensusIsTheTree` | crates/degu-walk/src/walker.rs:339-410 | the census holds exactly the files that a path leads to through directories that are entered, each once, and exactly those directories and the root |
| `WalkCensus.LatestMeaning` | crates/degu-walk/src/accounting.rs:96-112 | the newest time is that of a counted file, and no counted file is newer |
| `WalkTheorems.HonestTruncation` | crates/degu-walk/src/walker.rs:212-304 | in every reachable state the root plus discovered directories equals consumed plus unvisited plus queued plus active, no counter exceeds the complete walk's, and nothing is consumed twice |
| `WalkTheorems.UntruncatedIsComplete` | crates/degu-walk/src/walker.rs:257-270 | a finished, untruncated walk has no unvisited directory and is the complete walk |
| `WalkTheorems.BeginsHonestly` | crates/degu-walk/src/walker.rs:42-95 | a result without a walk is truncated exactly when the deadline came before an owned root was opened, then counts the root as unvisited and is below the complete walk |
| `WalkTheorems.NoStuckPool` | crates/degu-walk/src/walker.rs:212-229 | all workers have returned with an empty queue, or some worker can step; a waiting worker always coexists with a busy one |
| `WalkTheorems.BoundedRun` | crates/degu-walk/src/walker.rs:164-169 | the length of every run is bounded by the tree, the pool and its spurious wake-ups |
| `WalkDescriptors.DescriptorBound` | crates/degu-walk/src/walker.rs:21-34 | with one worker the parent handles of queued children form one ancestor chain, no longer than the tree is deep |
| `TrustedResolution.ResolveAppend` | crates/degu-walk/src/trusted.rs:127-135 | resolving a concatenation is resolving its parts, which is why splicing a link's components in front is resolution |
| `TrustedResolution.ResolveTrustedDirectory` | crates/degu-walk/src/trusted.rs:23-89 | the work list terminates, holds only trusted directories, and gives the recursion's verdict: the same directory exactly when the path resolves with every hop trusted, and otherwise the first refusal |
| `TrustedResolution.VerdictMeaning` | crates/degu-walk/src/trusted.rs:141-166 | the verdict accepts exactly a path that resolves with every hop trusted |
| `TrustedStability.ActKeeps` | crates/degu-walk/src/guard.rs:16-23 | no permitted create, link, remove, rename or chmod by a foreign user changes a local entry of a trusted directory |
| `TrustedStability.ResolutionStability` | crates/degu-walk/src/trusted.rs:23-89 | no permitted sequence of foreign namespace steps changes the directory a trusted path resolves to |
| `TrustedExact.TrustIsExact` | crates/degu-walk/src/guard.rs:16-23 | a directory is trusted exactly when no foreign user could remove or replace a locally owned entry in it, whatever is in it, and none could change its mode |
| `TrustedExact.AcceptedExactly` | crates/degu-walk/src/trusted.rs:23-89 | a path is accepted, at that directory, exactly when it is absolute and leads through existing stable directories of that kind by local links within the budget |
| `TrustedExact.OrdinaryHomeAccepted` | crates/degu-walk/src/trusted.rs:152-166 | a home under a root-owned `/` and `/home` of ordinary modes is accepted |
| `TreeGuard.FirstMeaning` | crates/degu-walk/src/guard.rs:201-226 | the first event's verdict: clear exactly when every event is clear |
| `TreeGuard.PreorderComplete` | crates/degu-walk/src/guard.rs:201-226 | the preorder lists exactly the nodes of the tree |
| `TreeGuard.Find` | crates/degu-walk/src/guard.rs:201-226 | the iterator stack returns the first violation or protected name in preorder |
| `TreeGuard.FindNamed` | crates/degu-walk/src/guard.rs:145-179 | the check is clear exactly when the root and every descendant pass; otherwise the root's own fault, in order, or the first descendant's |
| `TreeGuard.ClearMeaning` | crates/degu-walk/src/guard.rs:256-309 | a node passes exactly when it shares the mount, has no protected name, and under a required UID is owned and not shared-writable |
| `TreeGuard.RefusalMeaning` | crates/degu-walk/src/guard.rs:201-226 | a refusal names a fault the node has and none is more urgent, in the order mount, owner, mode; a protected name is found only on a faultless node |
| `ModeBits.SealedMeaning` | crates/degu-core/src/backend.rs:30-39 | the seal is idempotent, clears only shared write bits, always passes the namespace-exclusive test |
| `ModeBits.SealedIsMinimal` | crates/degu-core/src/backend.rs:30-39 | no weaker seal excludes |
| `ModeBits.OctalUnique` | crates/degu-core/src/backend.rs:1092-1097 | comparing numeric modes is comparing modes |
| `HeldMode.ValidSnapshotMeaning` | crates/degu-core/src/backend.rs:1064-1100 | validation passes exactly for the same object, owner and credentials at that mode |
| `HeldMode.HeldEvidence.PrepareMinimalSeal` | crates/degu-core/src/backend.rs:791-811 | a seal is prepared only on verified evidence without a lineage, for the object as certified, and aims at the minimal seal of its mode |
| `HeldMode.HeldEvidence.PrepareWalBoundRestore` | crates/degu-core/src/backend.rs:852-885 | a restore is prepared only for the exact lineage, on the object still at its sealed mode, and any other lineage changes nothing |
| `HeldMode.HeldEvidence.PrepareExact` | crates/degu-core/src/backend.rs:887-912 | a change is prepared only for the certified object exactly as it now is; a failed inspection or any difference leaves the evidence unverified |
| `HeldMode.HeldEvidence.RecordAppliedSealLineage` | crates/degu-core/src/backend.rs:918-946 | a lineage is recorded exactly on verified evidence at the sealed mode without one, and a refusal changes nothing |
| `HeldMode.HeldEvidence.BindRecoveredSealLineage` | crates/degu-core/src/backend.rs:816-850 | a recovered lineage is bound exactly to the same verified object at the sealed mode without one, and a refusal changes nothing |
| `HeldMode.HeldEvidence.ApplyModeChange` | crates/degu-core/src/backend.rs:948-1014 | evidence, object and outcome after an application, whatever fails and whoever interferes |
| `HeldMode.HeldEvidence.FinishSuccessfulChmod` | crates/degu-core/src/backend.rs:1016-1046 | verified exactly when the object is the prepared one at the target mode; otherwise every claim about the mode is dropped |
| `SealRuns.RefusedExactly` | crates/degu-core/src/backend.rs:948-979 | an application is refused exactly when the inspection fails, the object differs from the prepared one, or a restore is not the current lineage's; nothing is touched, and only a failed look costs the verification |
| `SealRuns.NotAppliedExactly` | crates/degu-core/src/backend.rs:981-1014 | a refused chmod keeps evidence and lineage exactly when the object is seen unchanged; otherwise every claim is dropped |
| `SealRuns.AppliedExactly` | crates/degu-core/src/backend.rs:981-1046 | a chmod that went through is verified exactly when the object is seen as the prepared one at the target, and then a restore has consumed its lineage and a seal kept it |
| `SealRuns.ChangesAreAuthorised` | crates/degu-core/src/backend.rs:791-1046 | over all runs every attempted target is a minimal seal of the verified mode or the lineage's original mode, and no lineage is restored more often than bound |
| `SealRuns.AttemptsSawThePrepared` | crates/degu-core/src/backend.rs:948-962 | nothing is attempted on an object that differs from the prepared snapshot, and a refusal leaves it untouched |
| `SealRuns.LineageMode` | crates/degu-core/src/backend.rs:918-946 | on every run that applies nothing endangering the lineage, verified evidence with a lineage is at its sealed mode |
| `SealRuns.BreaksExactlyWhenEndangered` | crates/degu-core/src/backend.rs:948-1040 | some weather makes an application break that exactly when, before the call, it is a seal aiming elsewhere under a lineage and the object is as it was prepared for |
| `SealRuns.ApplyAtSealedMode` | crates/degu-core/src/backend.rs:948-1040 | one application breaks that exactly when it lands a seal aiming elsewhere under a lineage |
| `SealRuns.SecondSealBreaksLineage` | crates/degu-core/src/backend.rs:791-811 | a concrete run with two prepared seals that breaks it |
| `SealRuns.SealRestoreRoundTrip` | crates/degu-core/src/backend.rs:791-1062 | with no failing call, seal, record, restore always gives back object and evidence exactly, or refuses before touching a changed object |
| `SealRuns.SealRestoreEveryWeather` | crates/degu-core/src/backend.rs:791-1062 | whatever calls fail and whoever replaces the object at any point: if the seal and the restore report verified success, object and evidence are exactly as certified; a refusal leaves the object as found |
| `SealRuns.RestoreAfterAnyRun` | crates/degu-core/src/backend.rs:948-1040 | after any run, a restore that reports verified success left exactly the original mode and consumed its own lineage |
| `SealRuns.SealLands` | crates/degu-core/src/backend.rs:948-1040 | a seal that reports verified success left exactly a minimal seal of the mode it found |
| `Staging.TerminalIsFinal` | crates/degu-core/src/seal/wal.rs:4300-4373 | terminal states have no outgoing transition |
| `Staging.SealWal.AppendAll` | crates/degu-core/src/staging/recovery.rs:1006-1074 | records are written in order until one is refused or fails |
| `Staging.ReadyStagingEngine.RequestVerifiedPurge` | crates/degu-core/src/staging.rs:786-925 | engine and authority after a purge request, for every answer it meets |
| `Staging.ReadyStagingEngine.ExecuteVerifiedPurge` | crates/degu-core/src/staging.rs:930-976 | engine after an execution; only a failed plan takes the transaction off the issued list |
| `Staging.ReadyStagingEngine.Undo` | crates/degu-core/src/staging.rs:1000-1092 | engine after an undo, however far it got |
| `Staging.SidesAreKept` | crates/degu-core/src/seal/wal.rs:4316-4326 | the undo side and the purge side of the table are never left and entered only from the committed state |
| `StagingRuns.OneShotPurgeAuthority` | crates/degu-core/src/staging.rs:786-1092 | over all runs: one unconsumed authority per transaction, purge and undo reported at most once and never both, never both intents in the log |
| `StagingRuns.AuthorityExactly` | crates/degu-core/src/staging.rs:786-925 | an authority is issued exactly for a ready engine, a committed or unissued purgeable transaction, matching, content-proven and certified evidence, an exact rebinding and verification, and a durable record where one was needed; every refusal before the rebinding leaves the engine equal |
| `StagingRuns.StaleRequestBlocks` | crates/degu-core/src/staging.rs:852-925 | a stale rebinding or a changed tree issues nothing and blocks the engine, and is recorded exactly when that write was durable |
| `StagingRuns.PurgeReportedExactly` | crates/degu-core/src/staging.rs:930-976 | a purge is reported exactly for this generation's authority on a purgeable transaction with the same root, an authentic plan and three durable records; however far it gets, the records written are the first of those three |
| `StagingRuns.UndoReportedExactly` | crates/degu-core/src/staging.rs:1000-1092 | an undo is reported exactly for a committed transaction with matching, certified and rebound evidence, no collision or failed rename, and four durable records; the last record is the restoration, the conflict or the block that happened |
| `StartupRecovery.BeginsExactlySafe` | crates/degu-core/src/seal/wal.rs:1243-1260 | the log lets the engine begin exactly when it is unpoisoned and every transaction is in a state recovery calls safe |
| `StartupRecovery.RecoverySetMeaning` | crates/degu-core/src/seal/wal.rs:3042-3258 | the recovery set is exactly the transactions not in a safe terminal state, and quarantined ones with an undecided change |
| `StartupRecovery.DecisionsAreLegal` | crates/degu-core/src/seal/wal.rs:4300-4373 | every record recovery decides to write by itself is a valid transition |
| `RecoveryPlaces.WorkFitsPlace` | crates/degu-core/src/seal/wal.rs:3112-3258 | over every history the log accepts, with the renames themselves happening at any point of their intents, work for the source is chosen only while the root is at the source and work for the staged tree only while it is staged |
| `RecoveryPlaces.PlaceDecides` | crates/degu-core/src/seal/wal.rs:3187-3225 | at either rename: nothing is done without a recorded outcome, and with one exactly the work for the side the root is on |
| `RecoveryPlaces.RecordsWhatHappened` | crates/degu-core/src/staging.rs:1681-1725 | what recovery records by itself is admitted by the history: restored only after the root was put back, a conflict only after a collision |
| `RecoveryPlaces.EitherSide` | crates/degu-core/src/seal/wal.rs:3187-3195 | two histories with the same log and the root on different sides of the rename |
| `StartupRecovery.InPlaceExactlyQuarantined` | crates/degu-core/src/staging.rs:1797-1830 | an anchor-using step can succeed without changing the state exactly for quarantined transactions; for every other state a successful step changes it |
| `StartupRecovery.QuarantineFinishesInPlace` | crates/degu-core/src/staging.rs:1797-1830 | a concrete quarantined transaction with one seal left that finishes in place |
| `StartupRecovery.FinishesInPlace` | crates/degu-core/src/staging.rs:1797-1818 | a transaction finishes without a state change exactly when the last seal of a quarantined tree is released, and the table leaves it nothing else |
| `StartupRecovery.OnwardKeeps` | crates/degu-core/src/seal/wal.rs:4300-4373 | records along the table never change a terminal outcome and never leave the undo or the purge side |
| `StartupRecovery.RecoveringEngine.CurrentRecoveryTransactions` | crates/degu-core/src/staging.rs:1565-1583 | the canonical recovery set, ascending and complete |
| `StartupRecovery.RecoveringEngine.RecoverToTerminal` | crates/degu-core/src/staging.rs:1605-1818 | a safe state is reached exactly when at most four passes that all succeed lead to one, as the turns determine; it is reached along the table, anchors are requested at most four times and only for work that uses them, and nothing else is touched |
| `StartupRecovery.RecoveringEngine.RecoverStartup` | crates/degu-core/src/staging.rs:1487-1563 | a ready engine exists exactly for an unpoisoned log, this generation's exact sorted report of at most 64 candidates, and candidates that each can be brought to a safe state; then all transactions are safe, and no transaction moves off the table |
| `Exposure.WriterExposureSet.Insert` | crates/degu-core/src/authority.rs:347-352 | inserting joins with the existing value of the key |
| `Exposure.WriterExposureSet.InsertAll` | crates/degu-core/src/authority.rs:347-352 | inserting a whole observation one exposure at a time is the collected set |
| `Exposure.CollectedMeaning` | crates/degu-core/src/authority.rs:325-338 | a key ends up with all rights inserted for it at the least certainty |
| `Exposure.InsertionOrderIrrelevant` | crates/degu-core/src/authority.rs:347-352 | the final set is independent of insertion order and repetition |
| `Exposure.NoWiderTransitive` | crates/degu-core/src/authority.rs:361-378 | the comparison is transitive |
| `Exposure.CoverMeaning` | crates/degu-core/src/authority.rs:293-332 | one entry covers another exactly when both are known, it grants every power over every spot to every principal that the other does, and its certainty is known and no stronger |
| `Exposure.AcceptedIsConfirmed` | crates/degu-core/src/authority.rs:361-378 | an accepted set gives nobody a power that was not confirmed, and only known principals and backends |
| `Exposure.NoWiderReflexive` | crates/degu-core/src/authority.rs:361-378 | it is reflexive exactly on sets with known principals and backends and no unknown certainty |
| `Exposure.WiderActualStaysRefused` | crates/degu-core/src/authority.rs:361-378 | more actual exposure never turns a refusal into an acceptance |
| `Exposure.WiderConfirmedStaysAccepted` | crates/degu-core/src/authority.rs:103-118 | more confirmed exposure never turns an acceptance into a refusal unless the merged certainty becomes unknown |
| `Exposure.UnknownMergeForgets` | crates/degu-core/src/authority.rs:103-118 | an entry merged into uncertainty covers nothing any more, exactly as if it were removed |
| `ProjectDiscovery.VisitTidy` | crates/degu-adapters/src/discovery/traversal.rs:46-176 | one visit emits at most one candidate, inside its directory, off every adapter root and apart from everything it pushes |
| `ProjectDiscovery.UniqueAttribution` | crates/degu-adapters/src/discovery/traversal.rs:32-268 | claims are pairwise non-nested and overlap no adapter root, and no file is counted by two candidates |
| `DiscoveryMeaning.EmitsExactly` | crates/degu-adapters/src/discovery/traversal.rs:46-268 | without an early stop a directory is emitted whole exactly when it is reached, unprotected, owned, outside and above no adapter root or dependency, of a selected class, readable and measured found without protected boundaries; loose checkpoints exactly for each directory looked into with at least two readable ones that their measurement finds |
| `DiscoveryMeaning.NotesExactly` | crates/degu-adapters/src/discovery/traversal.rs:46-268 | the incomplete regions reported are exactly those of the directories reached |
| `DiscoveryMeaning.LooseMeaning` | crates/degu-adapters/src/discovery/traversal.rs:237-268 | the files collected are exactly the owned checkpoint files among the entries read |
| `DiscoveryMeaning.LooseNumber` | crates/degu-adapters/src/discovery/traversal.rs:221-234 | and each of them counts once towards the minimum of two |
| `DiscoveryMeaning.RefusedMeaning` | crates/degu-adapters/src/discovery/traversal.rs:244-258 | the entries refused are exactly those that could not be inspected or are foreign-owned |
| `DiscoveryMeaning.ReadableMeaning` | crates/degu-adapters/src/discovery/traversal.rs:198-220 | the entries read are those before the first that cannot be |
| `RootTraversal.RootDiscovery.VisitOne` | crates/degu-adapters/src/discovery/traversal.rs:46-91 | visiting a directory emits, pushes and reports incomplete exactly what its specification says, or is cut short by the deadline having reported no more |
| `RootTraversal.RootDiscovery.VisitClaim` | crates/degu-adapters/src/discovery/traversal.rs:94-123 | an unselected claim or one over an adapter's root is skipped, an unreadable one leaves only its region |
| `RootTraversal.RootDiscovery.VisitClassified` | crates/degu-adapters/src/discovery/traversal.rs:145-176 | a measured claim is emitted whole, or discarded for protected boundaries and enumerated instead |
| `RootTraversal.RootDiscovery.Enumerate` | crates/degu-adapters/src/discovery/traversal.rs:198-268 | directories are pushed, loose checkpoints measured together with their own truncation and incompleteness, and refused entries reported, up to the first unreadable entry |
| `RootTraversal.RootDiscovery.Run` | crates/degu-adapters/src/discovery/traversal.rs:32-44 | the loop reports a prefix of the whole walk's candidates and incomplete regions, all of them without a deadline, with unique attribution |

## Left out

- Locators are compared as byte strings; Rust compares paths component by component, so `/a//b` and `/a/b` differ here.
- Read-only selection and readiness checks, and the account-base lookup: they take shared locks and publish nothing.
- Anchor provisioning is one atomic step that adds an empty directory; its own rollback is not modelled.
- Anchor ownership, mode, ACL and mount checks on opening are taken to pass; a failure is a process that ends.
- Splitting a path into components (`lexical_components`) and reading a link's text: paths and link targets are given as components.
- Bind mounts: each directory has one name and its `..` is the directory that names it.
- The contents of the skip sample depend on the schedule; only its length is proved independent of it.
- WalkTheorems.BoundedRun: counts spurious wake-ups instead of excluding them, because the condition variable permits them.
- Progress counters, heartbeat, tracing and message texts.
- The staging engine's forward transaction and the deletion of a tree's entries; a purge here is the records it writes.
- Staging.ReadyStagingEngine.RequestVerifiedPurge: matching, content proof, anchors and verification are answers given to it, because the held-tree inspection is not part of this model.
- What a held-descriptor restore, verification or undo does to the tree during recovery: a step here writes any records the table allows and leaves any other facts.
- No code renames a tree back under the rollback intent, so `RecoveryPlaces` has no such move and says nothing of where a rolled-back tree is.
- Permission records are summarised by three facts: whether any is undecided, how many seals are still active, and whether an active one lacks a sufficient identity.
- Adapter probes, classification of directories and measurement of claims in project discovery: their answers are given.
- `discover` over several roots: roots are visited one after the other and may overlap each other.
- CLI, TUI, configuration, plans, quotas and output.
