# Verified model of the ChatGPT archive service

The service receives ChatGPT exports, keeps them as immutable blobs and shared rows, announces what it
holds to a downstream consumer through an outbox, and deletes on request. This project models its
transactional protocols and its in-memory algorithms in Dafny and proves what they promise over every
run and every input. `dafny verify dfyconfig.toml` checks all of it.

## How it is modelled

- A SQL table is a map or a set, a transaction is one atomic step, or a lock, act and commit step where
  interleaving matters. The broker is a growing log that answers a repeated message id inside its
  duplicate window with the newest stored copy. SHA-256 is injective: a digest stands for its content.
- Protocols are state machines (`Action`, `Enabled`, `Apply`, `IsRun`); a theorem about runs quantifies
  over every list of actions. Code that updates state in place is a class or a method with loops, and
  each method is proved against the functions the theorems are about.
- Clocks, randomness and outside failures are parameters: what the broker and the database answer
  (`Weather`), where an execution stops (`effects`), the time of a report (`at`).

| files | component |
|---|---|
| `Outbox*.dfy` | the pump against deletions: stream copies, carry, erasure commands, tombstones |
| `Blob*.dfy` | blob registration against erasure under advisory locks |
| `Version*.dfy` | records shared by cumulative exports, and deletion with restore |
| `DeletionPhases.dfy`, `DeletionService.dfy`, `DeletionConvergence.dfy` | the phases of one deletion with a crash after any effect |
| `DeletionInventory.dfy` | what a deletion plans to remove and to retract |
| `Announcements.dfy`, `TombstoneResend.dfy` | the announced-subject ledger, and resend waits |
| `Chronicle.dfy`, `Reconcil*.dfy` | reconciling snapshots into histories |
| `Reparenting.dfy` | projecting the message graph |
| `CanonicalJson.dfy`, `ConversationDigest.dfy` | the input of digests |
| `JsonPointer.dfy`, `RawRecords.dfy`, `RawRecorder.dfy` | locations of raw records |
| `ArchivePaths.dfy`, `ArchiveInventory.dfy` | inspecting and extracting an archive |
| `Orders.dfy` | ascending order of a set |

## Properties that hold only under a condition

Six promises do not hold without a condition. Each is stated with its exact condition, both ways.

- Blob safety needs one media type per object. The re-check before an erasure compares the whole
  reference, the erasure acts on the digest: `BlobSafety.SafeExactlyWhen`.
- A row removal keeps records, snapshots and observations consistent exactly when its plan is up to
  date: the records it removes are those that lose their last observer now. Two plans made before
  either is carried out leave a record that no export accounts for, an import between a plan and its
  removal leaves an observation without a record: `VersionRuns.RemovalSafeExactlyWhen`, with a run
  from the empty state for each failure.
- A deletion leaves only retained content unless an export presented a conversation twice with
  different content (a reparse, or a repeated id in one export, which the parser does not refuse),
  another export holds the later content, and a message whose parts differ is kept by another
  export that presents it: `VersionLimits.OnlyRetainedExactlyWhen`. Initial imports that present each
  record once never leak.
- The subjects retracted downstream are those that leave exactly when no entity of a later kind has
  the identity of a project or conversation and another verdict, since verdicts are looked up by
  identity alone: `DeletionInventory.RetractsWhatLeavesExactlyWhen`.
- Re-parenting keeps ancestry unless a row between has a represented role and a provider id that does
  not parse: the walk stops there and names nobody: `Reparenting.AncestryExactlyWhen`.
- Resend waits never shrink and stay under the cap exactly when the first wait is within it, since the
  first wait is not capped: `TombstoneResend.WaitsGrowExactlyWhen`.

## Model

| member | source | states |
|---|---|---|
| OutboxRuns.StepKeeps | crates/chatgpt-archive/src/receipt/outbox/publish.rs:126-189 | every step of pump, writers and deletions keeps the invariant, and a copy a row records or a command names stays recorded or named |
| OutboxRuns.StreamCopiesCovered | crates/chatgpt-archive/src/receipt/outbox/carry.rs:47-140 | without crashes and lost acknowledgements, in every state of every run each content-bearing stream copy is in flight, carried, on its live row, or named by a command for its owner |
| OutboxRuns.CoverageOfRuns | crates/chatgpt-archive/src/receipt/outbox/publish.rs:49-157 | with them, an uncovered copy was exposed by an earlier crash or lost acknowledgement of the run |
| OutboxRuns.ExposedWasUnmarked | crates/chatgpt-archive/src/receipt/outbox/marks.rs:18-53 | a copy so exposed had no committed mark and no command at that moment |
| OutboxRuns.RetryCovers | crates/chatgpt-archive/src/receipt/outbox/publish.rs:159-189 | a retry inside the duplicate window covers the newest copy again and records it once the mark commits |
| OutboxRuns.RetryRecoversExactly | crates/chatgpt-archive/src/receipt/outbox/publish.rs:159-189 | a retry recovers exactly the copy it is answered with, the newest inside the duplicate window and none of the old ones outside it; every other exposed copy stays uncovered |
| OutboxRuns.MarkNeverLost | crates/chatgpt-archive/src/receipt/outbox/marks.rs:18-53 | under the row lock the guarded mark lands on its row |
| OutboxRuns.ErasureIsPrecise | crates/chatgpt-archive/src/privacy_deletion/erasure.rs:38-100 | no command, queued or sent, in any run names a copy of a live row, of another owner or of a message without content |
| OutboxRuns.RowStep | crates/chatgpt-archive/src/privacy_deletion/service.rs:582-623 | a row only moves forward, or leaves with a deletion that may take it |
| OutboxRuns.OwedRowsPersist | crates/chatgpt-archive/src/privacy_deletion/service.rs:582-623 | no sequence of steps removes a tombstone while it is unacknowledged or an erasure command while it is unpublished |
| OutboxRuns.NoSendAfterAcknowledgement | crates/chatgpt-archive/src/receipt/outbox/mod.rs:185-204 | once a pass starts with the row acknowledged or gone, no later action of the run sends it: no resend and no first publication, in that pass or any after |
| OutboxErasure.ChunksPartition | crates/chatgpt-archive/src/stream_erasure.rs:78-137 | chunks are non-empty, of at most 500, and joined give back the sequences |
| OutboxErasure.ChunksAscend | crates/chatgpt-archive/src/stream_erasure.rs:78-137 | chunks of an ascending list ascend inside and from one to the next, so they are disjoint |
| OutboxErasure.OwnerCommandsPartition | crates/chatgpt-archive/src/stream_erasure.rs:78-137 | the commands of one owner carry that owner and partition its collected sequences |
| OutboxErasure.DeletionCommandsSound | crates/chatgpt-archive/src/privacy_deletion/erasure.rs:71-100 | a deletion's command names only sequences collected for its owner |
| OutboxErasure.DeletionCommandsComplete | crates/chatgpt-archive/src/privacy_deletion/erasure.rs:71-100 | every collected sequence is named by a command of its owner |
| OutboxErasure.DeletionKeysDistinct | crates/chatgpt-archive/src/stream_erasure.rs:78-137 | no two commands of a deletion share a deduplication key |
| OutboxErasure.InsertedCommands | crates/chatgpt-archive/src/stream_erasure.rs:78-137 | inserting commands under deduplication keys adds exactly what is not queued yet |
| OutboxInvariant.ReconcileKeeps | crates/chatgpt-archive/src/receipt/outbox/carry.rs:95-140 | the commands for a carried row that is gone keep the invariant and name every carried copy of it |
| OutboxPump.ArchiveEventOutbox.EnqueueOwnerErasure | crates/chatgpt-archive/src/stream_erasure.rs:78-137 | the chunk loop queues exactly the commands of the owner |
| OutboxPump.ArchiveEventOutbox.EnqueueErasureCommands | crates/chatgpt-archive/src/privacy_deletion/erasure.rs:71-100 | the owner loop queues exactly the commands of the deletion |
| OutboxPump.ArchiveEventOutbox.DropPublishedFactRows | crates/chatgpt-archive/src/privacy_deletion/erasure.rs:38-66 | the doomed rows go and no others, and exactly their content sequences are collected by owner |
| OutboxPump.ArchiveEventOutbox.Remember | crates/chatgpt-archive/src/receipt/outbox/carry.rs:47-73 | an acknowledged copy of a tracked fact joins the carry, and the sequences to mark come back |
| OutboxPump.ArchiveEventOutbox.Forget | crates/chatgpt-archive/src/receipt/outbox/carry.rs:76-78 | one entry leaves the carry |
| OutboxPump.ArchiveEventOutbox.MarkPublished | crates/chatgpt-archive/src/receipt/outbox/marks.rs:18-53 | the mark lands exactly on an unpublished row and merges its sequences |
| OutboxPump.ArchiveEventOutbox.ReconcileCarried | crates/chatgpt-archive/src/receipt/outbox/carry.rs:95-140 | entries of live rows stay, an entry that leaves has every copy recorded or commanded, and success leaves only live rows |
| OutboxPump.ArchiveEventOutbox.PublishFirst | crates/chatgpt-archive/src/receipt/outbox/publish.rs:126-157 | one publication does the steps of the protocol that the broker's and the database's answers lead to |
| OutboxPump.ArchiveEventOutbox.PublishAgain | crates/chatgpt-archive/src/receipt/outbox/publish.rs:105-124 | a resend is the resend step of the protocol when the broker stores it, and no step when it refuses |
| OutboxPump.ArchiveEventOutbox.PublishRows | crates/chatgpt-archive/src/receipt/outbox/publish.rs:49-103 | a pass over first publications, resends and rows too large to deliver stays within the protocol, uncovers nothing unless the acknowledgement of a first publication is lost, counts its publications and reports its first failure, stopping only at a database failure |
| BlobSafety.SafeExactlyWhen | crates/chatgpt-archive/src/privacy_deletion/execution.rs:108-149 | no run of receipts, registrations, deletions and erasers ever leaves a committed row without its object, if and only if references to one object agree on its media type |
| BlobSafety.StepKeeps | crates/chatgpt-archive/src/blob_protocol.rs:88-157 | given one media type per object, every step keeps rows backed by objects, checked registrations present under their locks, and cleared digests unreferenced |
| BlobSafety.CommitKeeps | crates/chatgpt-archive/src/receipt/pg.rs:281-389 | rows committed by a registrar are backed, and no eraser that cleared one of its digests exists beside it |
| BlobSafety.EraseKeeps | crates/chatgpt-archive/src/blob_store.rs:347-406 | given one media type per object, an erasure after a re-check takes no object from a committed row or a checked registration |
| BlobSafety.OtherNameDangles | crates/chatgpt-archive/src/privacy_deletion/rows.rs:337-355 | a row under another media type does not save the object it shares |
| BlobLocks.NeverDeadlocked | crates/chatgpt-archive/src/blob_protocol.rs:39-101 | no circle of transactions waits for advisory locks in any state of any run |
| BlobLocks.SomeoneAdvances | crates/chatgpt-archive/src/privacy_deletion/service.rs:207-216 | while transactions are open, one of them can take a step of its own |
| BlobRegistry.RegisterBlobs | crates/chatgpt-archive/src/blob_protocol.rs:88-157 | locks ascend without repeats; success exactly when every registration finds its object or brings its bytes, and then nothing else is stored; no object is lost or rewritten, in success or failure |
| BlobRegistry.BlobStore.Store | crates/chatgpt-archive/src/blob_store.rs:213-300 | an existing digest is never rewritten |
| BlobRegistry.BlobStore.Verify | crates/chatgpt-archive/src/blob_store.rs:302-336 | present exactly with the referenced length |
| BlobRegistry.BlobStore.Erase | crates/chatgpt-archive/src/blob_store.rs:347-406 | an absent object is done, another length is refused, otherwise exactly this object goes |
| VersionRuns.StepKeeps | crates/chatgpt-archive/src/entity_versions.rs:54-154 | every import, reparse, plan and up-to-date row removal keeps: a record's content is a kept snapshot, every snapshot is named by a live export's observation, every observation has its record and snapshot |
| VersionRuns.VersionsInEveryRun | crates/chatgpt-archive/src/entity_versions.rs:54-154 | that holds in every state of every run, however imports, plans and removals interleave, if plans are carried out up to date |
| VersionRuns.RemovalSafeExactlyWhen | crates/chatgpt-archive/src/privacy_deletion/rows.rs:126-203 | of a consistent state, a row removal leaves a consistent one if and only if the plan is up to date |
| VersionRuns.NothingStaleNothingLost | crates/chatgpt-archive/src/privacy_deletion/restore.rs:44-80 | after a row removal a record with no unnamed snapshot still holds what a retained export presented |
| VersionContent.OnlyRetainedContent | crates/chatgpt-archive/src/privacy_deletion/restore.rs:31-197 | where nothing leaks, in every run whose plans are carried out exact each row's content, every snapshot and every content part is something a live export presented |
| VersionContent.StepKeepsInv | crates/chatgpt-archive/src/privacy_deletion/service.rs:696-718 | message rows are exactly those a live export is recorded to have seen, and those are exactly the messages of what it presented |
| VersionLimits.OnlyRetainedExactlyWhen | crates/chatgpt-archive/src/entity_versions.rs:73-85 | it holds for every run if and only if no export replaces parts of a message that another presenter of the conversation keeps, under content that a third copy hides |
| VersionLimits.InitialImportsNeverLeak | crates/chatgpt-archive/src/reparse.rs:674-767 | runs of initial imports and deletions leave only retained content |
| VersionLimits.OverlappingPlansLeaveAnOrphan | crates/chatgpt-archive/src/privacy_deletion/service.rs:635-718 | a run from the empty state: two plans made before either is carried out leave a shared record that no export observes |
| VersionLimits.LateImportLeavesADanglingObservation | crates/chatgpt-archive/src/privacy_deletion/rows.rs:126-203 | a run from the empty state: an import between a plan and its removal leaves an observation without its record |
| VersionReplay.RestoreIsReplay | crates/chatgpt-archive/src/privacy_deletion/restore.rs:134-197 | each message's restored history is what the retained versions say of it in order of arrival, versions repeated in a row counted once, empty parts left out and equal neighbours kept once |
| VersionReplay.RepeatsChangeNothing | crates/chatgpt-archive/src/privacy_deletion/restore.rs:152-158 | where no version names a message twice, skipping repeated versions changes nothing |
| VersionReplay.EndsAsNewest | crates/chatgpt-archive/src/normalized_persist.rs:230-276 | a message whose newest parts are not empty ends as the newest retained version has it |
| VersionReplay.ReplayHolds | crates/chatgpt-archive/src/normalized_persist.rs:131-276 | a replayed history holds exactly the non-empty parts some retained version says |
| VersionStore.WriteParts | crates/chatgpt-archive/src/normalized_persist.rs:230-276 | a revision is added exactly when the parts are not empty and differ from the latest |
| VersionStore.Tables.Observe | crates/chatgpt-archive/src/entity_versions.rs:54-88 | the observation is set, and the record's versions nobody names go, but not the presented one |
| VersionStore.Tables.PersistDetail | crates/chatgpt-archive/src/normalized_persist.rs:131-185 | the message loop writes what the conversation's digest determines and observes each message |
| VersionStore.Tables.PersistProject | crates/chatgpt-archive/src/normalized_persist.rs:41-103 | one project of an import is the step the runs are about |
| VersionStore.Tables.PersistConversation | crates/chatgpt-archive/src/reparse.rs:686-765 | one conversation of an import, with the unchanged path that observes its messages, is the step the runs are about |
| VersionStore.Tables.RetainedVersions | crates/chatgpt-archive/src/privacy_deletion/restore.rs:86-105 | what retained exports presented, by received time and then export id |
| VersionStore.Tables.RestoreConversation | crates/chatgpt-archive/src/privacy_deletion/restore.rs:134-197 | the loop with its previous digest is the replay, and header and digest end as the newest version |
| VersionStore.Tables.RestoreRetained | crates/chatgpt-archive/src/privacy_deletion/restore.rs:31-82 | every stale record is rebuilt and nothing else changes |
| VersionStore.Tables.RemoveRows | crates/chatgpt-archive/src/privacy_deletion/rows.rs:126-203 | the planned exports, their observations, the doomed records and the doomed messages with their parts go, and the rest is rebuilt |
| DeletionConvergence.CrashesConverge | crates/chatgpt-archive/src/privacy_deletion/execution.rs:64-215 | after any attempts, each stopped after any effect, one execution carried through leaves the rows, objects, ledger, tombstones, totals and audits of a single one |
| DeletionConvergence.ReportIsStable | crates/chatgpt-archive/src/privacy_deletion/execution.rs:152-215 | after a report is returned every later attempt changes nothing and returns that report, the only audit |
| DeletionConvergence.Outcome | crates/chatgpt-archive/src/privacy_deletion/rows.rs:34-122 | a fault-free execution removes exactly the scope's rows, erases exactly the objects that lost their last reference, leaves one tombstone per announced subject and owner, and reports what was decided after the removal |
| DeletionConvergence.PurgeOutcome | crates/chatgpt-archive/src/privacy_deletion/execution.rs:108-149 | phase B erases exactly the open items' objects, whatever their order and repeats |
| DeletionPhases.Resumes | crates/chatgpt-archive/src/privacy_deletion/execution.rs:64-81 | starting again from what is durable ends as going on from the crash would have |
| DeletionService.PrivacyDeletion.RecomputeSharing | crates/chatgpt-archive/src/privacy_deletion/rows.rs:305-334 | every item not purged is decided by whether a remaining row references it |
| DeletionService.PrivacyDeletion.RemovePlannedRows | crates/chatgpt-archive/src/privacy_deletion/rows.rs:34-122 | phase A as one transaction |
| DeletionService.PrivacyDeletion.SettleItem | crates/chatgpt-archive/src/privacy_deletion/execution.rs:121-148 | one item is re-checked, erased and marked, or the execution stops where the fault is |
| DeletionService.PrivacyDeletion.CompleteRequest | crates/chatgpt-archive/src/privacy_deletion/execution.rs:152-215 | audit, report and the end of the items together |
| DeletionService.PrivacyDeletion.ExecuteWithFault | crates/chatgpt-archive/src/privacy_deletion/execution.rs:64-81 | an execution stopped after a number of effects leaves exactly what those effects leave, and answers only when it completes |
| Announcements.AnnouncementsAreConserved | crates/chatgpt-archive/src/announced_subjects.rs:52-114 | in every run each subject and owner ever announced is in the ledger with its record present and no tombstone, or out of both with exactly one tombstone, which names the archive of the first announcement; a deletion removes by one list of its plan and retracts by the other |
| Announcements.PlanRetracts | crates/chatgpt-archive/src/privacy_deletion/rows.rs:370-405 | of the subjects present, a plan retracts exactly those that leave by it |
| DeletionInventory.RetractsWhatLeavesExactlyWhen | crates/chatgpt-archive/src/privacy_deletion/service.rs:539-580 | the tombstone subjects are exactly the projects, conversations and archives that leave if and only if no verdict is hidden by another kind's under the same identity |
| DeletionInventory.Inventory.AddEntityRows | crates/chatgpt-archive/src/privacy_deletion/service.rs:430-459 | each entity is listed with its own verdict, which is noted under its identity over what was noted before |
| DeletionInventory.Inventory.AddTombstones | crates/chatgpt-archive/src/privacy_deletion/service.rs:561-579 | exactly the entities whose noted verdict is to remove get a tombstone item |
| DeletionInventory.Inventory.Plan | crates/chatgpt-archive/src/privacy_deletion/service.rs:109-147 | the planner lists the items the theorems are about |
| Announcements.Ledger.Enqueue | crates/chatgpt-archive/src/outbox.rs:315-348 | a fact under a new key is stored with its ledger row, one under a taken key with nothing; the first archive stays |
| Announcements.Ledger.OwnersOf | crates/chatgpt-archive/src/announced_subjects.rs:75-95 | exactly the owners the ledger holds, in order |
| Announcements.Ledger.InsertTombstones | crates/chatgpt-archive/src/privacy_deletion/rows.rs:407-450 | one tombstone per pair of the removed subjects, whose ledger rows go |
| TombstoneResend.WaitsGrowExactlyWhen | crates/chatgpt-archive/src/deletion_ack.rs:34-48 | the waits never shrink, and never exceed the cap, if and only if the first wait is within the cap |
| TombstoneResend.WaitsDouble | crates/chatgpt-archive/src/receipt/outbox/marks.rs:56-73 | the wait doubles with each resend below the cap, up to thirty doublings |
| TombstoneResend.TombstoneRow.MarkPublished | crates/chatgpt-archive/src/receipt/outbox/marks.rs:18-53 | the first publication books the first wait |
| TombstoneResend.TombstoneRow.MarkResent | crates/chatgpt-archive/src/receipt/outbox/marks.rs:56-73 | the n-th resend books the wait of that number unless the acknowledgement came first |
| TombstoneResend.TombstoneRow.Acknowledge | crates/chatgpt-archive/src/deletion_ack.rs:74-105 | an acknowledgement counts once and marks the row published |
| Reconciler.Reconcile | crates/chatgpt-archive/src/reconciliation/core.rs:16-124 | the loops over snapshots compute the result the laws are about |
| Reconciler.RecordPresent | crates/chatgpt-archive/src/reconciliation/core.rs:338-358 | a new digest is a revision, every sighting an observation |
| Reconciler.ObserveConversation | crates/chatgpt-archive/src/reconciliation/core.rs:289-336 | a conversation and its messages are recorded and counted |
| Reconciler.ObserveProject | crates/chatgpt-archive/src/reconciliation/core.rs:176-234 | a project and its instructions are recorded, absent instructions missing |
| Reconciler.MarkFamilyMissing | crates/chatgpt-archive/src/reconciliation/core.rs:135-174 | exactly the omitted records are missing, with instructions but not messages, and are counted |
| ReconciliationLaws.ReconciliationIsAppendOnly | crates/chatgpt-archive/src/reconciliation/core.rs:16-86 | every history and the reports for s are prefixes of those for s + t |
| ReconciliationLaws.RecordsAreObserved | crates/chatgpt-archive/src/reconciliation/core.rs:16-174 | a record of any kind has a history exactly when some snapshot holds it; its observations are its sightings snapshot by snapshot, or one gap for each later snapshot without it |
| ReconciliationLaws.ObservedEverAfter | crates/chatgpt-archive/src/reconciliation/core.rs:52-62 | once a record is seen, each later snapshot strictly extends its history, by observations of that archive that are missing exactly where the snapshot omits it and then just one, and no later snapshot takes them back |
| ReconciliationLaws.ChildrenAreObserved | crates/chatgpt-archive/src/reconciliation/core.rs:176-336 | the same for messages, without gaps, and instructions, with gaps, over the occurrences of their record |
| ReconciliationLaws.RevisionsAreAccounted | crates/chatgpt-archive/src/reconciliation/core.rs:338-358 | each history's revisions are distinct and are the digests of its present observations |
| ReconciliationTotals.ReportsAddUp | crates/chatgpt-archive/src/reconciliation/core.rs:485-558 | new revisions reported equal conversation plus message revisions; message revisions plus reused ones equal the messages discovered |
| ReconciliationTotals.ObservationsAddUp | crates/chatgpt-archive/src/reconciliation/core.rs:485-558 | every conversation observation is in some report as present or missing |
| Reparenting.NearestRepresentedParent | crates/chatgpt-archive/src/contract_projection/messages.rs:209-227 | the walk ends on every parent map and names the row it stops at, if that row is emitted |
| Reparenting.ConversationMessages | crates/chatgpt-archive/src/contract_projection/messages.rs:137-187 | the emitted rows in order under their projected parents, and the warnings exactly when a role or an identity is left out |
| Reparenting.AncestryExactlyWhen | crates/chatgpt-archive/src/contract_projection/messages.rs:209-227 | on acyclic parents an emitted row is a projected ancestor if and only if it is a stored one with no row between that stops the walk unemitted |
| Reparenting.AncestryIsPreserved | crates/chatgpt-archive/src/contract_projection/messages.rs:137-227 | with representable ids the two ancestor relations agree on emitted rows |
| Reparenting.BlockedIsCut | crates/chatgpt-archive/src/contract_projection/messages.rs:219-223 | an unparsable represented row cuts everything below it from every ancestor above it |
| Reparenting.ProjectedIsAcyclic | crates/chatgpt-archive/src/contract_projection/messages.rs:137-227 | the projected graph has no cycle |
| Reparenting.ParentsAreEmitted | crates/chatgpt-archive/src/contract_projection/messages.rs:137-187 | a projected parent is the id of an emitted message |
| Reparenting.ParentNamesOne | crates/chatgpt-archive/src/contract_projection/messages.rs:137-187 | with unique ids the named parent is the projected one |
| CanonicalJson.SameFormExactlyWhen | crates/chatgpt-archive/src/reconciliation/digest.rs:98-110 | two values have one canonical form if and only if they are equal up to key order at every depth |
| CanonicalJson.CanonicalIsIdempotent | crates/chatgpt-archive/src/reconciliation/digest.rs:98-110 | canonicalizing again changes nothing |
| ConversationDigest.SameOrderExactlyWhen | crates/chatgpt-archive/src/reconciliation/digest.rs:13-24 | the stable sort tells two message lists apart exactly by what they say of each id |
| ConversationDigest.SameInputExactlyWhen | crates/chatgpt-archive/src/reconciliation/digest.rs:13-24 | two conversations have one digest input if and only if every field and, for each provider id, the messages in order are equal up to key order at every depth |
| ConversationDigest.PermutationKeepsDigest | crates/chatgpt-archive/src/reconciliation/digest.rs:13-24 | permuting messages with distinct ids leaves the digest as it is |
| JsonPointer.DecodedEncoded | crates/chatgpt-archive/src/synthetic_parser/parts.rs:54-57 | reading a location by sections 3 and 4 of RFC 6901 returns its segments, whatever characters they hold |
| RawRecords.LocationsAreDistinct | crates/chatgpt-archive/src/synthetic_parser/decode.rs:16-229 | no two raw records of a parsed archive share a location: conversations, projects, canvases and assets |
| RawRecords.RecordExtra | crates/chatgpt-archive/src/synthetic_parser/parts.rs:43-52 | every extra key is recorded below its object |
| RawRecords.RecordParts | crates/chatgpt-archive/src/synthetic_parser/parts.rs:7-30 | exactly the parts of unknown kind are recorded, by ordinal |
| RawRecorder.RecordMessage | crates/chatgpt-archive/src/synthetic_parser/decode.rs:185-229 | the records of a message in the parser's order |
| RawRecorder.RecordNode | crates/chatgpt-archive/src/synthetic_parser/decode.rs:164-183 | the records of a mapping node, with an id that is not its key |
| RawRecorder.RecordArchive | crates/chatgpt-archive/src/synthetic_parser/decode.rs:16-162 | the locations the parser writes for an archive, from its conversations to its assets, pairwise distinct |
| RawRecorder.RecordList | crates/chatgpt-archive/src/synthetic_parser/assets.rs:44-52 | the extra keys of each asset, or canvas, under its root and index |
| ArchivePaths.NormalizedIsFixed | crates/chatgpt-archive/src/archive.rs:500-516 | an accepted name becomes safe components and normalizes to itself |
| ArchivePaths.FixedExactlyWhen | crates/chatgpt-archive/src/archive.rs:500-516 | a name is its own normal form if and only if all its components are safe and it has no backslash |
| ArchiveInventory.SaturationIsExact | crates/chatgpt-archive/src/archive.rs:472-498 | saturating the product decides the ratio as unbounded integers would |
| ArchiveInventory.InspectionExactlyWhen | crates/chatgpt-archive/src/archive.rs:278-343 | an archive is accepted if and only if its count, names, files, sizes, ratios and exact totals are within the limits, its paths distinct and the first bytes of its files readable |
| ArchiveInventory.AcceptedIsBounded | crates/chatgpt-archive/src/archive.rs:278-343 | exact totals within limits, at most ratio times the compressed bytes, distinct paths in normal form |
| ArchiveInventory.InspectZip | crates/chatgpt-archive/src/archive.rs:278-343 | the loop gives that inventory, or the error of the first entry it refuses |
| ArchiveInventory.CopyEntry | crates/chatgpt-archive/src/archive.rs:399-428 | copying chunk by chunk under two counters succeeds exactly when the entry reads to its end and holds its declared bytes, and is over the limit exactly when its bytes are |
| ArchiveInventory.ExtractEntries | crates/chatgpt-archive/src/archive.rs:368-437 | extraction succeeds if and only if every file is still the listed one with its declared bytes, and stages exactly those |
| ArchiveInventory.ExtractZipToStaging | crates/chatgpt-archive/src/archive.rs:345-437 | extraction succeeds if and only if the archive still inspects to the given inventory and every file reads to its end and its declared size; it stages exactly those bytes, at most the limit |
| ArchiveInventory.AcceptedMayExtract | crates/chatgpt-archive/src/archive.rs:345-366 | an accepted inventory is within every limit extraction works under, and extracts exactly when its files are whole |
| ArchiveInventory.StagedIsDeclared | crates/chatgpt-archive/src/archive.rs:368-437 | the bytes staged are the bytes the files declare |

## Left out

- HTTP routes, authentication, configuration, telemetry, CLI, portable export rendering, parser selection and migration reports: no deep property.
- NATS, PostgreSQL, the ZIP reader, SHA-256 and the filesystem: modelled as a log, atomic transactions, given metadata, an injective function and a map.
- Several pump loops at once: the service runs one pump with sequential passes (services/chatgpt-archive/src/lib.rs:537-573).
- Backoff of failed attempts and of resend failures: it delays sending and changes no row that the outbox properties speak of.
- Database row locks in the blob protocol, and collisions of the 64-bit advisory lock key.
- Corruption of objects on disk: a restore over an existing object counts as success.
- Parser stamps, revision rows, provenance columns, project membership and message parent links of shared records: not part of a digest, or kept from the first presenter.
- Asset rows and their observations: an asset has no versions and no restore reads it.
- Re-announcing survivors after a deletion, and which fact is the latest for a subject.
- Timestamps of tombstones, and totals other than those of blob items.
- The codes and the sorting of reconciliation warnings, gaps, and the counts of assets by availability.
- Classification of archive entries by content, file modes, and the decoding of entry names.
- 64-bit overflow of outbox row ids and stream sequences.
- DeletionConvergence.CrashesConverge: compares everything but the time of completion, which is that of the execution that completed.
- VersionContent.OnlyRetainedContent: requires that a plan is carried out while it is still the plan that would be made, of records and of messages; nothing in the service checks that, and the initial import does not look for an open plan.
- Announcements.AnnouncementsAreConserved: requires that an account goes only with everything it owns, which the foreign keys enforce, and that no identity serves two kinds, which random identifiers stand for.
- VersionReplay.EndsAsNewest: requires non-empty parts; parts that became empty insert no row, so the older ones stay latest.
- OutboxPump.ArchiveEventOutbox.PublishRows: does not model rows of an unknown event type or with a payload that does not parse, nor a failure to book an attempt; each stops the pass as a database failure does.
