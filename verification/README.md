# Verified model of the vault sync

The repository synchronises a vault of files in two layers. Layer 1 is an operation log: clients
send file operations (create, update, rename, delete, restore), the server validates each one
against operation id, device sequence number and version vector, records concurrent edits as
conflicts, and numbers what it accepts. Layer 2 is a collaborative room per file that takes the
file over under a lease and flushes its text back when it closes. This project models both layers,
the client's outbox, replica, planners and text merge, and proves what they promise.

## How it is put together

| file | content |
|---|---|
| `Basics`, `Options`, `OrderedMaps`, `VersionVectors`, `PathClocks`, `Paths` | small facts, options and results, JavaScript maps, the two clocks, path normalisation and suffixes |
| `Vault`, `VaultRuns` | the Layer 1 server as a state machine on values, and its runs over every request |
| `VaultStore` | the in-memory store, the operation processor, the conflict service and the blob store as classes, proved to follow the state machine |
| `Senders`, `Acceptance`, `Resolutions`, `BlobLifecycle`, `PathRules` | what the server answers and leaves behind, request by request, and what follows for runs: who may write, what an operation does, claims and resolutions, uploads and collections, paths |
| `LogShape`, `ConflictFreeze`, `BlobReferences`, `BlobSafety`, `PathAllocation`, `PathCollisions`, `CausalOverwrite`, `RenameConvergence`, `ContentTable`, `TrashRoundTrip` | properties over all runs of the server |
| `Outboxes`, `OutboxProtocol`, `OutboxFate`, `Engine`, `Replica` | the client's outbox as a class, its protocol with the server, what becomes of an edit, the message handlers, and catching up |
| `ForceSync`, `ForcePush`, `ForceRunner`, `Reconciliation`, `RenameOrder` | the planners, and force push end to end |
| `Lcs`, `EarliestPairs`, `Diff3`, `ConflictMarkers` | the line-based three-way merge, which pairing it takes and what its conflict blocks hold |
| `Rooms`, `RoomManagers`, `RoomRuns`, `RoomAnswers`, `RoomContent`, `RoomDurability`, `RoomLosses`, `LaneExclusion`, `DormantEdits` | Layer 2: rooms on values and as a class, their runs, what they answer, how the file's text gets into them and back, and properties over all runs |
| `SmallRuns` | pieces of the concrete runs that show where a property needs its condition |
| `RateLimiter`, `HistoryRetention` | the fixed-window limiter and the retention of snapshot versions |

Code that changes state in place is modelled as classes and methods whose contracts tie the new
state to a function of the old one; the properties are proved about those functions. `Vault.Process`,
`Rooms.HandleUpdate` and their neighbours are those functions.

## What is taken as given

- One vault. Each server operation and each operation of a room is one atomic step (a transaction,
  a room's lock); a reload happens between operations. Persisting the outbox is atomic with the
  change it persists.
- A well-formed content hash stands for the content it is the digest of (`Digest`), so hashing is
  injective. The id of a room's flush is determined by file and epoch (`RoomFlush`) and differs from
  every random id; random operation, conflict and file ids are new when drawn.
- A Yjs document is the set of the updates merged into it and applying an update is union. Its text,
  the document a text is typed into and the update that replaces a text are parameters.
- A text diff is a list of equal, deleted and inserted parts; its equal and deleted parts spell the
  old text, its equal and inserted parts the new one.
- Roles are one "may write" flag, clocks are parameters, `contentEncoding` has one value. Strings
  compare by code point, paths are in Unicode normal form C, and lower-casing is the ASCII one.
- An exception that is not a SyncError leaves the processor as the outcome `Thrown` and is not
  answered to the operation.

## Findings

- A forced operation that is refused must still hold the highest number. If something was enqueued
  behind it, the rollback is impossible and the next operation is a sequence gap
  (`OutboxProtocol.ForcedRejectInStep`, `OutboxProtocol.EnqueueBehindForcedLeavesGap`); local changes
  behind a forced operation that is accepted or times out do no harm.
- A forced operation that is sent while others are pending is ahead of the server unless all of them
  have been accepted (`OutboxProtocol.ForcedAheadOfServer`,
  `OutboxProtocol.ForceBehindPendingLeavesGap`). The runner looks at the outbox once, before its first
  operation, so a local change that is enqueued during the push can bring this about.
- The adoption loop of a force push loses the index entry of a path when a later adopted file had
  the id it takes, as with two files that have swapped paths (`ForceRunner.AdoptionSurvives`,
  `ForceRunner.SwappedIdsLoseAPath`), and the entry stays lost unless the contents differ
  (`ForceRunner.AdoptionReachesTheEnd`).
- An operation that names a blob but no content hash skips the blob check
  (`BlobSafety.UnhashedBlobIsNotSafe`); blobs stay safe exactly while each accepted operation finds
  the blob it names verified (`BlobSafety.BlobsStayVerified`), which carrying the hash ensures.
- Reviving a deleted file in place, by update or resolution, keeps live paths distinct exactly while
  nobody has taken the path (`PathAllocation.RunKeepsDistinct`); runs in which it has been taken are
  `PathCollisions.UpdateAfterReuseCollides` and `PathCollisions.ResolutionAfterReuseCollides`.
- Closing a room because its file was deleted takes no snapshot, and the next epoch starts from the
  last one, so updates stored since are gone when the file is restored
  (`RoomDurability.NumberedUpdatesAreKept`, `RoomLosses.DeletionLosesAnUpdate`).
- Compacting beyond the numbers handed out hides the next updates from a reload
  (`RoomDurability.CompactionLimit`, `RoomLosses.CompactionLosesAnUpdate`). No server path passes
  `compact` a number, only packages/server/src/yjs-layer.test.ts:241 does, so this concerns the
  public method alone.
- A room that opens again starts from its last snapshot, not from the file, as docs/spec-core-protocol.md:114
  has it. An edit that Layer 1 accepted while the room was at rest is therefore put back by the next
  demotion, under a dominating version and without a conflict, exactly when the snapshot's text is not the
  file's (`DormantEdits.ReopeningKeepsTheFile`, `DormantEdits.DormantEditIsOverwritten`). Compacting a room
  that was never opened has the same effect on the file's first text
  (`DormantEdits.CompactedBeforeOpening`).
- The limiter lets at most 2·max - 1 calls through in any interval of a window's length, and that many
  can occur (`RateLimiter.AllowedInAnyInterval`, `RateLimiter.BoundIsReached`).

## Model

| member | source | states |
|---|---|---|
| `ForcePush.ForcePushMirrorsLocal` | apps/plugin/src/sync/force-sync.ts:46-79 | Force push end to end: from a vault with tidy live paths and no conflicted or active file, each operation of the whole plan is accepted by the server when its turn comes, without conflict and, for created files, under the local path with no suffix; afterwards the live path-and-hash pairs are exactly the local ones |
| `ForcePush.EmptyPlanMeansMirrored` | apps/plugin/src/sync/force-sync.ts:46-79 | planning against a listing of the live files yields no action if and only if the live path-and-hash pairs already equal the local ones, so nothing is left to do after a force push |
| `ForcePush.Pushes` | packages/server/src/engine/op-processor.ts:7-60 | one forced operation that finds what it needs is admitted and accepted, brings the local hash to the folded path (or deletes the file), touches only its own file and no blob, and keeps live paths distinct |
| `ForcePush.ForcedVVDominates` | apps/plugin/src/sync/engine.ts:162-168 | the version of a forced content operation is strictly above the remote version it has to overwrite and the local base, whatever the two are |
| `ForcePush.CreatePathIsFree` | packages/server/src/engine/op-processor.ts:128-136 | while the plan is being sent, nobody sits at the path of a file still to be created, so no suffix is allocated |
| `ForceSync.PlanForcePush` | apps/plugin/src/sync/force-sync.ts:46-79 | the three loops compute the plan: an update for each local file whose remote match differs, a create for each without a match under a known or a drawn id, a removal for each stray remote file, an adoption for each id that changes |
| `ForceSync.PlanIsGood` | apps/plugin/src/sync/force-sync.ts:46-79 | for path-distinct inputs each action overwrites, creates or removes one file it is right to, no file is the target of two actions, no two content actions share a path, and every difference is handled |
| `ForceSync.KnownIdIsKept` | apps/plugin/src/sync/force-sync.ts:46-79 | a local file the server does not have at its path is created under the id the client knows it by, unless a remote file has that id, otherwise under a drawn one |
| `ForceSync.PullMirrorsRemote` | apps/plugin/src/sync/force-sync.ts:86-89 | writing the remote files and trashing the planned strays leaves exactly the remote paths, and only local paths are trashed |
| `ForceRunner.ForceSyncRunner.ForcePush` | apps/plugin/src/sync/force-runner.ts:67-120 | the runner refuses exactly on pending conflicts, a non-empty outbox or a locally known file in a room; otherwise it adopts and pushes: either every send of the plan was answered by a plain acknowledgement, or the first that was refused, in conflict, unconnected or timed out ends it; server and index are in the state of exactly the operations that arrived and were acknowledged |
| `ForceRunner.ForceSyncRunner.PushAll` | apps/plugin/src/sync/force-runner.ts:100-115 | sending the actions one by one, with the version base looked up in the changing index, processes exactly the plan's operations in order up to the first send that does not succeed, and takes exactly the succeeded ones over into the index |
| `ForceRunner.ForceSyncRunner.ApplyForced` | apps/plugin/src/sync/engine.ts:214-235 | a deletion marks the entry, any other operation with a path and a hash leaves the file's entry with them, and nothing else changes |
| `ForceRunner.AppliedSays` | apps/plugin/src/sync/engine.ts:214-235 | looked up by id afterwards: a deleted file's entry is the old one marked, another operation's is what the operation says at its new or else its old path, all other entries are unchanged, and without path or hash nothing changes |
| `ForceRunner.PushedVaultMirrorsLocal` | apps/plugin/src/sync/force-runner.ts:67-120 | under the conditions of a force push, when every send is answered, the runner's outcome is complete, and the live vault equals the local one |
| `ForceRunner.AdoptionSurvives` | apps/plugin/src/sync/force-runner.ts:81-97 | for every local and remote listing with distinct paths and ids: each local file at the path of a remote file with another id is adopted by the plan, and after the adoption loop the index leads from that remote id to the path if and only if no adopted local file further on had that id before |
| `ForceRunner.AdoptionReachesTheEnd` | apps/plugin/src/sync/force-runner.ts:81-115 | after any number of the plan's operations, in particular at the end of the push, the index leads from an adopted id to its path if and only if no adopted local file further on had that id before, or one of the operations targeted it; the plan targets it exactly if the contents differ |
| `ForceRunner.SwappedIdsLoseAPath` | apps/plugin/src/sync/force-runner.ts:81-97 | two files that swapped paths: the plan sends nothing and the second adoption removes the index entry the first one made, so the first path is lost from the index |
| `ForceRunner.LocalIndexStore.UpsertFile` | apps/plugin/src/localindex/index.ts:140-145 | the first entry of the same id is replaced in place, otherwise the entry is added at the end |
| `OutboxProtocol.NeverSeqGap` | apps/plugin/src/sync/outbox.ts:37-128 | in every run of one device's outbox against the server, with requests lost, repeated and reordered, replies lost, restarts, local changes at any time and other devices at work, in which no forced operation is sent behind pending ones and each refused one still holds the highest number when its refusal is read, no copy the client ever sent is answered with SEQ_GAP, whenever it is delivered |
| `OutboxProtocol.StreamStaysConsecutive` | apps/plugin/src/sync/outbox.ts:37-128 | in every such run the queued and in-flight entries hold consecutive device sequence numbers, one each, ending at nextDeviceSeq - 1, the lowest is at most one above the last the server accepted, and no entry reaches nextDeviceSeq, so reloading keeps it |
| `OutboxProtocol.DroppedWasAccepted` | apps/plugin/src/sync/engine.ts:360-371 | an operation that reading an acknowledgement takes out of the pending ones is in the server's log, recorded exactly as the client held it, with that acknowledgement as its result |
| `OutboxFate.NoEditIsLost` | apps/plugin/src/sync/engine.ts:360-394 | in every such run an enqueued operation is at every later moment still pending with its content unchanged, or recorded by the server with that content, unless meanwhile it was thrown away while queued or a rejection of it was read whose code is none of SEQ_GAP, STALE and FILE_ACTIVE |
| `OutboxFate.ReplyDecides` | apps/plugin/src/sync/engine.ts:360-394 | reading one reply touches no entry but the one it names: SEQ_GAP, STALE and FILE_ACTIVE queue it again, any other code takes exactly it out and closes the gap in the numbers so that the next one is not blocked, an acknowledgement takes it out or keeps it as conflicted, a refused forced operation is rolled back or marked |
| `OutboxFate.DiscardDecides` | apps/plugin/src/sync/outbox.ts:111-124 | discarding takes out exactly the queued entries and frees their numbers, and may be done exactly if nothing is in flight and nothing settled lies above them |
| `OutboxFate.ForceDecides` | apps/plugin/src/sync/engine.ts:176-197 | a forced send draws the next number, is in flight and on the wire at once, and changes nothing else |
| `OutboxProtocol.OneNumberPerOperation` | packages/server/src/engine/op-processor.ts:7-27 | in every run whatsoever, any two acknowledgements of one operation id, however far apart, are the same, and their number is the operation's place in the log |
| `OutboxProtocol.ForcedRejectInStep` | apps/plugin/src/sync/engine.ts:176-208 | when a forced operation is refused, the stream stays in step with the server if and only if the operation still holds the highest number, the guard of the rollback, or the server has accepted it meanwhile |
| `OutboxProtocol.EnqueueBehindForcedLeavesGap` | apps/plugin/src/sync/engine.ts:176-208 | the case that fails: a forced deletion of an unknown file is refused while another operation is queued behind it, rolling back is impossible, and the other operation is answered with SEQ_GAP |
| `OutboxProtocol.ForcedAheadOfServer` | apps/plugin/src/sync/engine.ts:176-197 | the number a forced operation gets is ahead of what the server waits for if and only if some pending operation has not been accepted yet, so never when none is pending |
| `OutboxProtocol.ForceBehindPendingLeavesGap` | apps/plugin/src/sync/engine.ts:176-197 | the case that fails: an operation in flight is refused, and the forced one sent behind it is answered with SEQ_GAP |
| `OutboxProtocol.RemoveKeeps` | apps/plugin/src/sync/outbox.ts:93-103 | taking out the lowest pending entry and moving the others down keeps the stream consecutive and in step |
| `OutboxProtocol.ProcessView` | packages/server/src/engine/op-processor.ts:7-60 | processing a copy the client sent keeps the agreement between client and server: numbers only advance by one, records are only added, rejections are only given for operations not yet recorded, never as a gap |
| `Outboxes.OutboxManager.constructor` | apps/plugin/src/sync/outbox.ts:27-32 | reloading keeps the last entry of each operation id and moves the next number right above the highest entry, leaving it alone when it already is above |
| `Outboxes.OutboxManager.Enqueue` | apps/plugin/src/sync/outbox.ts:37-49 | the operation gets the device's next number and waits |
| `Outboxes.OutboxManager.RollbackLast` | apps/plugin/src/sync/outbox.ts:85-91 | succeeds exactly for the entry holding the highest number, which is freed |
| `Outboxes.OutboxManager.RemoveAndReindex` | apps/plugin/src/sync/outbox.ts:93-103 | the loop moves exactly the entries above the removed one down by one, and the next number with them |
| `Outboxes.OutboxManager.DiscardUnsent` | apps/plugin/src/sync/outbox.ts:111-124 | drops all queued entries and rewinds to the lowest of them, or changes nothing and reports blocked when something is in flight or an entry above is not queued |
| `Outboxes.OutboxManager.First` | apps/plugin/src/sync/outbox.ts:126-128 | the entry of a status with the smallest number, if there is one |
| `Engine.SyncEngine.FlushOutbox` | apps/plugin/src/sync/engine.ts:396-409 | sends the operation in flight again or else marks and sends the lowest queued one, exactly when connected, not paused and past the handshake |
| `Engine.FlushSendsLowest` | apps/plugin/src/sync/engine.ts:396-409 | a flush that may send and finds something waiting puts exactly one message on the wire, the operation in flight or else the queued one with the lowest number, which is then in flight; otherwise it does nothing |
| `Engine.SyncEngine.HandleAck` | apps/plugin/src/sync/engine.ts:360-371 | settles or conflicts the entry, advances appliedSeq to the maximum, wakes the forced send waiting for the id, then flushes |
| `Engine.SyncEngine.HandleReject` | apps/plugin/src/sync/engine.ts:373-394 | a forced send takes its operation back and nothing else happens; otherwise SEQ_GAP, STALE and FILE_ACTIVE queue the entry again, the first two asking for the missing operations, the third to join the file's room unless content is encrypted, and every other code removes and renumbers |
| `Engine.SyncEngine.PushForced` | apps/plugin/src/sync/engine.ts:176-197 | with a connection the operation is enqueued, in flight, on the wire and waited for; without one the outbox is as before |
| `Engine.HandlersFollowProtocol` | apps/plugin/src/sync/engine.ts:360-409 | what the two reply handlers do to outbox and wire is the protocol's reading of the first reply followed by at most one flush |
| `Engine.SyncEngine.HandleWelcome` | apps/plugin/src/sync/engine.ts:314-321 | nothing is sent from the outbox before the client has caught up |
| `Engine.SyncEngine.ApplyOps` | apps/plugin/src/sync/engine.ts:411-424 | the loop over the sorted batch does what the replica's specification says and asks for the rest exactly when it meets a hole |
| `Replica.BatchesApplyTheLog` | apps/plugin/src/sync/engine.ts:411-424 | any sequence of batches drawn from one gap-free log, with repeats, reorderings and holes, leaves exactly the log's entries from the first unapplied number to appliedSeq applied, once each and in order |
| `Replica.BatchReachesFirstHole` | apps/plugin/src/sync/engine.ts:411-424 | one batch takes the replica to the last number before its first hole, and is reported complete exactly when nothing in it lies beyond |
| `Replica.CatchUpReachesTheEnd` | packages/server/src/engine/store.ts:167-169 | paging through listOps with any positive limit turns any applied prefix into the whole log |
| `Replica.ReplicaFollowsServer` | packages/server/src/engine/store.ts:166-169 | what a server in any reachable state serves is such a log, so a client that started empty holds a prefix of it |
| `LogShape.ReachableLogShape` | packages/server/src/engine/store.ts:152-170 | in every reachable state the log is numbered 1..n, no operation id occurs twice, and each device's own entries carry 1, 2, ... up to its lastDeviceSeq in vault order |
| `LogShape.ResubmissionIsIdempotent` | packages/server/src/engine/op-processor.ts:9-10 | once accepted, an operation id sent again, after any run and with anything else in the message, gives the recorded result and changes nothing |
| `LogShape.RefusalChangesOnlyContent` | packages/server/src/engine/op-processor.ts:29-58 | an operation that is not acknowledged changes nothing but the content table, and there it only adds a text under its own hash |
| `VaultStore.InMemoryDataStore.AppendOp` | packages/server/src/engine/store.ts:157-165 | both indexes point at the new entry and the vault's list stays sorted by sequence number |
| `VaultStore.OpProcessor.Process` | packages/server/src/engine/op-processor.ts:7-60 | processing an operation step by step on the store's maps does exactly what the server's state machine says, result included |
| `Senders.SenderDecides` | packages/server/src/engine/op-processor.ts:9-27 | a new operation outside a room is answered UNAUTHENTICATED, DEVICE_REVOKED or FORBIDDEN, in that order and without any effect, unless it comes from a registered, unrevoked device of a member that may write; then the recorded result, STALE or SEQ_GAP unless it is the device's next one; only what passes all this can be acknowledged |
| `Senders.LogComesFromWriters` | packages/server/src/engine/op-processor.ts:12-27 | in every run each log entry is an operation submitted in it, unless by a room by a device that was registered and not revoked at that moment, for a member that might write |
| `Senders.RevokedStaysOut` | packages/server/src/engine/op-processor.ts:12-20 | once a device is revoked, in every continuation none of its own operations enters the log and each new one is refused with DEVICE_REVOKED |
| `Acceptance.ChecksDecide` | packages/server/src/engine/op-processor.ts:29-81 | for an admitted operation: which malformed identifiers, paths, hashes, texts and blobs are refused with which code, then FILE_ACTIVE, CONFLICT_PENDING and NOT_FOUND, and only then the operation of its kind is applied; a refusal changes the content table at most |
| `Acceptance.AcceptedIsNumbered` | packages/server/src/engine/op-processor.ts:43-54 | an accepted operation gets the next number, its acknowledgement and its outbox entry carry the clocks of the file as it is then stored, its device's stream advances, and no other file changes |
| `Acceptance.CreateLeaves` | packages/server/src/engine/op-processor.ts:83-90 | a create of a file that is not live writes exactly what the operation says at the allocated path, with a new clock and epoch 0 |
| `Acceptance.UpdateLeaves` | packages/server/src/engine/op-processor.ts:92-106 | a version that covers the stored one replaces the content and moves the blob reference, a concurrent one marks a conflict and nothing else, any other is STALE |
| `Acceptance.ConflictSays` | packages/server/src/engine/op-processor.ts:97-101 | the record of a new conflict holds both hashes, both versions and the kind, is open and unclaimed, and both blobs are referenced by its sides |
| `Acceptance.RenameLeaves` | packages/server/src/engine/op-processor.ts:108-113 | a rename without a valid clock is refused, one whose clock does not win changes nothing, one that wins moves path and clock and nothing else |
| `Acceptance.DeleteLeaves` | packages/server/src/engine/op-processor.ts:115-118 | a delete marks the file and keeps everything else of it, with the operation's version, else its base, else the stored version as the version of the deletion |
| `Acceptance.RestoreLeaves` | packages/server/src/engine/op-processor.ts:120-126 | a restore is live, unfrozen, one epoch on, at the allocated path, with the content the operation names or else the old one, under the least version above the deletion and the operation's |
| `VaultStore.OpProcessor.ValidatePayload` | packages/server/src/engine/op-processor.ts:63-81 | the checks in order decide what the specification decides, and inline text is stored exactly when its own hash was confirmed |
| `VaultStore.OpProcessor.UniquePathFor` | packages/server/src/engine/op-processor.ts:128-136 | the candidate loop finds the first free candidate of the specification, or none after 9998 |
| `VaultStore.OpProcessor.ApplyUpdate` | packages/server/src/engine/op-processor.ts:92-106 | a dominating version overwrites, a concurrent one records a conflict with both blob sides referenced, any other is stale |
| `VaultStore.OpProcessor.ApplyRestore` | packages/server/src/engine/op-processor.ts:120-126 | a restore writes the file and references the specification says |
| `ContentTable.AcceptedTextStaysReadable` | packages/server/src/engine/op-processor.ts:63-81 | the text of an accepted content operation becomes the file's content unless it collided, and can be read back under its hash after any further run |
| `ContentTable.ReachableAddressed` | packages/server/src/engine/store.ts:207-208 | in every reachable state each stored text is the one its hash stands for |
| `TrashRoundTrip.RestoreUndoesDelete` | packages/server/src/engine/op-processor.ts:115-126 | deleting a live file and restoring it gives back the same path, content, type and references, live and unfrozen, one epoch on, under a version that dominates both the one before and the deletion's, and changes no other file |
| `ConflictFreeze.FrozenExactlyWhilePending` | packages/server/src/engine/conflict.ts:42-93 | in every reachable state a file carries conflict id c exactly when c is an unresolved conflict on it, which is then the only one, and c's oursVV is the file's contentVV |
| `ConflictFreeze.ConflictKeepsBothSides` | packages/server/src/engine/op-processor.ts:92-101 | an accepted operation that collides leaves the file's content and version alone and opens a new record holding both hashes and both concurrent versions |
| `ConflictFreeze.ResolutionDominatesBothSides` | packages/server/src/engine/conflict.ts:77-91 | a resolution that takes effect clears the file's mark and gives it the chosen hash under a version strictly above both sides and above the stored one |
| `ConflictFreeze.ResolutionIsFinal` | packages/server/src/engine/conflict.ts:7-47 | after a resolution, in every continuation, resolving again answers with the record and changes nothing, and claiming or releasing fails |
| `VaultStore.ConflictService.Claim` | packages/server/src/engine/conflict.ts:7-24 | claiming with compare-and-set does exactly what the state machine says |
| `VaultStore.ConflictService.Release` | packages/server/src/engine/conflict.ts:26-40 | releasing with compare-and-set does exactly what the state machine says |
| `VaultStore.ConflictService.Resolve` | packages/server/src/engine/conflict.ts:42-93 | resolving, in the order of the source's reads and writes, does exactly what the state machine says |
| `Resolutions.ClaimIsExclusive` | packages/server/src/engine/conflict.ts:7-46 | from a claim on, in every run in which the device neither releases nor resolves, the conflict stays claimed by it, and claims, releases and resolutions of every other device fail with FORBIDDEN, CONFLICT_NOT_CLAIMED and CONFLICT_NOT_CLAIMED |
| `Resolutions.ResolutionDecides` | packages/server/src/engine/conflict.ts:42-73 | when a resolution is refused and with which code: without write role, unclaimed, with both, neither or a malformed choice, with content the vault does not know, or with content that cannot be read |
| `Resolutions.ResolutionLeaves` | packages/server/src/engine/conflict.ts:56-91 | after an effective resolution the file carries the chosen hash; a chosen verified blob is its blobRef, with its size and a live reference; otherwise the text is in the content table; the old blob and both sides are released and nothing else changes |
| `Resolutions.ResolvedVersion` | packages/server/src/engine/conflict.ts:82-90 | the resolved version counts for every device the highest of the two sides and the input, and one more for the resolving device |
| `Resolutions.ResolvedContentStaysReadable` | packages/server/src/engine/conflict.ts:56-91 | the chosen text can be read in every continuation, the chosen blob is referenced and verified in every continuation in which the file keeps it |
| `VaultStore.InMemoryDataStore.CompareAndSetConflict` | packages/server/src/engine/store.ts:186-193 | the record is replaced exactly when its status and claim are the expected ones |
| `VaultStore.InMemoryDataStore.AddConflict` | packages/server/src/engine/store.ts:176-183 | the first equal unresolved record is reused, otherwise one is added under the drawn id |
| `Acceptance.EqualConflictIsReused` | packages/server/src/engine/store.ts:176-183 | an unresolved record of the same file, kind and hashes is used again, otherwise exactly one record is added under the drawn id |
| `BlobSafety.BlobsInUseSurvive` | packages/server/src/blob/store.ts:72-87 | in every run of uploads, operations, resolutions and collections whose content operations name a content hash beside any blob, every blob of a file or of an unresolved conflict's incoming side is referenced and verified, and a further collection leaves it alone |
| `BlobSafety.BlobsStayVerified` | packages/server/src/engine/op-processor.ts:69-81 | every blob in use is referenced and verified at every moment of a run if and only if each accepted content operation that names a blob finds it verified |
| `BlobReferences.CommitVerified` | packages/server/src/engine/op-processor.ts:156-164 | after an accepted operation every reference is verified exactly when the blob the operation names, if any, is |
| `BlobSafety.UnhashedBlobIsNotSafe` | packages/server/src/engine/op-processor.ts:69-80 | the condition is needed: a create that names a blob and no content hash skips the blob check and leaves a live file whose blob was never uploaded |
| `VaultStore.BlobStore.InitUpload` | packages/server/src/blob/store.ts:21-30 | the record becomes pending unless it is verified, the size differs or the request is malformed |
| `VaultStore.BlobStore.CompleteUpload` | packages/server/src/blob/store.ts:32-44 | the record becomes verified exactly when the stored object has the recorded size and the hash |
| `VaultStore.BlobStore.GcUnreferenced` | packages/server/src/blob/store.ts:72-87 | the loop marks unreferenced blobs, removes those marked long enough ago, touches no referenced one, and returns exactly the removed |
| `BlobLifecycle.VerifiedWasChecked` | packages/server/src/blob/store.ts:32-44 | in every run a blob that is trusted was uploaded with stored bytes of its recorded size that hash to its name |
| `BlobLifecycle.RemovedOnlyAfterGrace` | packages/server/src/blob/store.ts:72-87 | in every run a request that removes a blob is a collection that finds it unreferenced, at least the minimum age after an earlier collection that found it unreferenced too |
| `BlobLifecycle.UploadDecides` | packages/server/src/blob/store.ts:21-44 | what starting and completing an upload do to the record, for every state, size and stored object |
| `PathAllocation.UniquePathAllocates` | packages/server/src/engine/op-processor.ts:128-136 | the allocated path is the first candidate no other live file occupies, and allocation fails exactly when all 9998 are occupied, which takes at least 9998 other live files |
| `PathAllocation.AllocatedPathIs` | packages/server/src/engine/op-processor.ts:128-136 | the path asked for if nobody else has it, otherwise the one with the smallest free number from 2 to 9998 behind its stem; none exactly if all of them are occupied |
| `PathAllocation.ProcessKeepsDistinct` | packages/server/src/engine/op-processor.ts:83-126 | create, rename, restore, delete and updates of live files keep live folded paths pairwise distinct; an update that revives a deleted file does so exactly when no live file has taken its path |
| `PathAllocation.ResolveKeepsDistinct` | packages/server/src/engine/conflict.ts:90-90 | a resolution keeps live paths distinct exactly when its file was live or nobody has taken its path |
| `PathAllocation.StepKeepsDistinct` | packages/server/src/engine/op-processor.ts:83-136 | one request keeps live folded paths distinct if and only if, in case it brings a deleted file back in place, by an accepted update or a resolution, no live file sits at its path |
| `PathAllocation.RunKeepsDistinct` | packages/server/src/engine/op-processor.ts:83-136 | live folded paths are pairwise distinct at every moment of a run if and only if every revival in place finds its path free; refused requests and other requests need nothing |
| `PathCollisions.UpdateAfterReuseCollides` | packages/server/src/engine/op-processor.ts:92-106 | the case that fails: f is created at a path and deleted, g is created there, f is updated, and two live files share the path |
| `PathCollisions.ResolutionAfterReuseCollides` | packages/server/src/engine/conflict.ts:90-90 | the same with a conflict on f that is resolved after g took the path |
| `Paths.SuffixInjective` | packages/shared/src/path/normalize.ts:96-125 | suffixes of one path differ from each other and from the path, even ignoring case |
| `Paths.NormalizeIdempotent` | packages/shared/src/path/normalize.ts:46-63 | a normalised path normalises to itself |
| `PathRules.NormalizeDecides` | packages/shared/src/path/normalize.ts:46-75 | a path is accepted if and only if it holds a name, each name between slashes of either kind can be stored on every platform, and the whole has at most 1024 bytes; its canonical form is the names joined by slashes |
| `PathRules.SuffixGoesBeforeExtension` | packages/shared/src/path/normalize.ts:96-125 | the number goes in brackets between the stem of the last name and its extension, if it has one, under the same directory |
| `PathRules.FoldIgnoresCase` | packages/shared/src/path/normalize.ts:91-93 | two paths have the same key if and only if they differ in the case of ASCII letters only |
| `Paths.Normalize` | packages/shared/src/path/normalize.ts:46-76 | the steps and the loop over segments accept exactly the paths the specification accepts, with the same result |
| `CausalOverwrite.VersionsOnlyGrow` | packages/server/src/engine/op-processor.ts:92-106 | from any reachable state on, as long as no restore of the file and no create over it while deleted is accepted, each later contentVV dominates it |
| `CausalOverwrite.AcceptedUpdateHasSeenOthers` | packages/server/src/engine/op-processor.ts:92-106 | an update accepted without conflict that device d built by bumping a base had seen every version the file held during the run: no other device's counter is above the base |
| `VersionVectors.JoinIsLeastUpperBound` | packages/shared/src/clock/version-vector.ts:24-35 | the join dominates both sides, and everything that dominates both dominates it |
| `VersionVectors.BumpedJoinStrictlyDominates` | packages/shared/src/clock/version-vector.ts:14-52 | a bumped join is strictly above both sides |
| `VersionVectors.CompareClassifies` | packages/shared/src/clock/version-vector.ts:45-73 | the four relations are exactly equality, strict domination either way, and a counter ahead on each side |
| `VersionVectors.JoinLoop` | packages/shared/src/clock/version-vector.ts:24-35 | the loop over the second record computes the pointwise maximum without adding zero counters |
| `VersionVectors.DominatesLoop` | packages/shared/src/clock/version-vector.ts:37-43 | the loop with its early return decides domination |
| `RenameConvergence.RenamesConverge` | packages/server/src/engine/op-processor.ts:108-113 | two orders of the same renames of one file, with pairwise distinct clocks, end with the same path clock, and with the same path when the wanted paths are free |
| `RenameConvergence.RunSettles` | packages/shared/src/clock/lamport.ts:28-37 | after any run of renames of a file its clock is beaten by none of theirs nor by the first one, and with free paths its path is the one that clock came with |
| `PathClocks.WinsIsStrictTotalOrder` | packages/shared/src/clock/lamport.ts:28-37 | winning is a strict total order on path clocks |
| `PathClocks.HigherClockWins` | packages/shared/src/clock/lamport.ts:28-37 | a clock wins exactly with the higher counter or, on equal counters, the greater device id |
| `Lcs.PairsAreOptimal` | apps/plugin/src/sync/yjs-session.ts:382-402 | the pairs match equal lines, increase strictly in both coordinates, and no common subsequence of the two texts is longer |
| `EarliestPairs.PairsComeEarliest` | apps/plugin/src/sync/yjs-session.ts:382-402 | of all longest pairings of equal lines the walk takes the one whose every pair sits earliest in the second text |
| `Lcs.LcsPairs` | apps/plugin/src/sync/yjs-session.ts:382-402 | filling the table and walking it greedily returns such pairs |
| `Lcs.FillTable` | apps/plugin/src/sync/yjs-session.ts:385-392 | every cell of the table holds the length of the longest common subsequence of the two remainders |
| `Diff3.MergeLosesNothing` | apps/plugin/src/sync/yjs-session.ts:413-450 | the anchors cut the three texts into slices that join back to each of them, every slice a side changed appears contiguously in the merged lines, and the conflict flag is set exactly when some chunk has three pairwise different slices |
| `ConflictMarkers.ConflictBlocks` | apps/plugin/src/sync/yjs-session.ts:430-447 | for each chunk with three pairwise different slices the merged text holds, in consecutive lines, the local marker, our lines, the separator, their lines and the server marker |
| `ConflictMarkers.EitherSideCanBeRead` | apps/plugin/src/sync/yjs-session.ts:430-447 | unless a text has a line like a marker, reading the first half of every block of the merged text gives the merge with all conflicts settled for us, the second half the one settled for them |
| `ConflictMarkers.CutAtSharedLines` | apps/plugin/src/sync/yjs-session.ts:413-428 | the texts are cut at exactly those base lines that are paired with a line of ours and a line of theirs |
| `Diff3.MergeIsSymmetric` | apps/plugin/src/sync/yjs-session.ts:407-451 | swapping the sides keeps the conflict flag and, when it is not set, the text |
| `Diff3.MergeWithUnchangedTheirs` | apps/plugin/src/sync/yjs-session.ts:407-451 | for all texts, merging with an unchanged remote side gives the local text without conflict |
| `Diff3.MergeWithUnchangedOurs` | apps/plugin/src/sync/yjs-session.ts:407-451 | for all texts, merging with an unchanged local side gives the remote text without conflict |
| `Diff3.MergeOfEqualSides` | apps/plugin/src/sync/yjs-session.ts:407-451 | for all texts, merging two equal sides gives that text without conflict |
| `Diff3.ThreeWayMerge` | apps/plugin/src/sync/yjs-session.ts:407-451 | the imperative merge computes the specified text and flag |
| `Diff3.JoinSplit` | apps/plugin/src/sync/yjs-session.ts:372-374 | joining the lines of a text gives the text back |
| `Diff3.SliceEqual` | apps/plugin/src/sync/yjs-session.ts:376-380 | the loop decides equality of two slices |
| `Diff3.ApplyMinimalTextDiff` | apps/plugin/src/sync/yjs-session.ts:356-370 | editing in place by the parts of a diff turns the old text into the new one |
| `RoomDurability.ReloadGivesTheDocument` | packages/server/src/engine/room-manager.ts:363-376 | in every run of joins, edits, compactions through numbers already handed out, restores, demotions, deletions, reloads and Layer 1 requests, reading the room back from its store gives the record and the document held in memory |
| `RoomDurability.NumberedUpdatesAreKept` | packages/server/src/engine/room-manager.ts:273-298 | in every such run no update that was given a number is ever missing from the document if and only if, whenever a new epoch starts, every update stored in the epoch before beyond what the snapshot covers is within the snapshot |
| `RoomDurability.OnlyDeletionsFallBehind` | packages/server/src/engine/room-manager.ts:337-346 | a new epoch never starts behind stored updates unless a room was closed for a deletion with such updates, the only way of closing that takes no snapshot |
| `RoomDurability.CoveredMeansWhole` | packages/server/src/engine/room-manager.ts:363-376 | the stored snapshot alone is the document read back if and only if every update stored behind it is within it |
| `RoomRuns.NumbersAreConsecutive` | packages/server/src/engine/room-manager.ts:98-123 | in every run whatsoever the numbers handed out within an epoch are 1, 2, 3, ..., and epochs only grow |
| `RoomDurability.CompactionLimit` | packages/server/src/engine/room-manager.ts:205-214 | after a compaction through t, the next update survives a reload if and only if t was already handed out, a snapshot is due with the update, or the update brings nothing new |
| `RoomLosses.CompactionLosesAnUpdate` | packages/server/src/engine/room-manager.ts:205-214 | the case that fails: a compaction through 5 in a fresh room hides update 1 from the reload |
| `RoomDurability.ReopenedAfterDeletion` | packages/server/src/engine/room-manager.ts:337-346 | a room closed because its file was deleted and opened again has its whole document if and only if every update stored behind the last snapshot was within it |
| `RoomLosses.DeletionLosesAnUpdate` | packages/server/src/engine/room-manager.ts:337-346 | the case that fails: a file is deleted while update 1 of its room has no snapshot, restored and joined again, and update 1 is missing |
| `RoomDurability.RoomStepKeeps` | packages/server/src/engine/room-manager.ts:78-391 | every operation of a room but a compaction beyond the numbers keeps stored record, stored updates and the document in memory in agreement; the document and the numbered updates carry over, starting a new epoch doing so exactly when the stored snapshot is the whole document; only closing for a deletion can leave a closed room behind its snapshot |
| `LaneExclusion.VersionStaysWhileActive` | packages/server/src/engine/room-manager.ts:273-298 | in every run with no conflict pending at activation, no old version restored meanwhile and no device content operation accepted after the lease has lapsed, the file's contentVV is the activation base for as long as the room is active, no conflict is pending on it and its lease is the room's; refused requests need nothing |
| `LaneExclusion.DemoteFlushLands` | packages/server/src/engine/room-manager.ts:300-335 | in every such run the flush of a demotion is acknowledged without conflict, and Layer 1 then holds the hash of the room's text under a version that dominates the base |
| `LaneExclusion.Layer1Keeps` | packages/server/src/engine/op-processor.ts:29-34 | no request of a device or of another room changes the version, the conflict mark or the lease of a file whose room is active |
| `RoomManagers.RoomManager.PromoteRoom` | packages/server/src/engine/room-manager.ts:78-96 | joining, with activation when the room is not active, does what the state machine of rooms says |
| `RoomContent.FirstRoomHoldsTheText` | packages/server/src/engine/room-manager.ts:273-298 | opening a room: without a stored snapshot the document is the seed of the file's text, or empty if there is none to read; with one it is the snapshot |
| `RoomContent.AcceptedTextOpensTheRoom` | packages/server/src/engine/room-manager.ts:273-298 | the text of an accepted operation is what the file's first room opens with after any further run that leaves the file's hash |
| `RoomContent.UneditedRoomKeepsTheText` | packages/server/src/engine/room-manager.ts:78-391 | when a document seeded with a text has that text, in every run in which the room is joined, left, demoted, swept, compacted while it has a snapshot, closed and reloaded, but nobody edits, the file's hash stays that of the text and an open room holds the seed |
| `DormantEdits.JoinAndDemote` | packages/server/src/engine/room-manager.ts:273-335 | in every run, joining a resting room and demoting it leaves in Layer 1 the hash of the text of the document the join was answered with, without conflict, under a version above the old one |
| `DormantEdits.ReopeningKeepsTheFile` | packages/server/src/engine/room-manager.ts:273-281 | joining and demoting without an edit keeps the file's content if and only if the last snapshot or, without one, the seed has that text |
| `DormantEdits.DormantEditIsOverwritten` | packages/server/src/engine/room-manager.ts:276 | the case that fails: an edit accepted by Layer 1 while the room was at rest is overwritten by the text of the old snapshot, without a conflict, when the room is joined and demoted |
| `DormantEdits.CompactedBeforeOpening` | packages/server/src/engine/room-manager.ts:205-214 | the case that fails: compacting a room that was never opened stores an empty snapshot, and the first join gets the empty document whatever text the file has |
| `RoomAnswers.JoinDecides` | packages/server/src/engine/room-manager.ts:78-96 | joining is refused without write role, live file or plain content; a running room is entered with its document as it is, another one opens in the next epoch on the file's version; the participant and the lease are recorded, on the file too |
| `RoomAnswers.OnlyWritersChangeTheDocument` | packages/server/src/engine/room-manager.ts:78-391 | in memory or read back, a room's document only changes by an update of an editing participant of the running epoch with the write role, which is merged into it, by a restore with the write role, or by a new epoch |
| `RoomManagers.RoomManager.ReceiveUpdate` | packages/server/src/engine/room-manager.ts:98-123 | an update is refused as stale, foreign, read-only or over the limit, or else stored, merged, numbered, now and then snapshotted, saved and acknowledged, as the state machine of rooms says |
| `RoomAnswers.EditDecides` | packages/server/src/engine/room-manager.ts:98-123 | an update is refused as unauthorised, stale, foreign, read-only or over the limit in that order, without effect on document and record; an accepted one is merged, stored and acknowledged under the next number, counted and, when due, covered by a snapshot |
| `RoomManagers.RoomManager.DemoteRunning` | packages/server/src/engine/room-manager.ts:300-335 | the flush operation is built from the text and the joined versions of all participants; only when it is acknowledged is the room snapshotted and closed |
| `RoomContent.FlushSays` | packages/server/src/engine/room-manager.ts:300-322 | the flush is an update in the name of the room's own device with the document's text and hash, on the epoch's base, under a version strictly above that base and above what every participant joined with |
| `RoomAnswers.DemoteDecides` | packages/server/src/engine/room-manager.ts:300-346 | demoting is refused for another epoch and does nothing to a resting room; a refused flush leaves the room running, an accepted one closes it behind a snapshot of everything and takes the lease off the file |
| `RoomAnswers.IdleDecides` | packages/server/src/engine/room-manager.ts:199-203 | the timer and the sweep demote exactly the active rooms without participants, the sweep only those whose lease has lapsed |
| `RoomManagers.RoomManager.CompactRoom` | packages/server/src/engine/room-manager.ts:205-214 | compaction snapshots through the number and drops the updates it covers |
| `RoomAnswers.CompactDecides` | packages/server/src/engine/room-manager.ts:205-214 | compacting replaces exactly the stored updates up to the number, by default the last one handed out, by a snapshot of the document |
| `RoomManagers.RoomManager.Materialize` | packages/server/src/engine/room-manager.ts:363-376 | replaying the updates behind the snapshot reads the document the specification reads |
| `RoomManagers.RoomManager.RestoreHistoryVersion` | packages/server/src/engine/room-manager.ts:230-257 | restoring writes the old text to Layer 1 and then into the room as one more numbered, snapshotted update |
| `RoomContent.RestoreDecides` | packages/server/src/engine/room-manager.ts:230-257 | restoring is refused without write role, live file or such a version; otherwise the text of exactly that version becomes the file's content in Layer 1, and the update that turns the document into it is merged and stored under the next number and covered by a snapshot |
| `RoomManagers.InMemoryYjsRoomStore.Append` | packages/server/src/engine/yjs.ts:84-90 | the epoch's list keeps its order by number |
| `RoomManagers.InMemoryYjsRoomStore.SaveSnapshotOf` | packages/server/src/engine/yjs.ts:99-121 | a snapshot of the room's current epoch also goes into the room's record, any snapshot into the history |
| `RateLimiter.AllowedInAnyInterval` | packages/server/src/ws/rate-limit.ts:32-40 | with a clock that never goes back, at most 2·max - 1 calls of a key are let through in any half-open interval as long as the window, which is one less than twice the limit |
| `RateLimiter.BoundIsReached` | packages/server/src/ws/rate-limit.ts:32-40 | for every limit and every window of two milliseconds or more some run reaches that bound |
| `RateLimiter.FixedWindowRateLimiter.Consume` | packages/server/src/ws/rate-limit.ts:32-40 | counts the call in its window, opening a new one when the old is over, and reports limit, rest and waiting time |
| `HistoryRetention.SelectYjsHistoryRetention` | packages/server/src/engine/yjs-gc.ts:16-37 | grouping, sorting and looking through each file's versions keeps exactly the current ones and those with fewer than N newer others ahead, and prunes exactly the rest |
| `HistoryRetention.KeepsTheNewest` | packages/server/src/engine/yjs-gc.ts:16-37 | besides the current ones each file keeps min(N, rest) versions, every one newer than every pruned one |
| `HistoryRetention.KeepAndDropSplit` | packages/server/src/engine/yjs-gc.ts:16-37 | every version is either kept or pruned, never both |
| `HistoryRetention.SelectingAgainDropsNothing` | packages/server/src/engine/yjs-gc.ts:16-37 | selecting again among kept versions prunes nothing |
| `Reconciliation.PlanIsExact` | apps/plugin/src/watcher/reconciliation.ts:23-56 | for path-distinct inputs, renaming, creating, updating and deleting as planned turns the index's paths and hashes into exactly the disk's |
| `Reconciliation.EveryEntryUsedOnce` | apps/plugin/src/watcher/reconciliation.ts:23-56 | every indexed entry stays, is renamed once or is deleted, every disk entry is indexed, is a rename's target once or is created, and the updates are exactly the differing pairs |
| `Reconciliation.RenamesAreMaximal` | apps/plugin/src/watcher/reconciliation.ts:31-47 | for every non-empty hash there are min(missing, appearing) renames, and none without a hash |
| `RenameOrder.FirstComeFirstServed` | apps/plugin/src/watcher/reconciliation.ts:31-47 | every rename pairs a missing entry with an appearing file of the same content; per hash the missing entries are used up in the order of the index and the files are served in the order of the disk |
| `Reconciliation.PlanReconciliation` | apps/plugin/src/watcher/reconciliation.ts:23-56 | the loops with their buckets and consumed sets compute the plan, the first unused missing entry of a hash going to each appearing one |

## Left out

- Transport, HTTP, PostgreSQL, S3, Obsidian, CodeMirror, tokens, schemas and logging; the in-memory stores are the semantics.
- Encryption of content, awareness messages, ignore patterns and configuration categories.
- Yjs and the diff library, beyond the assumptions above; merging is modelled as union of updates, not as their internals.
- Record fields that nothing here reads: creation and update times, error texts, object keys, `deleteClock`, `published`, an entry's `lastError`.
- The order of the outbox map, which only decides between entries of equal number; the sort before retrying is a search for the smallest number.
- What applying an operation does to the client's files and index (`applyOp`), beyond which operations are applied and in what order.
- Client states `connecting` and `closed` of the transport; a handler runs to its end before the next message, and the end of a refused forced send directly follows the refusal.
- Losing the writes of a crash in the middle of a server or room operation, and of an outbox save that did not complete.
- Failure branches behind a compare-and-set that no other request can come between.
- Liveness of an outbox after STALE, since operations are never rebased, and after a late copy of a removed operation was accepted.
- `appliedSeq` as an applied prefix once acknowledgements of own operations move it.
- Manifest paging, trash listing, history paging and listing; a manifest is a list of the live files.
- Rooms of several files at once: rooms share Layer 1 only, and the requests of the others are among the Layer 1 requests of a run.
- Byte limits and decoding of room messages, closing sinks and broadcasts; a number handed out stands for its acknowledgement and relay.
- The store's table of latest snapshots per epoch, which the in-memory store writes and never reads.
- Pruning of the snapshot history while a room runs; a version is named by its place in the history.
- The login limiter, and `reset`, which forgets the window of a key.
- JSON forms of version vectors and Lamport helpers other than the comparison.
- Paths.Normalize: takes strings to be in Unicode normal form C and lower-cases ASCII letters only, because Unicode tables are outside Dafny's strings.
- ForceRunner.ForceSyncRunner.ForcePush: takes the fetched manifest as a parameter, and a forced send that timed out has arrived by then or never does, because later arrivals are the subject of OutboxProtocol.
- ForcePush.ForcePushMirrorsLocal: assumes that no other writer works during the push, that local paths are canonical and distinct ignoring case, and that drawn ids are new, as the source does.
- LaneExclusion.VersionStaysWhileActive: says nothing about an epoch in which an old version was restored, because that restore is itself a Layer 1 update of the file.
- RenameConvergence.RenamesConverge: speaks about renames that are accepted when processed; a rename refused for lack of a free path moves neither path nor clock.
