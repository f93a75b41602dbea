# Verified model of the store's durable bookkeeping

This Dafny project models how the store keeps track of which bytes are where:
the location index and its change log, everything that writes the index, the
client that follows the log, the device mirror, the replica executor, object
moves, directory renames, the trash with its retained bytes, and the resumable
upload. The claims are about whole runs, with crashes, stale work and other
writers in between.

Run `dafny verify dfyconfig.toml` to check everything.

## How it is organised

| files | subject |
|---|---|
| `ChangeLog`, `LocationTables`, `IndexTransactions`, `LocationIndex`, `Listing` | the two index tables, the coalescing log, transactions, the feed, trimming, listing by key |
| `IndexWriters` | keyed writes and transfers, the watcher with held unlinks, the scan |
| `Follower` | the hub client that tails the feed |
| `MirrorModel`, `MirrorSafety`, `MirrorRuns`, `MirrorConvergence`, `MirrorOutcomes`, `MirrorEffects`, `MirrorEngine` | the three-way device mirror |
| `ReplicaModel`, `ReplicaLedger`, `ReplicaDrain`, `ReplicaApply`, `ReplicaDelivery`, `ReplicaPhases`, `ReplicaMachine`, `ReplicaRows`, `ReplicaOrder`, `ReplicaRuns`, `ReplicaHistory`, `ReplicaExecutor` | the journaled replica executor |
| `Moves` | moving one object, now or when a remote write has landed |
| `DirectoryRename`, `DirectoryReceipts` | one filesystem rename, then an atomic re-key, under a durable receipt |
| `Trash`, `BackendTrashStore` | trash items and the reference-counted pool of retained bytes |
| `Upload` | the chunked upload of a stream of unknown length |

State that the program updates in place is a class here (`Index`, `Catalog`,
`CanvasClient`, `HubServer`, `Mirror`, `Ledger`, `Executor`, `Mover`,
`BackendTrash`, `UploadSession`). Its methods are proved equal to functions on
values, and the theorems are about those functions. Where outside writers act
between two steps, a run is a sequence of states and the outside is one of the
possible steps.

## Where the code and its promises part

Each of these is a lemma or method contract with a concrete input, an exact
condition, or both.

- A rename followed by a delete of its target in one transaction leaves a log
  that keeps the source alive for a replaying reader (`RenameThenDeleteForgets`).
  `CoalescingExact` says exactly when an append is faithful; the repository's own
  transactions meet that condition (`TransferExact`, `RekeyIsSafe`, `LonePutIsSafe`).
- A keyed `put` does not displace an earlier owner of its key (`PutCanStealAKey`);
  `PutInverseExact` and `TransferExact` give the exact condition.
- An entry handed to the listener can still carry the `from` of a rename that a
  later entry of the same transaction replaced (`ListenerSeesExactly`).
- A held unlink is carried out after its window even if the file came back
  (`RecreatedKeyExpires`).
- A listing by key prefix never shows a key whose next code point is U+FFFF or above, an
  emoji for instance (`WalkIsComplete`, `EmojiIsNotListed`); a directory rename therefore leaves such
  keys behind (`RenameDelivers`).
- A response overtaken by a poll can leave a stale row (`LateResponseGoesStale`,
  `ResponseExact`), and a late rename answer can drop one (`LateRenameDropsRow`, `RenameAnswerExact`);
  a listing read while the hub changes can start off wrong (`ListingCanStartOff`, `ListingExact`).
- `src/sync/Mirror.js` lines 68-69 promise that a `push` mirror never applies hub
  edits locally. It can, because the re-decision after a failed precondition does
  not look at the direction: a refused push does it (`PushOnlyCanApplyHubBytes`), and so does the
  refused delete of a file the user removed (`PushOnlyDeleteCanApplyHubBytes`). `PushOnlyAppliesExactly` and
  `PushOnlyJobExact` say exactly when, `PushOnlyLeavesFolderAlone` what holds otherwise.
- A hub delete of a file whose content is already in the local trash under that
  key is undone by the next pass (`TrashedBeforeComesBack`, `TrashRemovesExactly`).
- A replica plan that releases a place it also delivers to loses that copy
  (`SelfReleaseLoses`), unless another owner or another unfinished operation
  claims the place: `DeliversExactly` gives the condition on the plan,
  `ReleaseKeepsExactly` that of a single release.
- A submission made inside an outer transaction that rolls back leaves the
  `latest` lookup wrong exactly when it was warm (`SubmitInsideAborted`).
- An operation whose cleanup fails right after completion is saved as pending or
  blocked again, possibly with neither pin nor source left. Its retry then halts
  although everything is in place (`ReopenedHasNeitherPinNorSource`); `RetryExactly` and
  `ReopenedExactly` say exactly when a retry finishes. And one superseded between its claim and its start
  is applied and loses its cancellation (`SupersededIsAppliedAnyway`). `TerminalEndsExactly`: there is no third way.
- A directory rename onto keys that are still indexed leaves them on two lists
  (`OccupiedDestinationClashes`, `VacancyExact`).
- A trash item read as pending and finished late comes back after its discard
  (`LateFinishShowsAGhost`, `ComesBackExactly`).
- A delete whose file vanished before it could be retained takes whatever has
  appeared there since (`UnguardedDeleteLosesAFile`, `TakeKeepsExactly`).

## Model

| member | source | states |
|---|---|---|
| ChangeLog.ReplayAt | src/index/index.js:210-235 | What replay leaves at a place is decided by the last entry that mentions it, as key or as rename source |
| ChangeLog.CoalescingExact | src/index/index.js:214-226 | Replacing an earlier entry of the same key in place is invisible to a replaying reader if and only if the side condition holds |
| ChangeLog.SafeAllExplains | src/index/index.js:214-235 | A transaction whose appends were all safe is explained by its coalesced entries, numbered without gaps |
| ChangeLog.RenameThenDeleteForgets | src/index/index.js:217-226 | Rename then delete of the target in one transaction: the index is empty, a reader still has the source |
| ChangeLog.ListenerSeesExactly | src/index/index.js:214-227 | What the listener is handed for a key is what was logged, except that an entry ending as no rename keeps a `from` if and only if the key was renamed onto earlier in the transaction |
| LocationTables.PutNeverDangles | src/index/index.js:110-140 | Any put, exclusive or not, leaves every path entry pointing at a live id that lists the place |
| LocationTables.PutRecords | src/index/index.js:110-140 | After a put the id lists exactly its new places and each points to it; places it gave up point nowhere; no other id or place changes |
| LocationTables.DeleteForgets | src/index/index.js:156-173 | After a delete the id is gone and exactly its places point nowhere |
| LocationTables.DeleteNeverDangles | src/index/index.js:156-173 | Any delete too, even when another id had taken over one of the places |
| LocationTables.PutInverseExact | src/index/index.js:110-140 | A put keeps the two tables exact inverses if and only if it claims no place of another id |
| LocationTables.DeleteKeepsInverse | src/index/index.js:156-173 | A delete keeps the tables inverse |
| LocationTables.DiffExplainsExact | src/index/index.js:179-208 | The entries of one put, rename pairing included, turn the old path table into the new one exactly when no kept place had been taken over |
| LocationTables.DiffDistinct | src/index/index.js:179-208 | The places one put logs are pairwise distinct |
| IndexTransactions.NestingIsTransparent | src/index/index.js:73-74 | A nested transaction joins the outer one: its boundaries cannot be observed |
| IndexTransactions.CaughtFailureKeepsItsPrefix | src/index/index.js:73-98 | A body that catches the failure of an inner transaction keeps what the inner one did before it threw: only the outermost rolls back |
| IndexTransactions.RunStaysExplained | src/index/index.js:73-98 | Whatever a safe transaction does, nested or not, its entries replay to the new path table and the tables stay inverse |
| IndexTransactions.LonePutIsSafe | src/index/index.js:110-140 | A put alone in its transaction is always safe, paired rename or not |
| IndexTransactions.PutAfterDeletesIsSafe | src/index/index.js:210-226 | A put after deletes only is safe although it coalesces |
| LocationIndex.Index.AppendEntry | src/index/index.js:214-235 | The persisted entries, the head and the pending list move together, and equal the coalescing function |
| LocationIndex.Index.LogLocationDiff | src/index/index.js:179-208 | The loops over removed and added keys append exactly the entries of the diff |
| LocationIndex.Index.PutBody | src/index/index.js:110-140 | Both tables and the pending entries become those of the put |
| LocationIndex.Index.DeleteBody | src/index/index.js:156-173 | Both tables and the pending entries become those of the delete; false when there is no entry |
| LocationIndex.Index.Transaction | src/index/index.js:73-98 | Commits the body's tables and entries as one extension of history, or restores every table, the head and the listener's view; an inner call joins |
| LocationIndex.Index.Put | src/index/index.js:110-140 | A put of its own keeps "the log replays to the path table" when it claims no place of another id |
| LocationIndex.Index.Remove | src/index/index.js:156-173 | A delete of its own keeps it always |
| LocationIndex.Index.Changes | src/index/index.js:246-272 | A reader is told too old exactly when it missed a trimmed entry; otherwise the page is every matching entry up to the cursor, which is the head or the last entry of a full page |
| LocationIndex.MatchingExact | src/index/index.js:246-272 | A page's filter keeps exactly the entries of the backend, or all of them |
| LocationIndex.Index.TrimChanges | src/index/index.js:274-295 | Drops exactly the longest run of oldest entries that are expired; at most `keep` remain, contiguous, unchanged |
| LocationIndex.CommitExplains | src/index/index.js:73-98 | Committing a safe transaction keeps the whole log replaying, from nothing, to the path table |
| Listing.EligibleExact | src/index/index.js:316-329 | A listing shows, in order, exactly the reachable keys under the prefix after the cursor |
| Listing.KeysUnique | src/index/index.js:320-322 | A backend's keys have one table order, so the listing is determined by the path table |
| Listing.FollowListsAll | src/index/index.js:311-343 | Following the cursor lists every reachable key exactly once, in order, whatever the page size |
| Listing.PageExact | src/index/index.js:316-343 | A page is the first eligible keys, as many as fit; exactly a full one carries a cursor, its last key |
| Listing.WalkIsComplete | src/index/index.js:316-329 | A complete walk shows a key exactly when the code point after the prefix is below U+FFFF |
| Listing.EmojiIsNotListed | src/index/index.js:320-329 | A key that starts with an emoji is never listed |
| Listing.LocationsByBackend | src/index/index.js:316-343 | The range scan returns the first `limit` eligible keys and a cursor when the page is full |
| IndexWriters.TransferExact | src/index.js:1937-1976 | Displace-then-record in one transaction updates the place map as claimed; the tables stay inverse if and only if no added place is left to another owner, and then the log explains them; no entry is left without a place |
| IndexWriters.TransferAt | src/index.js:1937-1976 | Place by place: added places hold the id, overwritten ones of others are empty, the place moved from is given up if it was the id's, all others are as before |
| IndexWriters.PlacesKeepOrder | src/index.js:1937-1976 | An entry's places keep their order, new ones follow, and none is listed twice |
| IndexWriters.DisplaceKeeps | src/index.js:1937-1965 | Displacement frees the overwritten places, touches nothing of the new content, and logs deletes only |
| IndexWriters.PathDecidesTables | src/index/index.js:110-173 | Inverse tables without empty entries that agree on the path table hold the same ids at the same places |
| IndexWriters.LoneMoveIsOneRename | src/index.js:1863-1869 | A move of one place on one backend is one `rename` entry and nothing else |
| IndexWriters.RepeatIsSilent | src/index.js:1409-1413 | Recording what is already recorded logs nothing |
| IndexWriters.EditIsRecorded | src/index.js:2531-2566 | An observed edit leaves the new content at its place and touches no hold |
| IndexWriters.AddIsRecorded | src/index.js:2468-2529 | An observed add leaves its content at its place; it ends the hold of its inode, and takes the held place away, exactly when it pairs with it |
| IndexWriters.UnlinkIsRecorded | src/index.js:2568-2582 | An observed unlink drops the place at once without an inode, and otherwise holds it and drops the file held under that inode before |
| IndexWriters.PutCanStealAKey | src/index.js:356-365 | Concrete: after a keyed put over another owner both list the key, and deleting the first unlists the second |
| IndexWriters.RenameKeepsIdentity | src/index.js:2491-2527 | Unlink and later add of one inode, with unrelated events between: the content is never absent and ends at the new place only |
| IndexWriters.ExpiryDeletes | src/index.js:2571-2576 | Without the second half of the rename the window ends and the place is gone |
| IndexWriters.RecreatedKeyExpires | src/index.js:2571-2576 | A key re-created during its hold survives the window exactly when the same content came back with the same inode |
| IndexWriters.CompleteScanExact | src/index.js:1361-1473 | After any walk that removes, streamed rows and unreadable folders included: a key is indexed exactly when it was hashed or indexed before, and the snapshot spells it up to NFC or its folder could not be read |
| IndexWriters.ScanRecords | src/index.js:1379-1425 | After any walk the first row of a key decides: its content is at the key if it could be hashed, the old entry if not, as long as a walk that removes still spells the key |
| IndexWriters.ScanSpares | src/index.js:2390-2411 | A partial, failed or offline walk removes nothing, no walk removes what lies under a folder it could not read, and other backends never notice a scan |
| IndexWriters.Catalog.Place | src/index.js:1178-1186 | The transfer transaction: exact place map, exact log, sound if and only if nothing added is left to another owner |
| IndexWriters.Catalog.Succeed | src/index.js:2539-2563 | New bytes at a place displace the old owner in one transaction; the same bytes log nothing |
| IndexWriters.Catalog.ProcessUnlink | src/index.js:2604-2622 | Drops one place from its owner, and the entry with its last place; everything stays inverse and explained |
| IndexWriters.Catalog.HandleAdd | src/index.js:2468-2529 | The place holds the content; without a matching hold nothing else changes; a paired rename is one log entry |
| IndexWriters.Catalog.HandleChange | src/index.js:2531-2566 | The place holds the new content, every other place and every hold is as before, and the index stays sound |
| IndexWriters.Catalog.HandleUnlink | src/index.js:2568-2582 | Holds the unlink when the inode is known, after processing an earlier hold of that inode |
| IndexWriters.Catalog.HandleExpiry | src/index.js:2571-2576 | Processes a held unlink once |
| IndexWriters.Catalog.FinishMove | src/index.js:1856-1870 | The target holds the content, the source no longer does, other places are unchanged; a source taken over by another id is left alone |
| IndexWriters.Catalog.IngestRow | src/index.js:1383-1425 | A hashed row becomes the owner of its key, an unhashed row changes nothing, a warm row logs nothing |
| IndexWriters.Catalog.Ingest | src/index.js:1379-1425 | The first row of each key wins; a scan that finds nothing new leaves the log as it was |
| IndexWriters.Catalog.RemoveMissing | src/index.js:2390-2411 | Removes exactly the backend's places that no row spells up to NFC and that lie under no unreadable folder |
| IndexWriters.Catalog.Scan | src/index.js:1361-1473 | What the scan leaves at every place, and that the index stays sound |
| Follower.PageKeepsTrack | src/backends/canvas/index.js:606-671 | Applying a page read at any earlier moment keeps "every row not mentioned after the cursor is what the hub holds" |
| Follower.GrowthKeepsTrack | src/index/index.js:246-272 | New hub entries never break that invariant |
| Follower.ResponseExact | src/backends/canvas/index.js:337-348 | A recorded response is harmless if and only if its key is out of scope, mentioned again later, or still what the hub holds |
| Follower.LateResponseGoesStale | src/backends/canvas/index.js:455-503 | A response overtaken by a poll leaves a stale row |
| Follower.RenameAnswerExact | src/backends/canvas/index.js:540-567 | The answer to the client's own rename is harmless if and only if both its ends are out of scope, mentioned again, or really as it leaves them |
| Follower.LateRenameDropsRow | src/backends/canvas/index.js:546-566 | Concrete: a late rename answer drops the row of a file re-created at the source |
| Follower.ListingExact | src/backends/canvas/index.js:405-438 | Taking the largest page head as cursor is right if and only if no listed key changed before it without being mentioned after it |
| Follower.ListingCanStartOff | src/backends/canvas/index.js:405-438 | Concrete: a key changes between the page that listed it and the last page; the old content stays |
| Follower.QuietListing | src/backends/canvas/index.js:405-438 | A listing of a hub at rest is a sound start |
| Follower.StepExact | src/backends/canvas/index.js:337-348 | One step of a session, answers and listings in flight included, keeps the rows in step if and only if it is current when recorded |
| Follower.FollowerCorrect | src/backends/canvas/index.js:606-671 | In every session whose answers and listings were current when recorded, however long in flight, whenever the cursor is at the head the rows are the hub's map in scope |
| Follower.TimelyFollowerCorrect | src/backends/canvas/index.js:606-671 | The same from conditions the client can see: answers no older than its cursor, renames whose entry is still ahead, listings during which nothing of the backend was logged before the cursor taken |
| Follower.FollowingVisitsOnce | src/index/index.js:246-272 | Following `cursor` over a growing log visits each matching entry exactly once, in order |
| Follower.CanvasClient.ApplyChange | src/backends/canvas/index.js:640-671 | Equals the row function for put, delete and rename, in scope or out |
| Follower.CanvasClient.PollOnce | src/backends/canvas/index.js:606-638 | A poll either reports too old, exactly when entries were trimmed, or reaches the head with rows equal to the hub's path table in scope |
| MirrorSafety.JobHarmless | src/sync/Mirror.js:631-940 | Any job, at any time, whatever others do on the hub around it: nothing local is lost, bases stay past hub contents, no unagreed hub version is replaced |
| MirrorSafety.PushHarmless | src/sync/Mirror.js:665-702 | The same for a push, including a 412 and a crash after the upload |
| MirrorSafety.ConflictHarmless | src/sync/Mirror.js:855-911 | The same for conflict resolution, crashing after any of its durable effects |
| MirrorSafety.RenameRemoteHarmless | src/sync/Mirror.js:798-830 | The same for a rename at the hub |
| MirrorSafety.RevertHarmless | src/sync/Mirror.js:916-944 | The same for a revert |
| MirrorRuns.RunConserves | src/sync/Mirror.js:460-560 | Over every run every content the user stored is local, archived or in hub history, unless the user threw away its last local copy and has not stored it again; every base is a past hub content; no update is lost |
| MirrorRuns.PullOnlyLeavesHubAlone | src/sync/Mirror.js:503-520 | In direction `pull`, from an empty queue, the hub is only what others made of it |
| MirrorRuns.PushOnlyAppliesExactly | src/sync/Mirror.js:704-720 | After a refused push or delete, a push-only mirror queues a job that applies the hub's side exactly when the local side is the base, or differs from a hub file that is there |
| MirrorRuns.PushOnlyCanApplyHubBytes | src/sync/Mirror.js:704-720 | Concrete: hub bytes land on a push-only device |
| MirrorRuns.PushOnlyDeleteCanApplyHubBytes | src/sync/Mirror.js:755-775 | Concrete: the same through a refused delete of a file the user removed |
| MirrorRuns.PushOnlyJobExact | src/sync/Mirror.js:665-720 | A job of a push-only queue never writes the folder, and leaves the queue free of jobs that would if and only if it meets no changed hub whose side it takes |
| MirrorRuns.PushOnlyLeavesFolderAlone | src/sync/Mirror.js:503-520 | In direction `push`, from an empty queue, as long as no job meets such a hub, the folder is what the user alone made of it |
| MirrorOutcomes.OnlyOneWins | src/sync/Mirror.js:683-700 | Of two writers that agreed on the same version of a key only the first gets through |
| MirrorOutcomes.ReconcileOutcome | src/sync/Mirror.js:460-500 | Reconciling touches nothing but its key; jobs of other keys stay pending, its own older ones are replaced; where local and hub agree the ledger says so |
| MirrorOutcomes.SupersedesExactly | src/sync/Mirror.js:522-528 | A newer decision replaces exactly the key's other pending jobs that are no renames; an agreement or a reported skip ends all of them |
| MirrorOutcomes.JobKeepsSides | src/sync/Mirror.js:631-940 | In direction `pull` a job leaves the hub to others, in direction `push` it leaves the folder alone |
| MirrorOutcomes.JobTends | src/sync/Mirror.js:665-944 | No job that runs to its end leaves its key without a next step: agreed, pending, skipped, to be looked at again or gone; a failed transfer leaves the job to be done |
| MirrorOutcomes.ReconcileTends | src/sync/Mirror.js:460-500 | A reconcile leaves no tracked key without a next step either |
| MirrorOutcomes.RenameLocalOutcome | src/sync/Mirror.js:832-853 | A rename made on the hub moves the whole file here, bytes and ledger entry, exactly when it is clean, its new name free and the move works; the hub is left alone |
| MirrorOutcomes.RenameRemoteOutcome | src/sync/Mirror.js:798-830 | A rename made here moves exactly the agreed version on the hub, to a free name; otherwise nothing is written there and the new name is looked at again or the rename retried |
| MirrorEffects.HubChangeArrives | src/sync/Mirror.js:25-42 | Quiet, every direction: a key changed on the hub alone ends with the hub's content here, a deleted one in the trash; a `push` mirror ignores it |
| MirrorEffects.LocalChangeArrives | src/sync/Mirror.js:503-525 | Quiet, every direction: a key changed here alone ends with that content on the hub, deletes as configured; a `pull` mirror puts the edit aside and the hub's content back |
| MirrorEffects.EditBeatsDelete | src/sync/Mirror.js:25-42 | Quiet, every direction: the same change is agreed on, and an edit on either side beats a delete on the other as far as the direction allows |
| MirrorEffects.ConflictResolves | src/sync/Mirror.js:855-911 | Quiet, every direction: of two different edits the hub's keeps the name, the other is put aside first and, in `bi`, offered to the hub; `push` leaves both |
| MirrorEffects.HubRenameArrives | src/sync/Mirror.js:547-560 | Seen, queued and run: a hub rename of a clean file arrives in folder and ledger |
| MirrorEffects.LocalRenameArrives | src/sync/Mirror.js:532-545 | Seen, queued and run: a rename here of a synchronized file arrives on the hub, and nothing else there changes |
| MirrorConvergence.TickEffect | src/sync/Mirror.js:460-500 | One reconcile-and-run of an unsettled key lowers its cost and touches only it, or resolves a conflict and adds one copy |
| MirrorConvergence.Converges | src/sync/Mirror.js:25-42 | In a quiet environment there are at most as many ticks as the measure, and at zero local, base and hub agree on every tracked key |
| MirrorConvergence.TrashRemovesExactly | src/sync/Mirror.js:777-796 | A quiet move to trash removes the local file exactly when the trash does not have that content at that key yet |
| MirrorConvergence.TrashedBeforeComesBack | src/sync/Mirror.js:777-796 | Concrete: a hub delete is undone by the next pass |
| MirrorEngine.Mirror.ReconcileKey | src/sync/Mirror.js:460-500 | Touches nothing but its key, records agreement in the ledger, supersedes the key's older jobs, and is harmless |
| MirrorEngine.Mirror.SeeLocalRename | src/sync/Mirror.js:532-545 | Carries one ledger entry to the new key and queues the rename, or leaves ledger and queue alone and has both ends re-examined; harmless |
| MirrorEngine.Mirror.SeeHubRename | src/sync/Mirror.js:547-560 | Queues a local rename only of a clean file onto a free key, otherwise has both ends re-examined; harmless |
| MirrorEngine.Mirror.DoPush | src/sync/Mirror.js:665-702 | Leaves the folder alone, and the hub to others except that it may replace exactly the agreed version with the local content |
| MirrorEngine.Mirror.DoPull | src/sync/Mirror.js:722-753 | Writes nothing to the hub; changes at most its key, over nothing or the agreed version, to what the device sees there: an edited file is never overwritten |
| MirrorEngine.Mirror.DoDeleteRemote | src/sync/Mirror.js:755-775 | Leaves the folder alone; removes exactly the agreed version of a key that is gone locally, or nothing |
| MirrorEngine.Mirror.DoConflict | src/sync/Mirror.js:855-911 | Changes only its key, only after the local content went to the conflicts folder and was offered to the hub; overwrites nothing on the hub |
| MirrorEngine.Mirror.DoTrashLocal | src/sync/Mirror.js:777-796 | Empties at most its key, of a clean file the hub does not list, into the trash |
| MirrorEngine.Mirror.DoRenameRemote | src/sync/Mirror.js:798-830 | Leaves the folder alone; moves exactly the agreed version on the hub to a free name, or keeps the rename to be done |
| MirrorEngine.Mirror.DoRenameLocal | src/sync/Mirror.js:832-853 | Leaves the hub alone; moves a clean file to a free name, whole, or has both ends looked at again |
| MirrorEngine.Mirror.DoRevert | src/sync/Mirror.js:916-944 | Writes nothing to the hub; changes only its key, after its content went to the conflicts folder |
| MirrorEngine.Mirror.Execute | src/sync/Mirror.js:631-644 | Any job does what its kind promises, is harmless in a sound world, and in a one-way direction leaves the other side alone |
| MirrorEngine.HubServer.PutIf | src/sync/Mirror.js:683-700 | If-Match and If-None-Match as in sections 13.1.1 and 13.1.2 of RFC 9110: succeeds exactly when the current version is the agreed one, changes the key only then, and never makes a lost update |
| ReplicaLedger.LatestUnique | src/sync/ReplicaService.js:65-76 | Any two exact `latest` lookups agree |
| ReplicaLedger.SubmitIsLatest | src/sync/ReplicaService.js:179-214 | A submission is its owner's newest operation |
| ReplicaLedger.Ledger.Latest | src/sync/ReplicaService.js:65-76 | The cached answer is that of a full scan |
| ReplicaLedger.Ledger.OwnersAt | src/sync/ReplicaService.js:52-64 | The cached answer is that of a full scan |
| ReplicaLedger.Ledger.Submit | src/sync/ReplicaService.js:179-214 | Same id and plan: the receipt; same id, other plan: a conflict; otherwise accepted or rolled back, lookups exact either way, even when warmed inside |
| ReplicaLedger.Ledger.SubmitInsideAborted | src/index.js:358-371 | A submission inside an outer transaction that rolls back keeps the lookup exact if and only if it was cold |
| ReplicaLedger.Ledger.Supersede | src/sync/ReplicaService.js:273-299 | Cancels an unfinished operation in favour of a fresh one that is its owner's newest; all or nothing |
| ReplicaLedger.Ledger.RetireOwner | src/sync/ReplicaService.js:82-92 | Only an owner without unfinished operations is retired; all or nothing |
| ReplicaLedger.Ledger.WriteOwners | src/sync/ReplicaService.js:300-342 | Adoption and relocation keep both lookups exact, rolled back or not |
| ReplicaLedger.Ledger.CompleteOp | src/sync/ReplicaService.js:611-619 | Completion writes journal and owner row together and keeps both lookups exact |
| ReplicaDrain.VisitedMeansFirst | src/sync/ReplicaService.js:374-413 | Under the blocking discipline an operation about to be applied has no unfinished predecessor of its owner |
| ReplicaDrain.Start | src/sync/ReplicaService.js:401-403 | Between claim and start other calls may run, supersession included; the operation starts from the copy made at the claim, and still first of its owner |
| ReplicaDrain.Drain | src/sync/ReplicaService.js:366-413 | With failures, backoff, submissions, retries and supersession during the pass, between claim and start too, nothing is applied before an unfinished earlier operation of its owner; a quiet pass applies every ready operation |
| ReplicaDrain.Conclude | src/sync/ReplicaService.js:401-413 | Completion, a transient failure, a permanent one and a failed cleanup each leave the state, the due time and the owner row they should, and nothing else |
| ReplicaDrain.HandleCall | src/sync/ReplicaService.js:348-354 | What each call leaves in the journal while a pass is under way; those that need the storage lock do nothing while it is held |
| ReplicaApply.CrashReplays | src/sync/ReplicaService.js:513-622 | After a crash at any stage starting over ends exactly where going on would have |
| ReplicaApply.ClaimsExact | src/sync/ReplicaService.js:502-512 | A place is claimed exactly when another owner's row lists it, or another unfinished operation is to read from it or deliver to it |
| ReplicaPhases.AppliesExactly | src/sync/ReplicaService.js:513-622 | An undisturbed application without `rename` completes if and only if staging, targets, retirements and releases check out beforehand; then every place of the world, the journal and the owner row are as foretold |
| ReplicaPhases.PlacingExact | src/sync/ReplicaService.js:553-571 | Whatever others did meanwhile, a resolved destination is written exactly when it is empty and was not verified before, or holds the version seen at resolution, replaceable and needed by nobody else |
| ReplicaPhases.RenameSparesOthers | src/sync/ReplicaService.js:537-545 | Under `rename` foreign bytes at a name asked for the first time stay, and the content lands at a free name |
| ReplicaPhases.RenameFollowsItsReplica | src/sync/ReplicaService.js:524-536 | Under `rename` a later version of a mirrored replica replaces it where it landed before |
| ReplicaPhases.ManagedExactly | src/sync/ReplicaService.js:528-536 | A destination is managed exactly when it was before, nothing was there, the plan adopts it, or some owner manages a replica there |
| ReplicaApply.SubmittedPlanDelivers | src/sync/ReplicaService.js:459-622 | If nothing the plan releases is a place it can deliver to, any number of crashes, each anywhere, end in the same bytes, rows, journal and pins, or the same failure; completion means content at every destination and obsolete replicas gone or kept for a reason |
| ReplicaDelivery.DeliversExactly | src/sync/ReplicaService.js:513-622 | A completed plan without `rename` has its content at every target if and only if each target it also releases is listed by another owner, or is source or target of another unfinished operation |
| ReplicaDelivery.RetryExactly | src/sync/ReplicaService.js:459-622 | An operation run again with its effects in place finishes if and only if it needs no pin, its pin holds the content, or there is no pin and the source still holds it; otherwise it halts |
| ReplicaApply.ReleaseKeepsExactly | src/sync/ReplicaService.js:601-609 | Releasing a staging place keeps every destination if and only if the plan does not deliver there |
| ReplicaApply.SelfReleaseLoses | src/sync/ReplicaService.js:601-619 | Concrete, from submission: a copy-only plan that delivers to its own staging place loses the copy its owner row claims |
| ReplicaOrder.OrderHolds | src/sync/ReplicaService.js:374-413 | Over every run, whenever an operation is in hand every earlier one of its owner is finished, and nothing started is ever overtaken |
| ReplicaOrder.TerminalEndsExactly | src/sync/ReplicaService.js:401-417 | A finished operation is unfinished again if and only if the cleanup right after its completion fails, or it was superseded between claim and start |
| ReplicaOrder.SupersededIsAppliedAnyway | src/sync/ReplicaService.js:401-403 | Concrete: a cancellation in that window is overwritten and the operation applied, its successor waiting |
| ReplicaRows.FinalRowExact | src/sync/ReplicaService.js:611-619 | The row a completion commits lists every destination with its flags and the new content, and of the base replicas exactly the copies and kept ones neither delivered to nor let go, no longer mirrored |
| ReplicaRows.SupersededRowExact | src/sync/ReplicaService.js:284-299 | Superseding keeps the owner's row and adds exactly the destinations that really hold the operation's content |
| ReplicaRows.AdoptionExact | src/sync/ReplicaService.js:300-308 | A replica is adopted exactly when it is there as its row says, and one flag changes |
| ReplicaRows.RelocationExact | src/sync/ReplicaService.js:325-342 | Rows follow a moved file or directory, all or none, exactly when every affected owner is at rest and the bytes are at the new places |
| ReplicaRows.RetirementExact | src/sync/ReplicaService.js:82-92 | An owner is retired exactly when its operations are finished and the archive name is new; its operations keep everything but their owner |
| ReplicaRows.CleanupExact | src/sync/ReplicaService.js:419-439 | A cleanup gives up the pin, the captured upload only when nobody unfinished needs it, and marks the operation clean only with both gone |
| ReplicaRows.SupersededIsCleaned | src/sync/ReplicaService.js:427-434 | A superseded operation gives up its pin exactly once the last of its chain of successors is complete |
| ReplicaRows.StartExact | src/sync/ReplicaService.js:374-403 | An operation is started exactly when nothing is in hand and every earlier one of its owner is finished |
| ReplicaRows.AdvanceExact | src/sync/ReplicaService.js:400-413 | A step goes on, puts the operation down blocked with its bytes as they are, or commits it and begins its cleanup |
| ReplicaRows.ReopenExact | src/sync/ReplicaService.js:401-413 | A cleanup that fails saves the operation as pending or blocked, with everything else as committed |
| ReplicaRows.CrashExact | src/sync/ReplicaService.js:125-127 | A crash makes the running operation pending and changes nothing else |
| ReplicaRuns.SharedReplicaSurvives | src/sync/ReplicaService.js:502-512 | While an owner's row lists a place, no operation of another owner changes what is there, with adoption, relocation, supersession and retirement anywhere in the run |
| ReplicaRuns.PendingOperationIsSpared | src/sync/ReplicaService.js:502-512 | Over every run: while an operation is unfinished, no other operation, of whatever owner, changes what is at its source or destinations |
| ReplicaRuns.AcceptedContentIsHeld | src/sync/ReplicaService.js:419-501 | Over every run, with failed cleanups, crashes, other operations and outsiders: the content of an unfinished operation is in what it is staged from (source, captured upload or base replica), in its pin, or at all its destinations |
| ReplicaRuns.SubmittedIsSecured | src/sync/ReplicaService.js:179-214 | A submission whose named source or captured upload holds the content starts out that way |
| ReplicaRuns.BaseSecuresExactly | src/sync/ReplicaService.js:459-501 | An operation without source or upload becomes so when it takes its owner's row as base, if and only if the first replica of that row, or a pin already there, holds the content |
| ReplicaRuns.ReopenedExactly | src/sync/ReplicaService.js:401-438 | When a cleanup fails, the retry that follows starts over and finishes if and only if what the content is staged from had not been given up; otherwise it halts, with every byte in place |
| ReplicaRuns.CompletedByRunning | src/sync/ReplicaService.js:459-622 | A plan that spares its destinations leaves, when it completes, exactly the state such a retry needs |
| ReplicaRuns.ReopenedHasNeitherPinNorSource | src/sync/ReplicaService.js:419-438 | Concrete, from submission: pending again with neither pin nor source, and its retry halts |
| ReplicaRuns.PinsOutlive | src/sync/ReplicaService.js:419-439 | Over every run a pin stays until its operation, or the last of its successors, is complete |
| ReplicaRuns.PinGivenUpWhenDelivered | src/sync/ReplicaService.js:419-439 | Over every run a pin that is gone was given up by a cleanup: at the end of its own application, with every destination holding the content, or later with the operation over and nothing in hand |
| ReplicaHistory.OverwriteWasSeen | src/sync/ReplicaService.js:521-577 | Over every run: an overwrite replaces exactly the version an earlier step of the same operation saw and recorded, its owner's own replica or under `overwrite`, claimed by nobody else |
| ReplicaHistory.RetiredWasOwned | src/sync/ReplicaService.js:579-596 | Over every run: a retirement removes an unchanged managed mirror replica the owner's row held when the operation started, claimed by nobody else |
| ReplicaHistory.ReleaseAfterVerification | src/sync/ReplicaService.js:597-610 | Over every run: before a staging place goes, the same application found every destination holding the content |
| ReplicaExecutor.Executor.StageContent | src/sync/ReplicaService.js:459-501 | Staging equals its steps |
| ReplicaExecutor.Executor.PlaceTarget | src/sync/ReplicaService.js:521-577 | Resolving, writing and verifying one destination equals its steps, failures included |
| ReplicaExecutor.Executor.RetireReplica | src/sync/ReplicaService.js:579-596 | Retiring one replica equals its steps |
| ReplicaExecutor.Executor.Apply | src/sync/ReplicaService.js:513-622 | The whole application equals running the steps from the start, and so completes exactly when it may and leaves every place as foretold |
| Moves.ContentSurvives | src/index.js:1222-1311 | At every point of every run, crashes included, source or target holds the content |
| Moves.AlwaysRecoverable | src/index.js:1845-1854 | Even with the target rewritten after its check the content is at one end or retained, unless a delete that found nothing to retain takes the last copy |
| Moves.WrongBytesMoveNothing | src/index.js:1222-1275 | A source that does not stream the indexed content moves nothing, and a target not found holding it leaves the source alone |
| Moves.StaleIndexMovesNothing | src/index.js:910-917 | An index that no longer shows the content at the source stops the take, and one that has forgotten it gains no entry at the target |
| Moves.TakeKeepsExactly | src/index.js:920-937 | Taking the source away loses what is there exactly when nothing was retained before and no other copy exists |
| Moves.RaceIsUndone | src/index.js:920-937 | A writer that wins the race against the take has its file back where it was, and the move has given up |
| Moves.TakenFileStaysInTrash | src/index.js:920-937 | If the place was written again meanwhile both files stay: one there, one in the trash |
| Moves.UnguardedDeleteLosesAFile | src/index.js:920-937 | Concrete: the source vanishes before retention, another file appears there, and the delete loses it |
| Moves.SourceGoesAfterBothChecks | src/index.js:1837-1854 | Bytes leave the source only after the same call found the content at the target and then at the source |
| Moves.PendingUntilComplete | src/index.js:1895-1925 | A pending record goes only after the same call verified the target, saw or made the source empty, and then wrote an index with the content at the target and not at the source |
| Moves.ResumeCompletes | src/index.js:1895-1925 | A pending move resumed after any number of crashes, between the index write and the removal of the record too, ends exactly as one undisturbed call |
| Moves.LocalMoveCompletes | src/index.js:1275-1307 | A quiet local move, start to finish: content at the target only, in bytes and index, a copy retained, all else as before |
| Moves.RemoteMoveCompletes | src/index.js:1275-1303 | A remote move waits with the source intact until the upload landed; resumed, crashes and all, it ends the same way |
| DirectoryRename.EveryKeyMoves | src/index.js:1066-1081 | Every recorded key still indexed is found at its destination under its own id, none remains, nothing else changes |
| DirectoryRename.NameIsKept | src/index.js:1066-1081 | A key below the source goes to the same name below the target |
| DirectoryRename.RekeyIsSafe | src/index.js:1066-1084 | With free destinations the re-key transaction keeps the tables inverse and its entries explain them |
| DirectoryRename.VacancyExact | src/index.js:1067-1077 | The tables stay inverse and the lists free of repeats if and only if no indexed key had an indexed destination |
| DirectoryReceipts.MovedAtMostOnce | src/index.js:1025-1064 | Over any retries and crashes an inode nobody brings back is moved at most once |
| DirectoryReceipts.OnlyTheRecordedMoves | src/index.js:1035-1057 | If the source is left alone between look and rename, nothing but the recorded directory is ever moved |
| DirectoryReceipts.RenameMovesExactly | src/index.js:1025-1057 | Whenever anything is moved, the same attempt had found the recorded directory at the source; it is that directory that moves if and only if nobody changed the source in between |
| DirectoryReceipts.TargetWasAbsent | src/index.js:1035-1057 | Over every run: the operation changes the tree only by moving the source directory to the target, after the same attempt had found the target absent |
| DirectoryReceipts.OccupiedTargetStays | src/index.js:1035-1064 | An attempt with an occupied target moves nothing; an attempt succeeds exactly when the receipt is done, the recorded directory can be moved, or it is already at the target, and otherwise changes no tree and no index |
| DirectoryReceipts.RecreatedSourceBlocks | src/index.js:1058-1064 | A re-created source is never moved or re-keyed, for as long as it stays |
| DirectoryReceipts.CrashesAreInvisible | src/index.js:1024-1090 | Retrying after any number of crashes ends in the state of one uninterrupted attempt |
| DirectoryReceipts.RenameDelivers | src/index.js:998-1090 | End to end: directory moved once, each listed key re-keyed with its id; a key stays behind exactly when its name begins at or above U+FFFF |
| DirectoryReceipts.OccupiedDestinationClashes | src/index.js:1066-1081 | Concrete: a stale index entry at the destination ends up on two lists |
| DirectoryReceipts.Mover.Rekey | src/index.js:1065-1084 | The transaction leaves the re-keyed tables and keeps the log explaining them |
| DirectoryReceipts.Mover.RenameDirectory | src/index.js:1002-1095 | One attempt equals its four steps; it succeeds exactly when it can, never replaces an occupied target, and a refusal leaves tree and index alone |
| Trash.FinishKeepsExactly | src/trash.js:24-26 | Marking an item active keeps the pool safe exactly when it was still live, pinned, or its bytes remain |
| Trash.DecideKeeps | src/index.js:709-732 | Discarding keeps shared and versioned bytes and only starts dropping an unneeded digest |
| Trash.DecideExact | src/index.js:713-722 | With every recorded place still having its reason, bytes are freed exactly when no other item refers to them and no version was kept |
| Trash.BytesOutliveReferences | src/index.js:645-732 | Over every run without a late finish, retained bytes exist for every restorable item and recorded version, through crashes, concurrent discards and half-done drops |
| Trash.DeletePublishes | src/index.js:645-680 | A delete publishes a pending item for its place and content that can be restored, and takes nothing from any other item |
| Trash.CapturePublishes | src/index.js:548-558 | So do the capture of an overwritten version and a deletion with cached bytes of its own |
| Trash.LiveStaysRestorable | src/trash.js:139-207 | A live item stays restorable, for the same place and content, until that very item is restored or discarded |
| Trash.DeletedStaysRestorable | src/trash.js:139-207 | A file deleted at any point of a run stays restorable, for its place and content, until that very item is restored or discarded |
| Trash.OverwrittenVersionStays | src/index.js:645-676 | The version an overwrite retained outlives every delete, restore and discard of the same bytes |
| Trash.PatienceIsEnough | src/trash.js:94-109 | Waiting for outstanding finishes before discard and restore is enough for that |
| Trash.DiscardIsFinal | src/trash.js:190-207 | A discard begun with no finish outstanding is never followed by a restore |
| Trash.ComesBackExactly | src/trash.js:94-109 | The one step that revives a discarded item is an outstanding finish; it is restorable then exactly when its bytes survive |
| Trash.LateFinishShowsAGhost | src/trash.js:94-109 | Concrete: an active item whose bytes are gone |
| Trash.LiveItemsRestore | src/trash.js:139-157 | Every live item can be restored to a free place, at no other item's cost |
| Trash.RestoreExact | src/trash.js:139-157 | A restore succeeds exactly for a pending or active item with bytes to restore and a free place, and changes only the item's state |
| Trash.KeysWithoutExact | src/index.js:713-717 | A digest stays kept for a place exactly while a version or another unfinished item of that place is its reason |
| BackendTrashStore.DiscardSparesOthers | src/trash.js:190-207 | A whole discard leaves every other live item restorable |
| BackendTrashStore.WholeDiscardFreesExactly | src/index.js:709-732 | A whole discard frees every recorded copy exactly when no other item refers to the digest and no overwritten version was kept of it; otherwise no copy goes, and other bytes never do |
| BackendTrashStore.BackendTrash.ReferredTo | src/trash.js:177-184 | The scan finds exactly the other items that still refer to a digest |
| BackendTrashStore.BackendTrash.PrepareDeletion | src/index.js:645-692 | Bytes retained and an item published together: it records place and content, can be restored, and takes nothing from any other item |
| BackendTrashStore.BackendTrash.RestoreItem | src/trash.js:139-157 | Succeeds exactly when the item is live, its bytes readable and the place free |
| BackendTrashStore.BackendTrash.DiscardItem | src/trash.js:190-207 | Equals the whole discard, refuses a restored item, repeats for a discarded one |
| Upload.PartsAligned | src/backends/gdrive/index.js:46 | Offsets are contiguous, and offsets and non-final sizes are multiples of 256 KiB |
| Upload.SessionUnique | src/backends/gdrive/index.js:587-610 | A source has exactly one upload session: how the stream was split leaves no trace |
| Upload.PartBody | src/backends/gdrive/index.js:564-610 | Part `i` carries the source's bytes at its offset, and only the last the total |
| Upload.UploadSession.UploadChunks | src/backends/gdrive/index.js:587-610 | For any split of the stream: full 8 MiB parts, then one final part with the true total, empty only for an empty source |

## Left out

- Transport, hashing, mime sniffing, events, timers and liveness checks: a digest is an opaque value, a backend a map with conditional writes.
- LMDB and the blob cache: transactions are atomic, the content store is content-addressed.
- `src/sync/JobQueue.js` and the mutation queue: jobs run late and in any order; mutual exclusion is the atomicity of a step.
- Location attributes (size, mtime, inode, `synced`): whether a row is unchanged and which inode a place has are inputs. Suppressed watcher echoes and `clear()` are not modelled.
- The table order is taken to be code-point order, for the store and for the comparisons in the listing alike; UTF-16 order differs above U+FFFF.
- `backend:key` is modelled as a pair, so a backend name that is a prefix of another is not an issue here.
- Index equals disk: the watcher is only shown to keep the index consistent, since a held unlink is carried out whatever is on disk by then.
- Mirror views: the local index is taken to show the folder for the job's own key, and a job is atomic with respect to local writes of that key.
- Replica executor: the index update that follows a verified write, directories, free-name probing, owner guards, ingress records, leases and expiry are not modelled; a submission that arrives between the claim check and the write is treated as arriving after it, and the claim's copy is written back at the start rather than at the first save after it.
- Moves: a run concerns one object and one target; the source is a file backend with retention. The steps are functions on values because outside writers act between any two of them. Directory and cacache sources are not modelled.
- Directory rename: symlink containment checks and ignore rules are not modelled; an existing empty target directory counts as a target.
- Trash: directory and quarantined items have a container of their own, dropped only by their own discard, and are not modelled; neither are expiry sweeps, `forgetRetained` and the import of old records.
- Drive sibling names, mount detection, key validation and capability flags.
- Listing.FollowListsAll: is about the keys the range scan can reach; `Listing.WalkIsComplete` says which those are.
- ReplicaApply.SubmittedPlanDelivers: requires that nothing the plan releases is a place it can deliver to; `ReplicaApply.SelfReleaseLoses` shows why, and `ReplicaDelivery.DeliversExactly` is the exact condition.
- ReplicaPhases.AppliesExactly: is about plans without `rename`; one target under `rename` is `ReplicaPhases.RenameSparesOthers` and `ReplicaPhases.RenameFollowsItsReplica`, with the free name itself an input.
- MirrorOutcomes.JobTends: requires a job that runs to its end, and lists its exceptions; a move to trash of a file the trash already has is `MirrorConvergence.TrashedBeforeComesBack`.
- ReplicaRuns.AcceptedContentIsHeld: requires that outsiders neither destroy the last copy themselves nor touch verified destinations before the operation is over, and that the plan releases nothing it can deliver to given the owner row it starts from.
- LocationIndex.Index.AppendEntry: the pending entries are the persisted ones; a stale `from` that only the listener can see is `ChangeLog.ListenerSeesExactly`, and a stale `origin` is not modelled.
- Follower.FollowerCorrect: requires that answers and listings are current when recorded; `Follower.StepExact` says exactly when one is not.
- MirrorRuns.PushOnlyLeavesFolderAlone: requires that no job meets a changed hub whose side it takes; `MirrorRuns.PushOnlyCanApplyHubBytes` shows why.
- Trash.BytesOutliveReferences: requires that no item already restored or discarded is marked active late; `Trash.LateFinishShowsAGhost` shows why.
- Moves.ContentSurvives: requires that outside writers do not destroy the last copy themselves and leave a verified target alone during the call.
- DirectoryReceipts.RenameDelivers: requires free destinations in the index; `DirectoryRename.VacancyExact` gives the exact effect otherwise.
