# LoomTV: models and proofs

LoomTV is a self-hosted media library with a desktop application, a headless server and mobile clients. These
Dafny files model the parts of it where asynchronous steps interleave over durable state, and four algorithmic pieces,
and prove what those parts are for. `dafny verify dfyconfig.toml` verifies the whole project with Dafny's default
limits.

The asynchronous code is modelled as step systems. Every async function is cut at each `await`: the code between two
awaits is one step, and so is the moment at which an outstanding database, file or network request takes effect or
rejects, so any other operation may run in between. A promise-tail queue is a list of jobs of which the first unsettled
one may run; `PromiseQueue` proves that the chaining code is exactly such a queue, even where the tail is forgotten
when idle. Main results are about every run (every finite sequence of enabled events), and the code that changes
variables step by step is also written as a class. Each method of these classes performs exactly one step of its model
and keeps the invariant; the table names the methods that loop, branch, or promise their callers more than that.

| file | part of LoomTV |
|---|---|
| DownloadModel, DownloadInvariant, DownloadRuns, DownloadAttempts, DownloadOutcomes, DownloadDrops, Downloads | offline downloads on mobile: rows, files, attempt directories, clears, reconciles, restarts; when a save succeeds, and what each undisturbed operation leaves |
| OfflineCache, OfflineCacheRuns | the incremental snapshot save against a plain rewrite, and what any run of saves and clears stores |
| CacheFence | cache generations: clears against queued saves and running loads |
| Outbox | pending playback progress, compare-and-delete, replay and hydration |
| LibraryScan | the desktop scan accumulator: append, dedup, rollback, preserve, partial snapshots |
| ArtworkQueue | the coalescing artwork queue |
| MobileLibrary, Catalog | season and episode order, play targets, and the two catalog transports |
| PlaybackLease, Credentials, PromiseQueue | lease renewal, credential refresh fencing, the promise-tail queue |
| Diagnostics, HlsPacing, DetailCache, RuntimeModules | retention, encoder pacing, the bounded cache, the packaged dependency closure |

Where the code does not do what one would expect, the files keep the code as it is, give an input that shows it, and
prove the exact condition:

- A remove or clear whose row deletion fails after its file deletion leaves a row without a file
  (`FailedRemoveStrandsTheRow`). A row's file is missing exactly in that situation (`RowsAgreeWithFiles`).
- The incremental save differs from a rewrite exactly when some path does not come out plain (`IncrementalIsPlain`, for
  any rows and any diff base): for one, a path first saved outside the library and later inside it with the same text
  keeps no row (`LateLibraryPathIsLost`).
- A clear whose transaction fails leaves old rows (`FailedClearLeavesRows`). Over any run the stored rows come from the
  last snapshot exactly when no row was left behind by a failed clear and spared since (`RowsComeFromTheLastSave`,
  `SaveAfterFailedClear`).
- Metadata purged while its host was idle is not written again (`PurgedMetadataStaysAway`). Over any run it is stored
  exactly when some save found a changed identity and since then no clear completed and no other host saved more than 30
  days after this one (`MetadataIsThere`). The host's own late save is dated before it purges, so it does no harm.
- A save without a catalog revision can hide a changed one (`MixedRevisionsDrift`). Over any run the stored metadata fits
  the last save exactly when the version written last is that save's version (`MetadataIsTheLastSave`).
- An update whose write to the outbox fails is neither stored nor sent (`FailedWriteLosesTheUpdate`). The last update
  queued is safe exactly when its write succeeded (`LastQueuedIsSafeExactly`).
- A saved item of an unavailable root can lose its own id (`SharedPathLosesAnId`). The id is in the result exactly when
  the last saved item with the path has it, or some root offers it on another path (`OwnIdSurvivesExactly`).
- A recorded diagnostic that ties with an older one can be deleted by its own prune (`TiesCanLose`). It survives exactly
  when it fits after what is kept of the events listed ahead of it (`Record`, `SurvivesExactly`).
- A client that seeks back can raise the encoder's lead past any bound, from the very start
  (`SeekingBackBreaksTheBound`). The lead stays at or below 59 + k exactly when no request behind the furthest one goes
  back too far (`BoundedExactly`), and in general exceeds it by no more than the distance gone back and k for each lost
  stop signal (`LeadIsBounded`).

Inputs from code that is not modelled are parameters: clocks, server answers, file and database outcomes, URL
functions, the contents a scanner found, the order a query or a directory listing returns.

## Model

| member | source | states |
|---|---|---|
| DownloadInvariant.KeepsStep | apps/mobile/mobileDownloads.ts:113-349 | every step of every save, clear, remove, list, reconcile, cancellation, failure and restart keeps the invariant that ties rows, files, directories, tickets and the stages of all running operations |
| DownloadRuns.RunKeeps | apps/mobile/mobileDownloads.ts:113-349 | the invariant holds after every run |
| DownloadRuns.RowsAgreeWithFiles | apps/mobile/mobileDownloads.ts:113-349 | after any run rows of different keys lie in different directories, and a row's file is missing if and only if a remove or clear of its host deleted it and is still at the row or failed there |
| DownloadRuns.FailedRemoveStrandsTheRow | apps/mobile/mobileDownloads.ts:338-349 | a reachable state with nothing running in which a row has no file |
| DownloadRuns.ReconcileSparesWhatIsUsed | apps/mobile/mobileDownloads.ts:113-136 | a reconcile deletes no directory that a row lies in or that a running save writes to, and a complete one deletes every other |
| DownloadAttempts.FailedAttemptLeavesNothing | apps/mobile/mobileDownloads.ts:222-336 | from the read of the old row, through any interleaving, to the catch block: an earlier row whose file existed at the read is still there with its file, a key without one has none, a row whose file was missing already is unchanged or was dropped by a list, and the attempt's directory holds no row and is gone once its deletion succeeds; or the restoring write failed, and the row names the attempt's file, which is kept |
| DownloadAttempts.RunHolds | apps/mobile/mobileDownloads.ts:222-336 | while a save is under way its key keeps a row, and the file it may replace is deleted by no clear, remove or list of any host, in every run |
| DownloadAttempts.RunBringsNothingBack | apps/mobile/mobileDownloads.ts:113-349 | a file once missing from a published directory never comes back |
| DownloadAttempts.DirectoryIsLeft | apps/mobile/mobileDownloads.ts:324-335 | the catch block releases the attempt's directory, leaves no row in it and deletes it, unless the restoring write failed |
| DownloadAttempts.SuccessfulAttemptIsStored | apps/mobile/mobileDownloads.ts:273-323 | a save that resolves leaves the row it reports, naming its own existing file |
| DownloadOutcomes.SaveResolvesExactly | apps/mobile/mobileDownloads.ts:188-336 | in every run a save that has settled resolved if and only if nothing stopped it: no cancellation or clear of its host before its last check, no refused transfer, no rejected request, no restart before it settled |
| DownloadOutcomes.SaveFailsOnlyForAReason | apps/mobile/mobileDownloads.ts:188-336 | in every run a save that has failed, or is on its way to its catch block, was cancelled, refused, lost a request, was cut off by a restart, or its host was cleared, at some step after its call |
| DownloadOutcomes.StaleSaveStops | apps/mobile/mobileDownloads.ts:222-306 | wherever a save looks whether it is still wanted, a cancelled or outdated one stops at once: no row and no file changes, and only a row already written is restored |
| DownloadOutcomes.UndisturbedSaveIsStored | apps/mobile/mobileDownloads.ts:222-336 | from every state with all operations settled, a save of any key that no one disturbs runs to its end and resolves, moving the file when the server names it: its row has the title, that file, the size and the time, the file exists, the replaced copy is gone unless it could not be deleted, and no other row, file or active directory has changed |
| DownloadOutcomes.RunKeepsActive | apps/mobile/mobileDownloads.ts:224-335 | in every run a directory is active only while the save that made it is under way |
| DownloadDrops.UndisturbedRemove | apps/mobile/mobileDownloads.ts:338-349 | a remove that no one disturbs resolves and takes exactly its file, and its key's row if that still names the file |
| DownloadDrops.UndisturbedClear | apps/mobile/mobileDownloads.ts:207-220 | from every state with all operations settled, and for any order of the rows, a clear that no one disturbs resolves and leaves exactly the other hosts' rows and the files in their directories |
| DownloadDrops.UndisturbedList | apps/mobile/mobileDownloads.ts:138-161 | a list that no one disturbs resolves and drops exactly the profile's rows whose files are missing |
| DownloadDrops.UndisturbedReconcile | apps/mobile/mobileDownloads.ts:113-136 | a reconcile that no one disturbs resolves, changes no row, and deletes exactly the directories that are not active and hold no row, with their files |
| DownloadRuns.OneHostOneOperation | apps/mobile/mobileDownloads.ts:53-58 | an operation of a host starts only after all its earlier ones have settled |
| DownloadRuns.ClearedHostHasOnlyLaterRows | apps/mobile/mobileDownloads.ts:207-220 | after a completed clear every row of the host was written by a save called after it |
| DownloadRuns.ClearEndsEmpty | apps/mobile/mobileDownloads.ts:207-220 | at the step that completes a clear the host has no row |
| DownloadRuns.ClearBeatsRunningSaves | apps/mobile/mobileDownloads.ts:188-220 | a save of the host that has not passed its last check when a clear is called never resolves afterwards; one that was already published may still resolve |
| DownloadRuns.SomeoneCanMove | apps/mobile/mobileDownloads.ts:37-58 | the host queues and the publication queue never deadlock |
| Downloads.DownloadManager.ClearDownloads | apps/mobile/mobileDownloads.ts:207-220 | a clear bumps the generation, aborts every unsettled save of the host, and is queued |
| Downloads.DownloadManager.AbortTransfers | apps/mobile/mobileDownloads.ts:209-209 | exactly the unsettled saves of the host are aborted |
| Downloads.DownloadManager.Reject | apps/mobile/mobileDownloads.ts:324-336 | a rejected request sends a save to its catch block, remembering whether its row may be in the table, and ends any other operation and its publication |
| Downloads.DownloadManager.RestoreRow | apps/mobile/mobileDownloads.ts:294-303 | the earlier row returns, or the row goes, only while it still names this attempt's file |
| Downloads.DownloadManager.CheckDownload | apps/mobile/mobileDownloads.ts:263-273 | a stale or refused transfer fails; otherwise the file is moved, or the save joins the publications; that this save is then stored is UndisturbedSaveIsStored |
| Downloads.DownloadManager.CheckInsert | apps/mobile/mobileDownloads.ts:290-313 | a stale save restores; a current one deletes the replaced copy if it can, and is published |
| Downloads.DownloadManager.CleanUp | apps/mobile/mobileDownloads.ts:324-335 | the directory is released, and deleted unless its row may still be in the table, in which case the row's file is kept |
| Downloads.DownloadManager.FinishSaving | apps/mobile/mobileDownloads.ts:314-335 | the save resolves with a row that is in the table and names an existing file |
| Downloads.DownloadManager.DeleteFile | apps/mobile/mobileDownloads.ts:213-216 | an existing file is deleted before its row; a failed deletion ends the operation |
| Downloads.DownloadManager.WalkDirectories | apps/mobile/mobileDownloads.ts:118-134 | the walk deletes exactly the directories that are neither active nor retained, or only some of them when a deletion throws |
| Downloads.DownloadManager.VisitDirectories | apps/mobile/mobileDownloads.ts:113-136 | no row loses its directory to a reconcile, and a clear whose reconcile ends leaves its host without rows |
| PromiseQueue.ReadyMeansFirst | apps/mobile/mobileDownloads.ts:53-58 | a chained operation may start if and only if every earlier one of its key has settled, although tails are forgotten |
| PromiseQueue.NeverOverlap | apps/mobile/mobileDownloads.ts:53-58 | in every run operations of one key start in call order and never overlap |
| PromiseQueue.RememberedExactly | apps/mobile/mobileDownloads.ts:53-58 | in every run a key's tail is remembered if and only if the last operation chained for it has not been forgotten |
| PromiseQueue.SerialQueue.Serialize | apps/mobile/mobileDatabaseMutations.ts:5-9 | a new operation is chained to the remembered tail and becomes it |
| PromiseQueue.SerialQueue.Forget | apps/mobile/mobileDownloads.ts:56-56 | the tail is forgotten only when nothing was chained behind it |
| OfflineCache.ActiveProgressPaths | apps/mobile/mobileOfflineCachePolicy.ts:29-41 | the set holds exactly the non-empty paths of items and their episodes |
| OfflineCache.IncrementalIsPlain | apps/mobile/mobileOfflineCache.ts:183-246 | for any stored rows and any diff base the incremental save equals the plain rewrite if and only if every path comes out plain: dropped, written, already right, or purged either way |
| OfflineCache.CoveredIncrementalIsPlain | apps/mobile/mobileOfflineCache.ts:211-226 | with every row covered by the base that means: no unchanged entry lacks its row, unless a rewrite would purge it |
| OfflineCache.CoveredAfter | apps/mobile/mobileOfflineCache.ts:211-245 | for any rows and base, after a save all the host's rows come from the snapshot if and only if every old row is purged, dropped with the base, rewritten or already right |
| OfflineCache.SnapshotCache.SaveSnapshotNow | apps/mobile/mobileOfflineCache.ts:183-246 | a committed save changes rows, metadata, identity and diff base as specified row by row; a failed transaction changes nothing |
| OfflineCache.SnapshotCache.WriteRows | apps/mobile/mobileOfflineCache.ts:211-241 | the statements of one save, run in order, give the specified rows |
| OfflineCache.SnapshotCache.WriteProgress | apps/mobile/mobileOfflineCache.ts:211-226 | each entry is upserted exactly when the base has another text, keeping the old sighting of a path outside the library |
| OfflineCache.SnapshotCache.DropMissing | apps/mobile/mobileOfflineCache.ts:227-231 | exactly the rows of base paths missing from the snapshot go |
| OfflineCache.SnapshotCache.TouchActive | apps/mobile/mobileOfflineCache.ts:232-239 | exactly the rows of library paths are marked as seen now |
| OfflineCache.SnapshotCache.WriteMetadata | apps/mobile/mobileOfflineCache.ts:193-209 | metadata is inserted when the identity changed, else only dated, and expired metadata of every host goes |
| OfflineCache.SnapshotCache.ClearSnapshot | apps/mobile/mobileOfflineCache.ts:304-317 | identity and diff base go even when the transaction fails |
| OfflineCacheRuns.MemoryIsLastSave | apps/mobile/mobileOfflineCache.ts:244-245 | in every run the diff base and identity are those of the last committed save since the last clear |
| OfflineCacheRuns.RowIsNewOrLeft | apps/mobile/mobileOfflineCache.ts:183-246 | over any run a stored row has the last snapshot's text for its path, or it was in the table when a clear failed and every later step spared it |
| OfflineCacheRuns.RowsComeFromTheLastSave | apps/mobile/mobileOfflineCache.ts:183-246 | over any run, failed clears included, every stored row is an entry of the last committed snapshot if and only if no row was left behind by a failed clear |
| OfflineCacheRuns.CompletedClearsLeaveNothing | apps/mobile/mobileOfflineCache.ts:183-246 | over saves, rolled-back saves and completed clears the stored rows are a sub-map of the last committed snapshot |
| OfflineCacheRuns.SaveAfterFailedClear | apps/mobile/mobileOfflineCache.ts:307-315 | a save after a failed clear leaves only its own rows if and only if it names or purges the path of every row that was there |
| OfflineCacheRuns.RowsAreTheLastSave | apps/mobile/mobileOfflineCache.ts:183-246 | the rows equal the last committed progress when all its paths were in the library and no save came more than 30 days later |
| OfflineCacheRuns.MetadataIsDated | apps/mobile/mobileOfflineCache.ts:193-209 | stored metadata carries the time of the host's last committed save, in any run |
| OfflineCacheRuns.MetadataIsThere | apps/mobile/mobileOfflineCache.ts:193-240 | over any run metadata is stored if and only if some committed save found a changed identity and since then no clear of the host completed and no other host saved more than 30 days after this host's last save |
| OfflineCacheRuns.PromptMetadataIsThere | apps/mobile/mobileOfflineCache.ts:193-240 | with completed clears and no late save a host has metadata if and only if it has a committed save |
| OfflineCacheRuns.SavedMetadata | apps/mobile/mobileOfflineCache.ts:187-209 | after one save the stored metadata fits it if and only if it was written now or fitted before |
| OfflineCacheRuns.MetadataIsTheLastSave | apps/mobile/mobileOfflineCachePolicy.ts:8-20 | over any run the stored metadata is interchangeable with the last committed save's if and only if the version written last, by revision or else by library, is that save's version |
| OfflineCacheRuns.UniformMetadataIsTheLastSave | apps/mobile/mobileOfflineCachePolicy.ts:8-20 | it always is when all or none of the host's saves name a revision |
| OfflineCacheRuns.LateLibraryPathIsLost | apps/mobile/mobileOfflineCache.ts:212-241 | a path first saved outside the library and later inside it with the same text has no row, while a rewrite has one |
| OfflineCacheRuns.FailedClearLeavesRows | apps/mobile/mobileOfflineCache.ts:307-315 | after a failed clear an entry the next snapshot lacks stays stored |
| OfflineCacheRuns.PurgedMetadataStaysAway | apps/mobile/mobileOfflineCache.ts:207-240 | metadata purged by another host's save is not rewritten by a save with the same identity |
| OfflineCacheRuns.MixedRevisionsDrift | apps/mobile/mobileOfflineCachePolicy.ts:13-16 | a save without revision between two different ones leaves the first stored |
| CacheFence.KeepsStep | apps/mobile/mobileOfflineCache.ts:248-317 | every call, queued step and load step keeps the invariant on writers and generations |
| CacheFence.ClearBeatsOlderSaves | apps/mobile/mobileOfflineCache.ts:248-317 | after a clear's delete every row of the host was written by a save queued behind it with a generation not older than the clear's |
| CacheFence.NoRowsUntilALaterSave | apps/mobile/mobileOfflineCache.ts:304-317 | the host has no rows until a save of the new generation is queued behind the clear |
| CacheFence.SkippedExactlyWhenCleared | apps/mobile/mobileOfflineCache.ts:248-253 | a save reaching the head of the queue resolves without writing if its host was cleared after its generation was taken, and writes otherwise |
| CacheFence.ClearSilencesRunningLoads | apps/mobile/mobileOfflineCache.ts:255-302 | a load in flight when its host is cleared never answers with data; which loads do answer is LoadAnswersExactly |
| CacheFence.LoadAnswersExactly | apps/mobile/mobileOfflineCache.ts:255-302 | in every run a load answers with data if and only if it reads a usable row and then its progress, neither read fails, and no clear of its host is called between its call and its second read |
| CacheFence.UndisturbedSave | apps/mobile/mobileOfflineCache.ts:248-253 | a save of the current generation that no one disturbs writes exactly its rows and drops exactly those it should |
| CacheFence.UndisturbedClear | apps/mobile/mobileOfflineCache.ts:304-317 | a clear that no one disturbs takes every row of its host and no other |
| CacheFence.RejectedRowIsCleared | apps/mobile/mobileOfflineCache.ts:269-272 | a current load that finds a row it must reject answers without data, and the clear it calls takes every row of its host and no other |
| CacheFence.CacheQueue.ClearSnapshot | apps/mobile/mobileOfflineCache.ts:304-307 | a clear bumps the generation at the call, which makes every load of the host in flight outdated, and queues the delete |
| CacheFence.CacheQueue.AfterSnapshotRead | apps/mobile/mobileOfflineCache.ts:265-272 | a stale or empty load answers null, an unusable row makes it clear the host |
| Outbox.KeepsStep | apps/mobile/App.tsx:909-951 | every sync, replay, queue step, answer and restart keeps every update safe |
| Outbox.NoUpdateIsLost | apps/mobile/App.tsx:933-945 | in every run the last update written to the table for a host, profile and media is still stored as written, or the server acknowledged exactly that progress, or a wipe of the host ran after it |
| Outbox.LastQueuedIsSafeExactly | apps/mobile/App.tsx:933-945 | the last update queued, with a progress of its own and no later wipe, is stored or acknowledged if and only if its write to the table succeeded |
| Outbox.FailedWriteLosesTheUpdate | apps/mobile/App.tsx:934-950 | an update whose write fails is neither stored nor acknowledged, and its caller has ended |
| Outbox.KeepsSourced | apps/mobile/App.tsx:1340-1355 | nothing is sent or acknowledged that was not written to the table first |
| Outbox.TableHoldsExactly | apps/mobile/mobileOfflineCache.ts:321-356 | in every run a key is in the table if and only if it has a last committed update after which no wipe of its host and no delete of exactly its progress was committed, and then the table holds that update |
| Outbox.UndisturbedSync | apps/mobile/App.tsx:934-944 | from any state with an idle queue, an update that no one disturbs is acknowledged by the server and its key is no longer in the table, which is otherwise unchanged |
| Outbox.UndisturbedReplay | apps/mobile/App.tsx:1340-1355 | the same for a stored update that is replayed |
| Outbox.AcknowledgedExactly | apps/mobile/App.tsx:936-940 | over any run an update is acknowledged if and only if the server stored it at some step |
| Outbox.EndedCallerIsSilent | apps/mobile/App.tsx:933-950 | a caller whose write failed, whose session is over, whose update was superseded or not stored by the server sends nothing and queues no delete afterwards |
| Outbox.ReconcileProgress | apps/mobile/mobileProgressSync.ts:4-27 | entries are handled in order up to the first stop; the merged map and the removed entries are those the answers justify |
| Outbox.RemovedWereStored | apps/mobile/mobileProgressSync.ts:15-23 | an entry is removed if and only if the server stored it while the session was current |
| Outbox.MergedMeaning | apps/mobile/mobileProgressSync.ts:11-26 | the merged map has the remote value where nothing is pending, the server's position, duration and watched flag where it took the entry, the local update otherwise, each pending one with its local time |
| Outbox.HydrationKeepsNewer | apps/mobile/App.tsx:1357-1370 | for every path, pending entries that share one included: the app's own entry is shown exactly where it is strictly newer than the merged one, so a reply to older updates never hides a newer one, no shown path goes back in time, and only an entry of the app that is neither merged nor dated after 0 is not shown |
| Outbox.MergedStamp | apps/mobile/mobileProgressSync.ts:11-26 | a pending path carries the local time of one of its entries |
| LibraryScan.AppendKeepsConsistent | apps/desktop/src/main.ts:843-859 | appending keeps ids unique across the three collections and equal to the id set |
| LibraryScan.AppendAllIds | apps/desktop/src/main.ts:843-863 | the ids afterwards are those before and those of all items offered |
| LibraryScan.AppendAllMeaning | apps/desktop/src/main.ts:843-863 | an item is in the collections if and only if it was there or is the first offered with its id |
| LibraryScan.ScanAccumulator.AppendItem | apps/desktop/src/main.ts:843-859 | an item with a new id goes to the collection of its kind under the id stored for its path; a known id changes nothing |
| LibraryScan.ScanAccumulator.AppendItems | apps/desktop/src/main.ts:861-863 | items are appended in order |
| LibraryScan.ScanAccumulator.RollBack | apps/desktop/src/main.ts:1091-1093 | the collections return to their earlier lengths and the id set to exactly their ids |
| LibraryScan.ScanAccumulator.ScanThrows | apps/desktop/src/main.ts:967-1093 | a scan that throws after any partial appends leaves collections and ids as they were |
| LibraryScan.ScanAccumulator.ScanRoot | apps/desktop/src/main.ts:941-1111 | however a root ends, only its final contribution is left: its scan, or its saved items; a failed root falls back to its old cache entry if it has one |
| LibraryScan.ScanAccumulator.ScanRoots | apps/desktop/src/main.ts:937-1117 | the whole scan is the dedup of all contributions in order, with the scan-cache entries of all roots |
| LibraryScan.ResultIsConsistent | apps/desktop/src/main.ts:937-1117 | ids are unique and equal to the id set after any roots |
| LibraryScan.PreservedContribution | apps/desktop/src/main.ts:880-892 | a root that was unavailable or failed contributes exactly the saved items of its kind's collections, all three for an automatic root, whose path or one of whose episodes lies in its folder, in their saved order, each with its kind set and its id resolved |
| LibraryScan.SavedItemsSurvive | apps/desktop/src/main.ts:956-965 | every saved movie, series or anime in the folder of a root of its kind that was unavailable or failed is in the result under the id its path resolves to |
| LibraryScan.ResultHoldsWhatIsOffered | apps/desktop/src/main.ts:937-1117 | an id is in the result if and only if some root offers an item that resolves to it: a scanned one, or a saved one in the folder of a root that was not scanned |
| LibraryScan.ResultComesFromARoot | apps/desktop/src/main.ts:843-965 | every item of the result is such an item with its kind set by its root and its id resolved, and otherwise unchanged |
| LibraryScan.ResultIsSorted | apps/desktop/src/main.ts:857-859 | each collection of the result holds items of its own kind only |
| LibraryScan.ResolvesToTheLast | apps/desktop/src/main.ts:842-853 | a path resolves to the id of the last saved item with that path |
| LibraryScan.UnsavedKeepsItsId | apps/desktop/src/main.ts:842-853 | an item without a path, or with one that no saved item has, keeps its own id |
| LibraryScan.FinalCache | apps/desktop/src/main.ts:956-1108 | a folder that no root has gets no scan-cache entry, and a folder of one root gets the entry its scan recorded, or its old entry when the root was unavailable or failed |
| LibraryScan.OwnIdSurvivesExactly | apps/desktop/src/main.ts:842-965 | a saved item of a preserved root has its own id in the result if and only if the last saved item with its path has that id or some root offers the id on another path |
| LibraryScan.SharedPathLosesAnId | apps/desktop/src/main.ts:842-852 | two saved items with one path lose the earlier id although the root was only unavailable |
| LibraryScan.SnapshotDropsOnlyProcessed | apps/desktop/src/main.ts:894-905 | a saved item's id stays in a partial snapshot if it was scanned again or no folder of it was processed, and with unique saved ids only then; scanned items come first, and a complete snapshot is the scanned items |
| LibraryScan.SnapshotIdsAreUnique | apps/desktop/src/main.ts:894-923 | each collection of a snapshot has unique ids when the saved one has |
| ArtworkQueue.KeepsStep | apps/desktop/src/main.ts:1373-1401 | every request and every end of a pass keeps the queue's invariant |
| ArtworkQueue.OnePassAtATime | apps/desktop/src/main.ts:1385-1399 | two chains never run a full pass at once and snapshots never go back |
| ArtworkQueue.NewestIsProcessed | apps/desktop/src/main.ts:1390-1395 | when nothing runs, the last pass was over the last snapshot requested |
| ArtworkQueue.CallersAreServed | apps/desktop/src/main.ts:1396-1400 | a caller settles only after a pass over a snapshot at least as new as its own, and rejects if and only if some pass of its chain failed |
| ArtworkQueue.Queue.CacheArtworkNow | apps/desktop/src/main.ts:1383-1400 | a request becomes the pending snapshot, and its caller awaits a chain that has not ended |
| MobileLibrary.FirstAirDateIsEarliest | apps/mobile/mobileLibrary.ts:62-68 | the date of a season is the earliest known one of its episodes, or none |
| MobileLibrary.SeasonOrder | apps/mobile/mobileLibrary.ts:70-83 | every non-negative season once, regular ones ascending, specials directly before the first regular season dated after them or last |
| MobileLibrary.EpisodeOrder | apps/mobile/mobileLibrary.ts:85-92 | the episodes are the item's files, each once: seasons in the order they are listed in, seasons without a place after all of those, episodes ascending within a season, and files of one place and episode in their original order |
| MobileLibrary.SortIsStable | apps/mobile/mobileLibrary.ts:85-92 | the episodes are a permutation in order of season rank and episode that keeps equal ones in their order; EpisodeOrder says what that order is |
| MobileLibrary.SortIsUnique | apps/mobile/mobileLibrary.ts:85-92 | any stable sort by that order gives the same sequence |
| MobileLibrary.FirstUnwatchedIsFirst | apps/mobile/mobileLibrary.ts:139-141 | every episode before the one found is watched and it is not |
| MobileLibrary.PlaysTheFirstUnwatched | apps/mobile/mobileLibrary.ts:136-143 | a series plays the first unwatched of its own episodes in that order, else the first, and resumes only past ten seconds |
| MobileLibrary.PlaysTheFirstInOrder | apps/mobile/mobileLibrary.ts:136-143 | a series plays one of its own files that is unwatched and before which, in the order of EpisodeOrder, no unwatched file comes; when all are watched, the first of all; the target names that file's path, media, season and episode and resumes where it was left |
| MobileLibrary.OthersPlayTheirFile | apps/mobile/mobileLibrary.ts:146-162 | a movie plays its own file even when it lists episodes, and so does a series without any |
| MobileLibrary.WatchedMeaning | apps/mobile/mobileLibrary.ts:94-101 | a stream with stored progress is watched if and only if that says so or nine tenths of its duration are reached, the hint counting only without a stored duration, and resumes past ten seconds |
| MobileLibrary.NothingStored | apps/mobile/mobileLibrary.ts:94-101 | a stream without stored progress is neither watched nor resumed |
| Catalog.GroupEpisodes | apps/mobile/mobileLanClient.ts:181-187 | the map holds for each series exactly its episodes in server order |
| Catalog.BuildLegacyLibrary | apps/mobile/mobileLanClient.ts:179-191 | the library is the specified one: movies and videos, series by kind with their episodes |
| Catalog.LegacyLibraryHolds | apps/mobile/mobileLanClient.ts:154-191 | the library holds exactly the movies and videos, the series and the anime series, each collection in server order and with the server's fields, and each series has exactly the episodes that name it, in server order, with their seasons, episodes, titles and pictures |
| Catalog.RouteKeepsMeaning | apps/mobile/mobileDomain.ts:53-102 | one item through the compact index and back keeps its fields, its episodes in order and its play target for every progress map |
| Catalog.MoviesAgree | apps/mobile/mobileLanClient.ts:188-211 | both transports give the same movies and videos |
| Catalog.TvShowsAgree | apps/mobile/mobileLanClient.ts:189-211 | both transports give the same series, episodes in playing order and play targets |
| Catalog.AnimeShowsAgree | apps/mobile/mobileLanClient.ts:189-211 | the same for series that look like anime |
| Catalog.TransportsAgree | apps/mobile/mobileLanClient.ts:154-213 | for all canonical items both transports give the same items, episodes in playing order and play targets, and every compact item carries the catalog's revision |
| PlaybackLease.LeaseIsSafe | apps/mobile/mobilePlaybackLease.ts:16-47 | every run stops once if closed and not otherwise, fails at most once, never has two of a timer and a renewal, renews only before a deadline that never moves later |
| PlaybackLease.ClosedStaysQuiet | apps/mobile/mobilePlaybackLease.ts:41-46 | after close nothing is reported, renewed, armed or stopped again |
| PlaybackLease.FailureIsFinal | apps/mobile/mobilePlaybackLease.ts:35-37 | after a reported failure the lease never wakes again |
| PlaybackLease.FailsExactly | apps/mobile/mobilePlaybackLease.ts:25-37 | over any run a failure is reported if and only if, while the lease is open, the absolute deadline has passed at a tick, or a renewal or its application rejects |
| PlaybackLease.OpenLeaseStaysAwake | apps/mobile/mobilePlaybackLease.ts:20-40 | in every run an open lease that has reported no failure has exactly one of a pending timer and a renewal in flight |
| PlaybackLease.RenewedIsArmed | apps/mobile/mobilePlaybackLease.ts:30-34 | an applied renewal of an open lease leaves exactly one pending timer, a minute before the nearest of the new expiry and both absolute deadlines or a second from now, and remembers the new expiry and the nearer absolute deadline |
| PlaybackLease.ArmedAMinuteEarly | apps/mobile/mobilePlaybackLease.ts:20-24 | the timer is due a minute before the nearer deadline or a second from now |
| PlaybackLease.MobilePlaybackLease.FireTimer | apps/mobile/mobilePlaybackLease.ts:25-28 | a tick renews if and only if the absolute deadline is not reached, and fails otherwise |
| PlaybackLease.MobilePlaybackLease.AfterRenew | apps/mobile/mobilePlaybackLease.ts:28-30 | a renewal that settles after close is dropped, one that rejects fails |
| PlaybackLease.MobilePlaybackLease.AfterApply | apps/mobile/mobilePlaybackLease.ts:30-37 | an applied renewal moves the deadlines, the absolute one never later, and arms the next timer |
| PlaybackLease.MobilePlaybackLease.CloseLease | apps/mobile/mobilePlaybackLease.ts:41-46 | close unschedules the latest timer and stops once |
| Credentials.KeepsStep | apps/mobile/App.tsx:1372-1414 | every step of refreshes, writes, session changes and clears keeps the invariant |
| Credentials.OldRefreshNeverShows | apps/mobile/App.tsx:2030-2040 | a refresh begun before a clear never becomes the saved connection after it |
| Credentials.NothingOldIsStored | apps/mobile/mobileCredentialPersistence.ts:5-9 | once a clear's delete has run, a stored credential was queued behind it and is not of a refresh begun before it |
| Credentials.OldRefreshIsNotStored | apps/mobile/App.tsx:1396-1399 | the same for a clear at any point of any run, at whichever await the refresh was suspended |
| Credentials.UndisturbedRefreshIsStored | apps/mobile/App.tsx:1372-1414 | with no one interfering a refresh is stored, then shown, and the next call begins a new one |
| Credentials.RefreshIsShownExactly | apps/mobile/App.tsx:1380-1409 | in every run a refresh that a call begins is shown if and only if it is answered well, its write does not fail, and it is current both at its answer and when it resumes |
| Credentials.OneRefreshForEachKey | apps/mobile/App.tsx:1374-1414 | however often it is called, at most one refresh of a key is under way while no clear, invalidation or refresh of another key interferes |
| Credentials.RefreshAfterClear | apps/mobile/App.tsx:2030-2040 | whatever refresh was under way, an undisturbed clear leaves nothing stored or shown, and the next refresh of any key starts afresh and is stored |
| Credentials.CredentialSession.RefreshSavedCredentials | apps/mobile/App.tsx:1372-1379 | a call joins the refresh under way for its key or begins one in the current session |
| Credentials.CredentialSession.ClearAuthorizedSession | apps/mobile/App.tsx:2030-2040 | a clear supersedes every refresh begun before it, drops the saved connection and queues the delete |
| Diagnostics.WalkNewestFirst | apps/mobile/mobileDiagnosticPolicy.ts:70-83 | the loop with its two counters returns the ids of the specified deletions |
| Diagnostics.IdsToDelete | apps/mobile/mobileDiagnosticPolicy.ts:66-84 | the deletions are those over the newest-first order, within 100 events, 256 KiB and seven days |
| Diagnostics.RetainedIsKept | apps/mobile/mobileDiagnosticPolicy.ts:70-81 | the two counters are the size and the bytes of what is kept |
| Diagnostics.SortedIsSorted | apps/mobile/mobileDiagnosticPolicy.ts:73-74 | the order is newest first and a permutation |
| Diagnostics.KeptIsBounded | apps/mobile/mobileDiagnosticPolicy.ts:66-84 | kept and deleted split the candidates; at most 100 and 256 KiB are kept and none is expired |
| Diagnostics.DeletionsAreJustified | apps/mobile/mobileDiagnosticPolicy.ts:76-79 | every deleted event is expired or would break a bound with the kept ones ahead of it, all at least as new |
| Diagnostics.PrunedForAReason | apps/mobile/mobileDiagnosticPolicy.ts:66-84 | what a prune deletes is older than seven days, or comes after 100 kept events, or does not fit in 256 KiB beside the kept ones ahead of it |
| Diagnostics.SecondPruneIsIdle | apps/mobile/mobileDiagnostics.ts:39-52 | pruning the kept events again at the same time, in any order, deletes nothing |
| Diagnostics.SurvivesExactly | apps/mobile/mobileDiagnosticPolicy.ts:75-83 | an event is kept if and only if it fits after what is kept of the events ahead of it |
| Diagnostics.NewestSurvives | apps/mobile/mobileDiagnostics.ts:54-69 | an event newer than all others survives a prune at its own time |
| Diagnostics.TiesCanLose | apps/mobile/mobileDiagnostics.ts:54-69 | recording a full-sized event after an equally old one leaves a table without it |
| Diagnostics.DiagnosticTable.Prune | apps/mobile/mobileDiagnostics.ts:39-52 | the table keeps exactly the kept events |
| Diagnostics.DiagnosticTable.Record | apps/mobile/mobileDiagnostics.ts:54-69 | an oversized event changes nothing; any other is inserted and the table pruned, and it is there afterwards if and only if there is room after what is kept of the events listed ahead of it, in particular when it is strictly newest |
| HlsPacing.LeadIsBounded | apps/server/src/hls-pacing.js:33-38 | for any requests and any lost signals the lead exceeds 59 + k by at most the distance the client has gone back from its furthest request and k for each lost stop signal |
| HlsPacing.BoundedExactly | apps/server/src/hls-pacing.js:33-38 | with stop signals delivered the lead stays at or below 59 + k over a run if and only if every request behind the furthest one is at least the segments produced minus 59 + k |
| HlsPacing.BoundedExactlyFromTheStart | apps/server/src/hls-pacing.js:33-38 | the same for every run from before the first segment |
| HlsPacing.LeadIsBoundedFromTheStart | apps/server/src/hls-pacing.js:33-38 | the lead stays at or below 59 + k when requests never go back |
| HlsPacing.SwitchesExactly | apps/server/src/hls-pacing.js:33-38 | a running encoder is stopped by a delivered signal at a lead of 60 or more, a stopped one continued by a delivered signal at 30 or less, and a lost signal changes nothing |
| HlsPacing.SuspendedIsFarAhead | apps/server/src/hls-pacing.js:35-36 | a tick that ends suspended leaves more than 30 unrequested segments if and only if it did not decide to resume in vain |
| HlsPacing.ThirtyRequestsBetweenSwitches | apps/server/src/hls-pacing.js:35-36 | between a suspend and the next resume the client's position moves on by at least 30 segments, whatever it requests in between |
| HlsPacing.SeekingBackBreaksTheBound | apps/server/src/hls-pacing.js:34-34 | a run from the start in which one seek to the beginning raises the lead past any given bound |
| DetailCache.ItemCache.Remember | apps/mobile/mobileDomain.ts:116-124 | the loop evicts exactly the oldest entries beyond 24 |
| DetailCache.CacheIsTheLatest | apps/mobile/mobileDomain.ts:116-124 | after any calls the cache is the 24 most recently remembered keys in order, each with its latest item |
| DetailCache.LatestHoldsLastCalls | apps/mobile/mobileDomain.ts:117-118 | the unbounded reference holds exactly the last call of every key |
| RuntimeModules.ModuleCopier.CopyModule | apps/desktop/forge.config.ts:363-383 | one recursive call ends on every graph, marks only reachable modules, and is closed under dependencies when it succeeds |
| RuntimeModules.ModuleCopier.CopyRuntimeModule | apps/desktop/forge.config.ts:363-383 | it succeeds if and only if every reachable module exists, and then writes exactly the reachable modules, each once |
| RuntimeModules.ClosedHoldsReachable | apps/desktop/forge.config.ts:380-382 | a set closed under dependencies holds everything reachable from its members |

## Left out

- Electron lifecycle, windows, updater, protocol handlers, React rendering, navigation and styles: no logic of this kind.
- HTTP, timeouts, schema decoding, URL parsing, regular expressions, discovery and TLS: their results are parameters.
- SQLite, the file system, SecureStore and the native downloader: maps and sets with atomic steps that may fail; a failed
  statement or transaction changes nothing.
- Attempt directory names are taken to be fresh; the code makes them from the clock and a counter.
- A download handed to a remove is taken to have been a row of its key at some time, as the interface only offers listed ones.
- The wait for a native cancellation before an attempt's directory is deleted is part of the failing stage, not a step of its own.
- The `saved_at` column of progress rows, and legacy snapshots with embedded progress: nothing in the modelled code reads them.
- Loads that set the diff base beside running saves: the code gives no guarantee there, so OfflineCache has saves and clears
  only, and CacheFence says only what a load answers.
- mergeOfflineProgressEntry, canRestoreMobileOfflineSnapshot and the normalizers: easy, and not needed by a harder property.
- JSON encoding: text is compared as text, and encoding is taken to be injective.
- The order in which the server applies concurrent progress writes, and answers the client never receives.
- planScanDelta, isCurrentScanCommit, preserveExistingItemDuringScan, repairSeasonFolderItems, reusableChildFolders, the
  inventory and the scanners are not part of this model: their results are arbitrary inputs of a root's outcome.
- Item ids are taken to be non-empty; folder statuses, progress messages and cancellation of a whole scan are not modelled.
- After a failed first scan of a root a fresh scan-cache entry can stay in memory; ScanRoot says so and no rollback is claimed.
- EpisodeOrder and PlaysTheFirstInOrder: for items with fewer than 2^32 files, which every JavaScript array has.
- Episode titles and pictures differ between the two transports by design and are not compared; numbers are integers or reals.
- A dependency whose package file cannot be parsed counts as missing in RuntimeModules; copying the files of one module is one step.
- Artwork passes for a single changed item: they do not touch the queue.
- hlsSegmentIndex and the signals themselves: whether a signal reached the encoder is an input.
- The session identity beside the session generation in Credentials: the model's refreshes stay current at least as long.
- sanitizedValue and the rest of diagnostic event creation: recursive string work.
- DownloadManager: the process restart is an event of the model only, since it ends the object.
- RefreshIsShownExactly: says when a refresh is shown, not that it was stored too; a write that is skipped resolves like one that ran.
- NoRowsUntilALaterSave: speaks of a process lifetime, since generations and the queue do not outlive it.
