# Verified models of AI2Apps' checkpoint, scheduling, cache and identity cores

Dafny models of the parts of AI2Apps where several steps, processes or runs have to fit
together, and proofs of what they keep. `dafny verify dfyconfig.toml` checks everything.

- **Checkpoint pieces** (`Pieces`, `Tiling`, `Publishing`, `Download`, `Resume`, `Delivery`,
  `Downloader`, `Attempts`). The publisher hashes the concatenated files with a rolling buffer; the
  downloader plans the same pieces as file ranges, fetches them from several sources, writes them
  from concurrent workers and resumes after a crash. SHA-256 is an arbitrary function; lemmas that
  need it to be free of collisions say so.
- **Worker scheduler** (`Scheduling`, `SchedulerProofs`, `SchedulerReport`, `WorkerScheduler`). Every
  lock-held section is one step. The resource manager answers each reservation freely.
- **Shared model cache** (`SharedCache`, `SharedCacheProofs`, `SharedImport`, `HubCache`). Processes under the
  shared gate take file operations one at a time in any interleaving; the collector holds the gate
  alone; anyone may crash between two operations.
- **Reclamation and conversion** (`Reclaim`, `Conversion`). Source shards are replaced one at a time
  under a journal while layers are converted, over crashes and re-runs.
- **Externalised experts** (`TensorNames`, `Backbone`, `Offsets`). A checkpoint is split into a
  compact backbone and byte ranges of experts.
- **Readiness** (`Readiness`), **event stream** (`EventStream`), **identity** (`Identity`,
  `IdentityProofs`, `IdentityRepository`).

Each class method is proved against a function or a step of a transition system; the main results
are lemmas about those, for every input or every run. Seven results say where the code does less
than one might read into it, each with the exact condition:

- Publishing a reference leaves a snapshot referenced unless the same reference is unlinked
  afterwards, also between the reference and its marker (`LastTouchDecides`, `RaceExposesSnapshot`).
- A crash between writing and renaming a reference, or a marker, stops every later collection,
  although nothing is lost: the crash leaves the temporary file (`CrashedPublicationOrphans`,
  `CrashLeavesOrphan`), and with the gate free a collection is refused if and only if there is such a
  file, and then for ever (`RefusedForEver`, `OrphanBlocksForEver`; `BlockedOnlyByLeftovers` says
  that in sound states nothing else stops one).
- A collection that is cut off strands the blobs that no directory links to any more
  (`StopStrandsIff`, `CutOffCollectionStrands`): no later collection removes them, until an import
  links to them again (`StrandedStays`).
- A wait that times out gives its place back exactly when its ticket is not active by then
  (`TimedOutWait`); an active one keeps it until it is released (`ActiveUntilReleased`).
- Re-running reclamation recovers from every crash point exactly when the staged backbone files
  have their recorded digests (`RecoveryIff`); right after preparation they have
  (`PreparedIsHonest`).
- Two spellings of one expert tensor (optional prefix, leading zeros) lose one of the two: it is in
  neither the backbone nor the records. Which one is exact: the one that another spelling is read
  behind (`LostIffRespelled`; `TwoPrefixesLoseOne` and `TwoNumeralsLoseOne` are the inputs).
- A session look-up is decided by the row it reads first: a revocation holds for every look-up begun
  after it (`LookupOfDeadFails`) and not for one that has read its row before (`RevokedDuringLookup`).

## Model

| member | source | states |
|---|---|---|
| `Pieces.ParseManifest` | ai2apps/checkpoint_distribution.py:391-435 | accepts exactly the file lists with positive sizes, distinct paths, the right total, one of the seven powers of two from 1 MiB to 64 MiB as piece size, and just as many hashes as such pieces cover the total; whatever it accepts can be planned |
| `Pieces.PieceSizes` | ai2apps/checkpoint_distribution.py:411-422 | the piece sizes that pass are these seven |
| `Pieces.CutWindow` | ai2apps/checkpoint_distribution.py:963-985 | the inner planning loop turns a stream window into file ranges that tile it exactly, cut only at the window and at file ends |
| `Pieces.PlanPiece` | ai2apps/checkpoint_distribution.py:955-995 | one round of the outer loop yields the i-th window of the stream and cannot fail inside an accepted manifest |
| `Pieces.PlanCheckpointPieces` | ai2apps/checkpoint_distribution.py:944-996 | the plan is the i-th window for every i; both "does not cover" errors are unreachable for any accepted manifest |
| `Pieces.StreamDeterminesFiles` | ai2apps/checkpoint_distribution.py:944-996 | equal concatenated streams mean equal files |
| `Tiling.ExactTiling` | ai2apps/checkpoint_distribution.py:944-996 | every byte of every file lies in exactly one segment of exactly one piece |
| `Tiling.OwnerIsUnique` | ai2apps/checkpoint_distribution.py:944-996 | no two segments own the same byte |
| `Tiling.PiecesConsecutive` | ai2apps/checkpoint_distribution.py:952-995 | each piece starts where the one before ends, and the last one reaches the end of the stream |
| `Tiling.WindowRead` | ai2apps/checkpoint_distribution.py:1773-1788 | reading the segments of a tiled window gives that window of the stream |
| `Tiling.AllPiecesFillEveryFile` | ai2apps/checkpoint_distribution.py:1654-1659 | when all pieces count, every file's counted bytes are its size |
| `Tiling.ChosenBytesAdd` | ai2apps/checkpoint_distribution.py:1654-1659 | completing one more piece adds that piece's bytes of a file and nothing else |
| `Publishing.FeedChunk` | ai2apps/checkpoint_publishing.py:240-253 | moving a read chunk through the rolling buffer keeps what hashes, buffer and unread bytes together determine |
| `Publishing.FeedFile` | ai2apps/checkpoint_publishing.py:227-259 | reading a file in chunks of any size keeps it too and yields the file's digest |
| `Publishing.FlushPiece` | ai2apps/checkpoint_publishing.py:265-267 | the trailing partial buffer is the last piece |
| `Publishing.VerifyFilesAndPieces` | ai2apps/checkpoint_publishing.py:208-268 | succeeds exactly on non-empty equal copies; its hashes are the reference cut of the concatenated stream, for every piece size and read size |
| `Publishing.VerifyLocalFilesAgainstMetadata` | ai2apps/checkpoint_publishing.py:271-311 | succeeds exactly when size and digest match the other Hub; same rows and hashes as the first variant |
| `Publishing.PieceHashCount` | ai2apps/checkpoint_publishing.py:265-268 | exactly ceil(total / size) hashes |
| `Publishing.PieceHashAt` | ai2apps/checkpoint_publishing.py:248-253 | the i-th hash is the hash of the i-th window |
| `Publishing.PublishedIsAcceptable` | ai2apps/checkpoint_publishing.py:262-268 | what is published meets everything the downloader's planner needs |
| `Publishing.PublisherAndDownloaderAgree` | ai2apps/checkpoint_distribution.py:944-996 | the i-th published hash is the hash of the bytes the i-th planned piece reads from its segments |
| `Download.StreamOverwrite` | ai2apps/checkpoint_distribution.py:1931-1938 | a write at a file offset is a write at that file's start plus the offset in the stream |
| `Download.WriteInStream` | ai2apps/checkpoint_distribution.py:1923-1942 | one partial pwrite replaces exactly the next unwritten bytes of its own piece |
| `Download.WriteKeepsOthers` | ai2apps/checkpoint_distribution.py:1923-1942 | a write of one piece never changes what another piece reads |
| `Download.ReadBack` | ai2apps/checkpoint_distribution.py:1773-1788 | a piece written to its end, but not yet marked, reads back as its payload; `Delivery.FetchedReadsBack` carries this on to every later state |
| `Delivery.CompletedKeepsBytes` | ai2apps/checkpoint_distribution.py:1660-1675 | for any hash, a completed piece keeps its bytes through every later fetch, partial write and mark of the others |
| `Delivery.FetchedReadsBack` | ai2apps/checkpoint_distribution.py:1904-1917 | a piece fetched with a payload reads back that payload at every later state in which it is completed, for any hash |
| `Delivery.CompletedWasDelivered` | ai2apps/checkpoint_distribution.py:1660-1675 | nothing is completed that was not found completed, being written, or fetched during the run |
| `Delivery.StreamIsDelivered` | ai2apps/checkpoint_distribution.py:1660-1688 | when all pieces are completed, the files laid end to end are the delivered payloads one after the other, for any hash |
| `Delivery.AllPiecesCanFinish` | ai2apps/checkpoint_distribution.py:1660-1675 | from every sound state of an honest manifest some execution completes all pieces: no interleaving gets stuck |
| `Delivery.DownloadCanFinish` | ai2apps/checkpoint_distribution.py:1628-1690 | whatever a crash left, the next run can finish and promote every file with its real bytes |
| `Delivery.PublishedIsHonest` | ai2apps/checkpoint_publishing.py:208-268 | what is published for distinct, non-empty files is an honest manifest of them: the assumption of the download results holds for it |
| `Delivery.PublishedIsDelivered` | ai2apps/checkpoint_distribution.py:1628-1690 | from publisher to downloader: whatever a crash left, a run that completes all pieces in any interleaving promotes the very bytes of every published path |
| `Download.EveryInterleavingIsSound` | ai2apps/checkpoint_distribution.py:1660-1675 | under every interleaving of fetches, partial writes and marks: completed pieces are genuine, writers have their payload's prefix on disk, byte counts are exact |
| `Resume.ResumedIsSound` | ai2apps/checkpoint_distribution.py:1628-1659 | whatever a crash left, each piece a new run takes as completed hashes to its digest or lies wholly in clones of verified blobs |
| `Resume.ResumeKeepsProgress` | ai2apps/checkpoint_distribution.py:1736-1771 | with an honest manifest no completed piece is lost by a crash before promotion |
| `Resume.PromotionCrashKeepsProgress` | ai2apps/checkpoint_distribution.py:1676-1690 | a crash after any number of promotions loses nothing: the next run has nothing to fetch and promotes the rest, also when files share a digest |
| `Resume.CompletedIsReal` | ai2apps/checkpoint_distribution.py:1761-1771 | every completed piece of an honest manifest holds the real bytes, for a collision-free hash |
| `Resume.WindowsDetermineFiles` | ai2apps/checkpoint_distribution.py:944-996 | equal piece windows mean equal files |
| `Resume.FinishedFilesAreReal` | ai2apps/checkpoint_distribution.py:1676-1688 | once all pieces are completed every partial file is its slice of the real stream and its byte count is its size |
| `Resume.PromotionSucceeds` | ai2apps/checkpoint_distribution.py:1108-1129 | promoting real files one after the other succeeds, also when several share a digest |
| `Resume.HonestRunPromotes` | ai2apps/checkpoint_distribution.py:1676-1688 | an honest run with all pieces promotes every file to the real blob |
| `Resume.DownloadAfterAnyCrash` | ai2apps/checkpoint_distribution.py:1628-1690 | the two results composed: any leftover disk, any interleaving, all promotions succeed |
| `Downloader.PieceDownloadScheduler.VerifiedBlobs` | ai2apps/checkpoint_distribution.py:1088-1106 | finds exactly the verified blobs and stops on a corrupt one |
| `Downloader.PieceDownloadScheduler.PreparePartialFile` | ai2apps/checkpoint_distribution.py:1746-1757 | clones, keeps, or recreates one partial file |
| `Downloader.PieceDownloadScheduler.PreparePartialFiles` | ai2apps/checkpoint_distribution.py:1736-1759 | every partial file has its size; the map is dropped exactly when a file of a wrong size was |
| `Downloader.PieceDownloadScheduler.ReadPiece` | ai2apps/checkpoint_distribution.py:1773-1788 | reads a piece exactly when all its ranges are there |
| `Downloader.PieceDownloadScheduler.LoadMap` | ai2apps/checkpoint_distribution.py:1533-1559 | a map of another manifest or shape counts as empty and is reset |
| `Downloader.PieceDownloadScheduler.ValidatedCompletedPieces` | ai2apps/checkpoint_distribution.py:1761-1771 | keeps exactly the marked pieces whose bytes hash to the manifest's digest |
| `Downloader.PieceDownloadScheduler.ClonedPieces` | ai2apps/checkpoint_distribution.py:1634-1638 | exactly the pieces lying wholly in cached files |
| `Downloader.PieceDownloadScheduler.CountBytes` | ai2apps/checkpoint_distribution.py:1654-1659 | per-file counts are the summed segment lengths of the completed pieces |
| `Downloader.PieceDownloadScheduler.Begin` | ai2apps/checkpoint_distribution.py:1628-1659 | the steps before the workers start reach a sound resumed run, or change nothing |
| `Downloader.PieceDownloadScheduler.WritePiece` | ai2apps/checkpoint_distribution.py:1923-1942 | segment after segment with short writes; every state in between is sound |
| `Downloader.PieceDownloadScheduler.CompletePiece` | ai2apps/checkpoint_distribution.py:1904-1917 | after marking, the piece reads back as its payload and the run is sound |
| `Downloader.PieceDownloadScheduler.PromoteVerified` | ai2apps/checkpoint_distribution.py:1108-1129 | moves a partial file of the right size and digest to its digest's place, or drops it when a verified blob is there; otherwise nothing changes |
| `Downloader.PieceDownloadScheduler.PromoteAll` | ai2apps/checkpoint_distribution.py:1676-1688 | promotes in manifest order; at a failure exactly the files before it are promoted, and the next one is refused for the reason returned |
| `Downloader.PieceDownloadScheduler.StepWorker` | ai2apps/checkpoint_distribution.py:1923-1942 | one pwrite of any non-empty part, or the mark, is one step of the interleaving |
| `Downloader.PieceDownloadScheduler.RunWorkers` | ai2apps/checkpoint_distribution.py:1660-1675 | any number of workers on one queue, their fetches, partial writes and marks interleaved in any way: terminates, is an execution of the interleaving, and completes everything exactly when every missing piece arrives |
| `Downloader.PieceDownloadScheduler.Download` | ai2apps/checkpoint_distribution.py:1628-1690 | preparation, sources, workers and promotion composed: with an honest manifest it succeeds exactly when the cached blobs verify, every file that some segment of a missing piece reads from has a usable source and every missing piece arrives; without a source nothing is fetched; every success leaves a verified blob for each file |
| `Downloader.PromotedAreVerified` | ai2apps/checkpoint_distribution.py:1108-1129 | for any hash, what promotion leaves under a listed digest has that digest and size, and no blob is replaced |
| `Attempts.SourceAttempts` | ai2apps/checkpoint_distribution.py:1837-1859 | no duplicates, all in range, exactly min(limit, product) attempts, and the first max-count of them use every source of every segment when the limit allows |
| `Attempts.Rotations` | ai2apps/checkpoint_distribution.py:1843-1849 | the rotations are pairwise distinct and use every source |
| `Attempts.ProductIsExact` | ai2apps/checkpoint_distribution.py:1850-1856 | the cartesian product lists every in-range vector once |
| `SchedulerProofs.EveryReachableState` | ai2apps/worker_scheduler.py:156-224 | over every run: queued and active are disjoint, waiters are the queued ids, reservations the active ids, and active, per-actor, queue, per-actor and per-App limits hold, counted ticket by ticket |
| `SchedulerProofs.StepKeeps` | ai2apps/worker_scheduler.py:226-318 | every single lock-held section keeps all of that |
| `SchedulerProofs.Conservation` | ai2apps/worker_scheduler.py:247-279 | issued sequence number = queued + active + completed + failed + cancelled + expired |
| `SchedulerProofs.RunForward` | ai2apps/worker_scheduler.py:292-384 | over any run no ticket is re-queued, restarted or counted under a second outcome |
| `SchedulerProofs.RepeatedReleaseIsSilent` | ai2apps/worker_scheduler.py:366-384 | releasing a ticket a second time, after any run in between and with any outcome, changes nothing: the first outcome stands |
| `SchedulerProofs.AbandonedWaitFinishes` | ai2apps/worker_scheduler.py:287-290 | cancel-then-release ends the ticket finished and counts it once, whatever happens in between |
| `SchedulerProofs.ShutdownIsFinal` | ai2apps/worker_scheduler.py:487-499 | after shutdown the queue stays empty and the active set only shrinks |
| `SchedulerProofs.ActiveUntilReleased` | ai2apps/worker_scheduler.py:366-384 | nothing but its own release ends a ticket's active time, over any run |
| `SchedulerProofs.TimedOutWait` | ai2apps/worker_scheduler.py:284-304 | what the expiry behind a timed-out wait leaves: the place is given back exactly when the ticket was not active by then, and a queued ticket ends expired for ever |
| `SchedulerProofs.StartedInOrder` | ai2apps/worker_scheduler.py:191-224 | a started ticket fits the slots, its actor and its worker; a background or maintenance ticket starts only with no gate closed and no interactive or foreground ticket queued; and every runnable ticket before it was refused a reservation |
| `SchedulerProofs.StartedByClass` | ai2apps/worker_scheduler.py:191-209 | no ticket is started while an equally old, runnable one of an earlier class was not refused, unless that one is not interactive and the started one counts as foreground by its class or its waiting time |
| `SchedulerProofs.NothingLeftIdle` | ai2apps/worker_scheduler.py:194-215 | a dispatch stops with a runnable ticket only when slots are full or its last round saw all of them refused |
| `SchedulerProofs.AdmissionIsExact` | ai2apps/worker_scheduler.py:247-259 | admission refuses exactly what would break a queue limit, and everything once closed |
| `SchedulerProofs.RunnableIsExact` | ai2apps/worker_scheduler.py:156-177 | a ticket is runnable exactly when starting it breaks no actor's and no worker's limit and no background rule |
| `SchedulerProofs.PriorityIsStrictTotal` | ai2apps/worker_scheduler.py:139-149 | the priority key orders tickets strictly and totally |
| `SchedulerProofs.PriorityServes` | ai2apps/worker_scheduler.py:139-149 | interactive work comes before all other; within one rank earlier deadlines, then actors served less often, then whoever was created or numbered first |
| `SchedulerProofs.RankByClass` | ai2apps/worker_scheduler.py:132-137 | the rank of each of the five classes at every moment: interactive 0, foreground 1, and remote, background and maintenance work 2, 3 and 4 until one, two or three intervals have taken it down to 1 |
| `SchedulerProofs.ClassesInOrder` | ai2apps/worker_scheduler.py:40-46 | of two tickets created together the one of the earlier class, in the order interactive, foreground, remote, background, maintenance, comes first, until the other counts as foreground; from then on both have rank 1 |
| `SchedulerProofs.AgeingImprovesRank` | ai2apps/worker_scheduler.py:132-137 | waiting never worsens a rank and never reaches the interactive rank |
| `SchedulerProofs.OlderRanksNoWorse` | ai2apps/worker_scheduler.py:132-137 | of two tickets of a class the older never ranks worse |
| `SchedulerProofs.AgedToForeground` | ai2apps/worker_scheduler.py:132-137 | a class of base rank b reaches rank 1 after exactly b - 1 intervals |
| `WorkerScheduler.MakeScheduler` | ai2apps/worker_scheduler.py:84-126 | accepts exactly positive limits and a positive ageing interval; the new scheduler is empty |
| `WorkerScheduler.WorkerJobScheduler.ExpireLocked` | ai2apps/worker_scheduler.py:179-189 | takes out exactly the tickets whose deadline is now or earlier |
| `WorkerScheduler.WorkerJobScheduler.TryCandidates` | ai2apps/worker_scheduler.py:200-215 | tries runnable tickets in priority order: the refused ones are exactly those before the granted one |
| `WorkerScheduler.WorkerJobScheduler.StartTicket` | ai2apps/worker_scheduler.py:216-224 | moves the ticket and hands out its lease |
| `WorkerScheduler.WorkerJobScheduler.DispatchLocked` | ai2apps/worker_scheduler.py:191-224 | terminates and takes exactly the rounds of a dispatch; with `StartedInOrder`, `StartedByClass` and `NothingLeftIdle` this fixes what it may start and when it stops |
| `WorkerScheduler.WorkerJobScheduler.Acquire` | ai2apps/worker_scheduler.py:241-281 | one admission step; refused exactly as stated, with the message of the first check that fails, and then nothing changes |
| `WorkerScheduler.WorkerJobScheduler.ExpireTicket` | ai2apps/worker_scheduler.py:292-304 | one expiry step |
| `WorkerScheduler.WorkerJobScheduler.Cancel` | ai2apps/worker_scheduler.py:306-318 | one cancellation step |
| `WorkerScheduler.WorkerJobScheduler.CancelQueuedRequest` | ai2apps/worker_scheduler.py:334-364 | succeeds exactly when a queued ticket and no active one carries the five fields of the request; otherwise nothing changes |
| `SchedulerProofs.CancelledExactly` | ai2apps/worker_scheduler.py:354-364 | a queued ticket is cancelled by it exactly when it carries the five fields |
| `WorkerScheduler.WorkerJobScheduler.Release` | ai2apps/worker_scheduler.py:366-384 | one release step |
| `WorkerScheduler.WorkerJobScheduler.Snapshot` | ai2apps/worker_scheduler.py:386-469 | expires without dispatching, counts exactly what is queued and running by class and by worker, and lists the queue in priority order |
| `SchedulerReport.ReportAddsUp` | ai2apps/worker_scheduler.py:386-437 | in reachable states the class counts add up to the totals, of the whole and of every worker; running and available places are all there are; and everything issued is accounted for |
| `SchedulerReport.CountClasses` | ai2apps/worker_scheduler.py:390-395 | one count for every class, zero included |
| `WorkerScheduler.WorkerJobScheduler.SetWorkerSlots` | ai2apps/worker_scheduler.py:127-130 | only positive limits |
| `WorkerScheduler.WorkerJobScheduler.SetBackgroundGate` | ai2apps/worker_scheduler.py:471-481 | opens or closes one reason's gate and dispatches |
| `WorkerScheduler.WorkerJobScheduler.NotifyResourcesChanged` | ai2apps/worker_scheduler.py:483-485 | one dispatch |
| `WorkerScheduler.WorkerJobScheduler.Shutdown` | ai2apps/worker_scheduler.py:487-499 | cancels the whole queue and closes |
| `WorkerScheduler.SchedulerLease.Release` | ai2apps/worker_scheduler.py:69-73 | only the first release reaches the scheduler |
| `WorkerScheduler.SortedQueue` | ai2apps/worker_scheduler.py:435-437 | every queued ticket once, in priority order |
| `SharedCacheProofs.EveryRunKeeps` | ai2apps/shared_model_cache.py:124-147 | over every run of shared-gate steps and collections, with a crash between any two file operations, every commit-named snapshot has all its linked blobs |
| `SharedCacheProofs.StepKeeps` | ai2apps/shared_model_cache.py:210-240 | every single file operation keeps that |
| `SharedCacheProofs.OnlyUnreferencedIsCollected` | ai2apps/shared_model_cache.py:512-570 | a commit-named snapshot changes only by being collected, and then it is marked and unreferenced |
| `SharedCacheProofs.ReferencedSnapshotSurvives` | ai2apps/shared_model_cache.py:331-349 | while nobody unlinks a reference, its snapshot stays, unchanged and complete |
| `SharedCacheProofs.LastTouchDecides` | ai2apps/shared_model_cache.py:210-240 | a reference is there exactly when the last operation that touched it published it |
| `SharedCacheProofs.MarkedWithoutReferenceHasReason` | ai2apps/shared_model_cache.py:220-223 | a marked model without a reference was marked explicitly or had a reference unlinked: publishing alone never exposes it |
| `SharedCacheProofs.RaceExposesSnapshot` | ai2apps/shared_model_cache.py:331-349 | the exception: the same instance removing between reference and marker leaves the snapshot collectible |
| `SharedCacheProofs.BlockedOnlyByLeftovers` | ai2apps/shared_model_cache.py:382-426 | in a sound state only leftover temporary files stop a collection |
| `SharedCacheProofs.OrphanBlocksForEver` | ai2apps/shared_model_cache.py:389-391 | a leftover temporary file of a reference refuses every later collection and reconciliation, one of a marker every later collection |
| `SharedCacheProofs.CrashLeavesOrphan` | ai2apps/shared_model_cache.py:164-193 | a process that crashes leaves such a leftover exactly when one of its own temporary files is there at that moment |
| `SharedCacheProofs.CrashedPublicationOrphans` | ai2apps/shared_model_cache.py:210-240 | wherever a publication may begin, cutting it off behind the temporary file of its reference, or of its marker, gives that state |
| `SharedCacheProofs.EveryRunOwnsNames` | ai2apps/shared_model_cache.py:164-165 | over every run a temporary name belongs to one running process at most |
| `SharedCacheProofs.RefusedForEver` | ai2apps/shared_model_cache.py:382-426 | whenever the gate is free, a collection is refused exactly when there is such a leftover, and then in every later state |
| `SharedCacheProofs.FinishedCollection` | ai2apps/shared_model_cache.py:566-570 | however it orders its deletions, a finished collection ends in the same cache |
| `SharedCacheProofs.FinishedCollectionTakes` | ai2apps/shared_model_cache.py:545-570 | gone then are exactly the marked, unreferenced commit snapshots and the blobs linked from them and from no other commit snapshot |
| `SharedCacheProofs.CollectionCanFinish` | ai2apps/shared_model_cache.py:566-570 | a collection that has begun is never stuck |
| `SharedCacheProofs.OtherDirectories` | ai2apps/shared_model_cache.py:541-542 | a directory not named by a commit keeps its blobs exactly when it links to none that goes |
| `SharedCacheProofs.CutOffCollectionStrands` | ai2apps/shared_model_cache.py:566-570 | a collection may be cut off behind its last directory, and then strands every planned blob that no uncommitted directory links to |
| `SharedCacheProofs.StopStrandsIff` | ai2apps/shared_model_cache.py:566-570 | wherever it is cut off, exactly the blobs are stranded that are there and that no directory links to |
| `SharedCacheProofs.StrandedStays` | ai2apps/shared_model_cache.py:513-564 | until some import links to it again, a stranded blob stays over every run and no collection plans to remove it |
| `SharedCacheProofs.CrashedImportMayLoseBlobs` | ai2apps/model_installer.py:213-261 | such a loss happens: the staged directory of an interrupted import |
| `SharedCacheProofs.ImportIsOk` | ai2apps/model_installer.py:192-261 | an import links only blobs it found or added, so what it publishes is complete |
| `SharedImport.ImportEffect` | ai2apps/model_installer.py:192-261 | undisturbed, an import of a model that is not there adds the listed blobs and one snapshot linking to exactly these, and changes nothing else |
| `SharedImport.ImportAmongOthers` | ai2apps/model_installer.py:213-252 | however other processes interleave, the directory it publishes links to exactly the listed blobs; once it is through, the snapshot is there and the staged directory is not |
| `SharedImport.EveryRunKnowsNames` | ai2apps/model_installer.py:217 | over every run, staged directories of pinned commits belong to the process that made up their name: what the result before needs of the others |
| `SharedImport.FailedImport` | ai2apps/model_installer.py:253-261 | wherever an exception stops an import, of it only blobs stay |
| `SharedImport.FailedPublication` | ai2apps/shared_model_cache.py:164-195 | wherever an exception stops a publication, no temporary file stays, and the reference is there exactly when it was in place already |
| `SharedCacheProofs.ReconcileIsExact` | ai2apps/shared_model_cache.py:456-471 | an undisturbed reconciliation leaves exactly the expected references of its instance and every other instance's own |
| `SharedCacheProofs.ReconcileAmongOthers` | ai2apps/shared_model_cache.py:456-476 | interleaved with any other processes that leave its instance's references alone, a reconciliation that gets through leaves exactly the expected ones |
| `SharedCacheProofs.ReconcileCutShort` | ai2apps/shared_model_cache.py:462-471 | wherever it is cut off, no expected reference is lost and removal has not begun before all are published |
| `HubCache.SharedModelCache.Publish` | ai2apps/shared_model_cache.py:210-240 | reference first, marker last |
| `HubCache.SharedModelCache.Remove` | ai2apps/shared_model_cache.py:331-349 | tells whether there was something to remove |
| `HubCache.SharedModelCache.Reconcile` | ai2apps/shared_model_cache.py:434-476 | makes one instance's references the expected ones and counts both kinds of change |
| `HubCache.Plan` | ai2apps/shared_model_cache.py:513-564 | refuses exactly on leftovers and on a missing blob linked from a snapshot named by forty hexadecimal digits; otherwise the scan lists of these snapshots the referenced, the unmarked and the collected ones, and of the blobs those linked from collected ones alone |
| `SharedCache.CommitNames` | ai2apps/shared_model_cache.py:34 | the names that count as commits are those of forty characters, each one of 0-9 and a-f |
| `HubCache.SharedModelCache.Collect` | ai2apps/shared_model_cache.py:502-583 | refuses and reports as planned; takes away exactly the reported snapshots and blobs, and in a dry run nothing |
| `Reclaim.BuildLastLayers` | ai2apps/model_installer.py:656-673 | the last reader of every shard, -1 for none; an error exactly for an unknown shard |
| `Reclaim.LastReaderIsGreatest` | ai2apps/model_installer.py:657-665 | it is the greatest layer with a record in the shard |
| `Reclaim.Transition.ReclaimStreamShards` | ai2apps/model_installer.py:695-733 | the journaled loop ends as the step-by-step specification, and releases exactly the newly reclaimed shards |
| `Reclaim.Transition.ReplaceShard` | ai2apps/model_installer.py:714-731 | unlink, rename, journal; or only journal after a crash behind the rename |
| `Reclaim.RerunConverges` | ai2apps/model_installer.py:702-733 | a re-run from any crash point reaches the same files and journal as an uninterrupted run, given honest staged copies |
| `Reclaim.ManyCrashesConverge` | ai2apps/model_installer.py:702-733 | so do any number of crashes and re-runs |
| `Reclaim.RecoveryIff` | ai2apps/model_installer.py:714-721 | every crash point recovers exactly when the staged copies have the digests recorded for them |
| `Reclaim.WrongDigestStrands` | ai2apps/model_installer.py:716-719 | a staged copy with another digest can strand the re-run for ever |
| `Reclaim.FinishesIff` | ai2apps/model_installer.py:714-721 | a call finishes exactly when every due shard is staged or already in place |
| `Reclaim.FinishedShards` | ai2apps/model_installer.py:714-725 | a finished due shard is its prepared backbone, or gone when nothing of it stays |
| `Reclaim.TouchesOnlyDue` | ai2apps/model_installer.py:708-710 | wherever it stops, only unreclaimed shards whose last reader is done are touched |
| `Reclaim.BytesAreCountedOnce` | ai2apps/model_installer.py:728-731 | wherever it stops, the journal's byte count is the sum over its reclaimed shards, each once |
| `Conversion.ShardsOutliveTheirReaders` | ai2apps/model_installer.py:2461-2564 | over all crashes and re-runs a shard is replaced or deleted only after every layer that reads it has a committed store |
| `Conversion.ConversionReadsOriginals` | ai2apps/model_installer.py:2461-2550 | whenever a layer is converted, every shard it reads is still the original |
| `Conversion.FinishedHasReclaimedAll` | ai2apps/model_installer.py:736-740 | a finished conversion has reclaimed every shard, as committing the backbone index demands |
| `Conversion.FinishedRootIsBackbone` | ai2apps/model_installer.py:2461-2605 | over any crashes and re-runs and for any hash, a finished conversion leaves of every shard its staged backbone byte for byte, and of a shard without one nothing |
| `Conversion.FinishedRootIsPrepared` | ai2apps/model_installer.py:571-635 | so the source directory ends as the backbone checkpoint that was prepared |
| `Reclaim.StaysOnItsWay` | ai2apps/model_installer.py:702-733 | wherever a call stops, a staged copy is unchanged until it is in place, and its shard is journaled only then |
| `Conversion.EveryRunKeeps` | ai2apps/model_installer.py:2461-2577 | the invariant behind these, over every run |
| `Conversion.ConversionJob.Run` | ai2apps/model_installer.py:2461-2605 | the loop takes exactly the steps of that transition system, whichever store creation fails |
| `Conversion.ConversionJob.ConvertLayer` | ai2apps/model_installer.py:2461-2564 | reuse or create the store, record it, reclaim behind it |
| `TensorNames.TwoPrefixes` | ai2apps/model_installer.py:345-349 | the optional prefix gives one stacked tensor two names |
| `TensorNames.TwoNumerals` | ai2apps/model_installer.py:341-344 | leading zeros give one expert tensor two names |
| `TensorNames.ClassifyIs` | ai2apps/model_installer.py:339-354 | a name is dropped, a single expert's or a stacked tensor's exactly when its components have the shape written out for it, with the layer and expert numbers they spell; the Qwen shapes have other components and drop nothing |
| `TensorNames.ExternalizedIs` | ai2apps/model_installer.py:472-484 | left out of the backbone are exactly the names of these shapes |
| `TensorNames.NumeralsAreDigits` | ai2apps/model_installer.py:340-343 | a component spells a number exactly when it is its decimal notation behind any number of zeros |
| `Backbone.CopySubset` | ai2apps/model_installer.py:487-568 | fails exactly on missing or unreadable tensors; the copy holds each selected tensor's type, shape and bytes, packed without gap or overlap |
| `Backbone.CopyPayload` | ai2apps/model_installer.py:541-555 | chunked copying delivers the payload whatever sizes the reads deliver |
| `Backbone.CopyReadsTheSame` | ai2apps/model_installer.py:523-533 | every selected tensor reads the same from the copy |
| `Backbone.BuildBackbone` | ai2apps/model_installer.py:571-635 | the new index names exactly the indexed tensors whose name has none of the shapes that are left out, each reading the same; the manifest records which shards have a compact form, the digest and size of what was written, the source sizes and the total of the payloads; each compact shard is a packed copy |
| `Backbone.PreparedIsHonest` | ai2apps/model_installer.py:607-612 | so reclamation starts with honest staged copies |
| `Offsets.Locate` | ai2apps/model_installer.py:880-898 | locates every tensor; an error exactly when index and headers disagree |
| `Offsets.BuildTable` | ai2apps/model_installer.py:900-913 | of every expert class the spelling read last |
| `Offsets.RecordLayer` | ai2apps/model_installer.py:940-1000 | fails exactly when some part cannot be cut, sizes differ or pages do not align; otherwise the records of all experts, with one record size |
| `Offsets.BuildOffsets` | ai2apps/model_installer.py:868-1007 | succeeds exactly when the model type, and for Qwen the quantization, is the expected one, index and headers agree, tensors are named either per expert or stacked but not both, and records for exactly the expected experts and parts exist; returns these in order |
| `Offsets.LayoutByNames` | ai2apps/model_installer.py:916-920 | the layout is decided by the shapes of the tensors' names |
| `Offsets.CutPart` | ai2apps/model_installer.py:952-990 | one part of one expert: refused on a wrong type, shape or size, and otherwise the whole tensor or the expert's slice, with the type and shape the runtime wants |
| `Offsets.RecordNamesItsPart` | ai2apps/model_installer.py:944-953 | record k of an expert is cut from a tensor whose name spells that layer, that expert and the k-th part |
| `Offsets.PartsAreSorted` | ai2apps/model_installer.py:951 | the parts are all pairs of projection and kind, each once, in the order of sorted pairs |
| `Offsets.RecordFitsItsShape` | ai2apps/model_installer.py:958-983 | a record's bytes fit its announced type and shape whenever the tensor's did, for any type widths in which four eight-bit weights make one 32-bit word |
| `Offsets.ElementsGrow` | ai2apps/model_installer.py:958-973 | the number of elements of a shape is the product of its dimensions |
| `Offsets.RecordsAreSlices` | ai2apps/model_installer.py:958-968 | a stacked tensor's records are its consecutive equal slices, an expert's own tensor is one record |
| `Offsets.CoveredOnce` | ai2apps/model_installer.py:932-1000 | every byte of a recorded tensor lies in exactly one record |
| `Offsets.RecordsAreDisjoint` | ai2apps/model_installer.py:932-1000 | no byte of a shard lies in two records, if the source tensors do not overlap |
| `Offsets.NothingLostIff` | ai2apps/model_installer.py:900-913 | every routed tensor has records exactly when no two of them are spellings of one class |
| `Offsets.LostIffRespelled` | ai2apps/model_installer.py:900-913 | a routed tensor is in neither the backbone nor the records exactly when another spelling of it is read behind it |
| `Offsets.TwoPrefixesLoseOne` | ai2apps/model_installer.py:345-349 | the input: a stacked tensor with and without the optional prefix loses one of the two |
| `Offsets.TwoNumeralsLoseOne` | ai2apps/model_installer.py:341-344 | the input: an expert tensor with and without leading zeros loses one of the two |
| `Offsets.SplitLosesNothing` | ai2apps/model_installer.py:571-590 | with one spelling each tensor, also one without bytes, is, by the shape of its name, deliberately dropped, reads the same from the backbone, or has records that reproduce whatever bytes it has, and only one of these |
| `Offsets.LayerReadsItsRecords` | ai2apps/model_installer.py:657-665 | the storage transition sees a layer read a shard exactly when one of its records lies there |
| `Readiness.CheckpointsReadyIs` | ai2apps/model_providers.py:543-561 | the recursion on models and snapshots is the shared one; it terminates because the path grows inside the known models |
| `Readiness.CheckpointsReadyIff` | ai2apps/model_providers.py:543-561 | ready exactly when every helper reached exists and has its snapshot, and no cycle is reached |
| `Readiness.ReadyIff` | ai2apps/model_providers.py:1053-1066 | the recursion decides: all walks stay on existing, ready models and repeat none |
| `Readiness.RecipeBook.DependenciesReady` | ai2apps/model_providers.py:1053-1066 | the marking recursion computes that and restores its marks |
| `Readiness.RecipeBook.MarkNativeReadiness` | ai2apps/model_providers.py:1071-1073 | evaluated in place, every native recipe still gets its readiness on the initial flags; other flags stay |
| `Readiness.ClearingKeepsReady` | ai2apps/model_providers.py:1071-1073 | clearing flags of models that are not ready changes no readiness |
| `Readiness.OrderDoesNotMatter` | ai2apps/model_providers.py:1050-1073 | the order of the recipes does not matter |
| `EventStream.StreamBody` | ai2apps/cloud_gateway.py:539-610 | the buffer loop handles exactly the frames of what was received and keeps exactly what follows them; what goes out are the answers to the frames that are answered, one each and in order, with numbered tools and the last announced request id; the closing mark is sent exactly when no frame stops the generator |
| `EventStream.Drain` | ai2apps/cloud_gateway.py:546-547 | the inner loop cuts frames until no blank line is left |
| `EventStream.HandleFrame` | ai2apps/cloud_gateway.py:547-605 | the branches on one frame |
| `EventStream.FramesAreAnswered` | ai2apps/cloud_gateway.py:555-605 | frames of the five events with an object as data get one answer each, with the fields named for the event, a creation only with a request id; all other frames get none; a known event whose data are no object stops the generator, and nothing behind it is answered |
| `EventStream.TextArrives` | ai2apps/cloud_gateway.py:575-576 | the pieces of text that go out are, in order, the delta fields of the answered text frames |
| `EventStream.EventNameIs` | ai2apps/cloud_gateway.py:548-552 | the last event line names the event; without one it is "message" |
| `EventStream.DataLinesJoin` | ai2apps/cloud_gateway.py:549-554 | the data are those of the lines, in order |
| `EventStream.DataLinesOne` | ai2apps/cloud_gateway.py:553-554 | a line adds the trimmed text behind "data:", and any other line nothing |
| `EventStream.LinesAre` | ai2apps/cloud_gateway.py:550 | the lines joined by line feeds are the frame, and no line holds one |
| `EventStream.BreakIsFirst` | ai2apps/cloud_gateway.py:546-547 | the text is cut at the first two line feeds in a row, also when they are its end, and only if there are any |
| `EventStream.CutInTwo` | ai2apps/cloud_gateway.py:544-547 | cutting what arrived first and the rest later gives the frames of the whole |
| `EventStream.JoinIsInverse` | ai2apps/cloud_gateway.py:546-547 | frames and remainder joined again are the text |
| `EventStream.SameFramesIff` | ai2apps/cloud_gateway.py:544-547 | the chunks give the frames and remainder of the normalised whole exactly when no boundary splits a CR LF |
| `EventStream.ChunkingDoesNotMatter` | ai2apps/cloud_gateway.py:544-608 | for a text without CR, any division into chunks ends in the same state: request id, tool indices and everything sent, texts included |
| `EventStream.ChunkingOfCrLf` | ai2apps/cloud_gateway.py:544-608 | also with CR LF, while no boundary falls inside one |
| `EventStream.ToolsAreNumbered` | ai2apps/cloud_gateway.py:577-583 | tool indices are dense, distinct, in order of first appearance, and every chunk of a call carries its own |
| `EventStream.RequestIdIsLast` | ai2apps/cloud_gateway.py:560-576 | everything sent carries the request id announced last before it |
| `IdentityProofs.EpochsNeverDecrease` | ai2apps/identity.py:265-418 | over any steps the authority stays, nobody is forgotten, and no access, session, membership or account epoch goes back |
| `IdentityProofs.UpsertIsExact` | ai2apps/identity.py:420-504 | a well-formed snapshot that keeps the core role is refused exactly when some epoch would go back |
| `IdentityProofs.BindingIsExact` | ai2apps/identity.py:224-418 | a well-formed binding is refused exactly when it would change the authority or let some epoch go back |
| `IdentityProofs.UpsertKeepsIff` | ai2apps/identity.py:420-504 | a good token survives an accepted snapshot exactly when the snapshot leaves its owner's membership as it is |
| `IdentityProofs.SupersededIsNeverAuthorized` | ai2apps/identity.py:858-911 | once a current epoch exceeds one stored in a session, or the row is gone, that token is never authorised again |
| `IdentityProofs.AuthorizedIff` | ai2apps/identity.py:849-911 | in reachable states a session counts exactly before its expiry and before thirty days without a look-up, while its member is active in the active installation with the same role and no epoch exceeds its own |
| `IdentityProofs.SessionsEnd` | ai2apps/identity.py:866-872 | over every run a session stored at time t is refused from its lifetime on and from thirty days after its last successful look-up, and the look-up drops its row; before, time makes no difference |
| `IdentityProofs.ProjectionIsExact` | ai2apps/identity.py:506-616 | a well-formed projection of the bound installation that keeps its core account is refused exactly when some epoch would go back |
| `IdentityProofs.EveryRunKeeps` | ai2apps/identity.py:784-847 | no stored session or login in progress is ahead of the current epochs, however logins and updates interleave |
| `IdentityProofs.LookupOfDeadFails` | ai2apps/identity.py:849-911 | a look-up begun when its row is gone or superseded never succeeds, whatever happens between its transactions |
| `IdentityProofs.UndisturbedLookup` | ai2apps/identity.py:849-911 | undisturbed, the transactions of a look-up answer exactly when the session counts and write what a look-up writes |
| `IdentityProofs.RevokedDuringLookup` | ai2apps/identity.py:858-911 | a look-up that has read its row is decided by it: a revocation in between removes the row and leaves the answer |
| `IdentityProofs.UndisturbedLogin` | ai2apps/identity.py:784-847 | undisturbed, the transactions of a login store what the tables say of the member |
| `IdentityProofs.LoginCountsIff` | ai2apps/identity.py:784-847 | however others interleave, a new session counts exactly when its member is still active in the active installation with the role read and no epoch was raised behind the reads |
| `IdentityProofs.ReactivationRevives` | ai2apps/identity.py:447-503 | suspending without raising an epoch only pauses sessions: exactly reactivation at the same epochs revives them |
| `IdentityProofs.ProjectionDropsInactive` | ai2apps/identity.py:661-690 | a whole projection drops the sessions of everyone it does not keep active |
| `IdentityProofs.ProjectionKeepsIff` | ai2apps/identity.py:625-705 | a good token survives a projection exactly when nothing about its installation and owner changed |
| `IdentityProofs.RebindingIsIdempotent` | ai2apps/identity.py:265-418 | an accepted binding is accepted again and changes nothing more |
| `IdentityProofs.UpsertIsIdempotent` | ai2apps/identity.py:447-503 | an accepted snapshot is accepted again and changes nothing more |
| `IdentityProofs.ProjectionIsIdempotent` | ai2apps/identity.py:560-707 | an accepted projection is accepted again and leaves installation and members as they are |
| `IdentityRepository.IdentityRepository.BindInstallation` | ai2apps/identity.py:224-418 | binds or refreshes; the two refusals behind the update of the installation roll it back, so on any refusal nothing changes |
| `IdentityRepository.IdentityRepository.UpsertMembership` | ai2apps/identity.py:420-504 | accepted exactly when well-formed, bound, the core role is kept and no epoch goes back; then that member's row is the snapshot, with the old account epoch where it gives none, and nothing else changes, sessions included; on any refusal nothing changes |
| `IdentityRepository.IdentityRepository.ApplyAccessProjection` | ai2apps/identity.py:506-707 | refused by the checks in their order; otherwise the member loop, the loop over missing members and the session rules together make the projected tables; on any refusal nothing changes |
| `IdentityRepository.IdentityRepository.DeactivateInstallation` | ai2apps/identity.py:723-740 | suspends or revokes and drops every session |
| `IdentityRepository.IdentityRepository.CreateLocalSession` | ai2apps/identity.py:784-847 | only with a lifetime within 365 days and for an active member of the active installation; the new session ends after its lifetime, is authorised at once, and no other row changes |
| `IdentityRepository.IdentityRepository.AuthorizeLocalSession` | ai2apps/identity.py:849-911 | answers exactly when the session counts, and then notes the time; drops the row when its expiry or thirty days without a look-up have come, or when it is superseded |
| `IdentityRepository.IdentityRepository.RevokeLocalSession` | ai2apps/identity.py:948-959 | the token is worthless from then on |

## Left out

- HTTP, source probing, source rates and progress reporting: a source either delivers a verified
  payload or fails. A strict-range source is taken to return the requested length.
- Signatures, canonical JSON, consent and licence fields and the path and digest syntax checks of
  the manifest parser.
- The power-of-two test is modelled by its meaning, not by its bit mask.
- Hard links, permissions, `fsync` and symbolic-link safety checks: files are byte sequences and a
  rename is one step.
- The writing of the manifest after promotion.
- Downloader.PieceDownloadScheduler.Download: a piece's fetch is one step, and probing the sources is
  the given set of files with a usable one.
- Timestamps of finished tickets, size estimates passed to the resource manager, and how `asyncio`
  cancels a waiter: only the lock-held sections and the order of the clean-up calls are modelled.
  `owns_active_request` only reads. The snapshot's list of tickets carries their names only.
- The default timeout from the resource manager's configuration: callers of `Acquire` pass the
  effective one.
- WorkerScheduler.WorkerJobScheduler.Acquire: the new ticket's name is an argument that was never
  used before, standing for a random one.
- In the cache a reference's file name is its model, that is, the digest used as the file name is
  taken to be free of collisions; the per-revision lock of an import is not needed for the results
  and left out; removing a staged directory is one step.
- SharedImport.ImportAmongOthers: imports are of revisions that are commits' names, as every reference's
  has to be; the installer pins them before it imports.
- SharedCacheProofs.ReconcileIsExact: reconciliation reads the references in one step; another
  process changing references of the same instance while they are read is not modelled. What others
  do to other references meanwhile makes no difference (`ReconcileAmongOthers`).
- Nothing is said about how soon a collection that keeps being cut off comes to an end.
- `resume_storage_transition`, `commit_backbone_index` and the release of the Hugging Face cache
  revision: they are not re-runnable throughout or depend on a foreign library.
- Conversion.ConversionJob.Run: committed stores are taken to stay valid, and re-runs to be of the
  same recipe; how a store is written is left open, it either becomes valid or is gone. The
  intermediate split stores of the Qwen 3.6 conversion are part of creating a store.
- Tensor names are given cut at their dots, with ASCII digits.
- Offsets.BuildOffsets: the fields of `config.json` are given, its counts as natural numbers.
- Backbone.BuildBackbone: the other keys of the index and the files' JSON text; the shards come in a
  given order, for which the program sorts their names.
- Readiness of models that are not Package models, and the rest of the recipe records.
- White-space trimming, JSON decoding, the naming of stop reasons and the error object in the event
  stream are arbitrary functions; fields are taken as texts, an absent or falsy one as missing.
- SQLite and identifier syntax; tokens are values never stored before. A transaction is one step, and
  its rollback restores the tables.
- IdentityRepository.IdentityRepository.CreateLocalSession: the method is undisturbed; the steps
  `ReadPrincipal`, `ReadInstallation`, `ReadMembership` and `Insert` of `Identity.Next` are its
  transactions (`UndisturbedLogin`, `LoginCountsIff`).
- IdentityRepository.IdentityRepository.AuthorizeLocalSession: the method is undisturbed; the steps
  `BeginLookup` and `ContinueLookup` are its transactions (`UndisturbedLookup`, `LookupOfDeadFails`).
  Refreshing a session composes a look-up, a login and a revocation.
