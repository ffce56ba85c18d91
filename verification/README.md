# DenKit Stash: verified model of the archive cache, the build lifecycle and resumable uploads

The project models three parts of the server and proves properties of the model with Dafny 4.11.

**The archive cache and the build lifecycle** are one state machine (`Server.dfy`). Its state is the
database rows, the object store, the advisory locks and the local variables of every running process;
one step is one database or storage call of one process. The processes are `ensureArchive` with the
rebuild, `evictArchive`, one round of `sweepEvictedObjects`, and `checkAndUpdateBuildState` with the
archive generation; a generation on top of a parent waits for its nested request, which is served by a
process of its own. Any interleaving is a run, every call may fail, a process may crash after any call,
and the store may lose the patch object of a build whose archive is warm. The invariant
(`ServerInvariant.dfy`) is proved by rely and guarantee: each process has an assertion about the rows it
works on, and no step of another process disturbs it (`ServerSteps.dfy`, `ServerRuns.dfy`).

**The code in its own form.** `ArchiveHandlers.dfy` and `ArchiveGc.dfy` hold the same operations as
methods of classes that loop over and assign to rows, objects, locks and counters. A ghost copy of the
machine makes every call along with them, so each state these methods pass through is a reachable state
of the machine, and all results about runs hold there too.

**Resumable uploads** (`UploadSession.dfy`, `ContentRange.dfy`) are a class with the session row, the
session file and the stored object; `Put` is proved against a specification with int64 wrap-around, and
results about arbitrary sequences of requests are proved about that specification.

Around these: `Trees.dfy` (patches, containers, the fold of every patch from the empty tree), `Pushes.dfy`
(what a client pushes is what is kept),
`RebuildPlan.dfy`, `RebuildChain.dfy` and `ServerRebuild.dfy` (the chain a rebuild needs, base
independence, when a rebuild succeeds), `UpgradePath.dfy`, `Filenames.dfy`, `Formats.dfy`, `LockKeys.dfy`.

`dafny verify dfyconfig.toml` checks everything.

## Where the code does less than one would hope

Each of these is a concrete run or input in the project, next to the exact condition under which the
property does hold.

- A build can become its channel's head twice, and a current head's archive can be evicted
  (`Races.CrownedTwice`, `Races.HeadIsEvicted`): completion and the advance of the head are two calls, two
  finalizers can both complete a build, and the guard on heads can be passed between the two calls. Neither
  happens after settled events: a build is completed only while it was never head, never evicted, and no
  other process is making it head or is past the guard on its way to evict it; and that guard is not passed
  by a build that another process is about to make head (unless its patch object is gone). The condition is
  exact: after settled events, an event is settled if and only if settled events after it can harm no head
  (`Races.SettledIsExact`). A second completion after the first finalizer died before the head's advance is
  settled. A transaction is enough: when the completion and the advance are one step, and a build that is
  completed already is not completed again, every run is settled (`ServerHeads.TransactionalRunsAreSettled`).
  The one step alone is not enough, because two finalizers may both have read the state `processing`: the run
  of `CrownedTwice` has it. Completing only once alone is not enough either: the run of `HeadIsEvicted` does.
- A second look at the cache that fails reads as a cold archive, so a warm archive is rebuilt; if its patch
  object was lost the build is gone for good (`Races.SecondLookIsNeeded`). Over every run, rebuilds and
  evictions balance exactly as long as no uploaded row is marked for rebuilding
  (`ServerCaching.EveryRebuildPaysForOneEviction`), and all completed builds are available exactly as long as
  that has not happened to one whose patch object is gone (`ServerAvailability.CompletedBuildsAreAvailable`).
  The guard that is missing is in `rebuildArchive`: after careful events, an event keeps the balance for good
  if and only if it does not pass the check of a completed build whose row is uploaded
  (`Races.CarefulIsExact`). It is enough that at the second look the row exists and, when it is uploaded, the
  look is answered (`ServerCaching.OrderlyRunsAreCareful`).
- A generation whose parent's archive is evicted again between the nested request and the reading fails its
  build, although its patch fits and every call succeeds (`ParentRace.ParentIsMissed`; wherever an eviction of
  a head is past its guards a push can end so, `ParentRace.HeadRaceFailsChild`).
  `ServerFinalize.FinalizersDecide` says exactly when a build ends completed and when failed. Nothing is missed
  while the parent's row stays uploaded (`ServerParents.StayingParentDecides`), so in careful and settled runs
  while the parent is still the head of its channel (`ServerParents.HeadParentDecides`).
- A chunk that ends at the largest int64, sent without a total and with a body of that length, makes the
  persisted size negative (`UploadSession.LongBodyWraps`); this is the only such request
  (`UploadSession.SizeIsKept`).
- A sanitized file name can be 81 characters long although the code's constant is 80
  (`Filenames.EightyOneIsReached`).
- Builds whose ids are 2^32 apart share an archive lock (`LockKeys.LocksAreDistinct`).

## Assumptions

- There is one row per build, file type and subtype; clients upload `patch/default` and
  `signature/default` only, not `archive/default` (`CreateBuildFile` does not check the type).
- A file row is finalized only while it is `uploading` (`FinalizeBuildFile` does not check the state).
- Build ids are issued in the order of the inserts.
- A failed call has no effect, `Head` tells the truth, archive objects go only by the server's own deletes, deleting an absent object succeeds, uploaded
  archives have positive size, and an upload of given size stores exactly that many bytes or nothing.
- A connection, and with it the advisory lock, is lost only with its process.
- Trees do not contain the name under which the downloaded archive is kept during extraction
  (`Formats.MaterializedIsTree` shows that this is needed). The packing format of an archive may be any of
  the four, chosen anew at every upload.
- Requests on one upload session do not overlap, and the session file survives a crash.
- Characters beyond ASCII are left as they are by the model's lower-casing.

## Model

| member | source | states |
|---|---|---|
| ServerRuns.EventKeeps | handlers/wharf_rebuild.go:35-265 | every single call, failure, crash, request, listing, finalization or loss keeps the invariant of tables, locks and all processes |
| ServerRuns.RunKeeps | handlers/wharf_rebuild.go:35-265 | the invariant holds in every state of every run, over all interleavings and crashes |
| ServerRuns.ReachableIsOnARun | handlers/wharf_rebuild.go:35-265 | the reachable states, which the methods of the classes pass through, are exactly the states of runs |
| ServerInvariant.Rely | handlers/wharf_rebuild.go:40-58 | whatever one process may do to the shared rows and objects, what another one knows about the rows it works on stays true, although no ancestor lock is held |
| ServerSafety.UploadedArchivesAreExact | handlers/wharf_rebuild.go:190-201 | an archive row in state uploaded points to a present object in the format of its path whose tree is the fold of every patch from the root |
| ServerSafety.ArchivedBuildsMatch | handlers/wharf_archive.go:314-330 | in every reachable state a build that is completed or has an archive row was pushed whole: patch and signature finalized and not empty, a root's patch made for the empty tree, a child's for the tree its parent's signature lists, and each making the tree its own signature lists |
| ServerSafety.ArchivesHoldSignedFiles | handlers/wharf_archive.go:217-222 | an uploaded archive holds exactly the files that its build's signature lists |
| Pushes.DiffIsApplied | handlers/wharf_archive.go:197-215 | a patch made between any two trees, of copied beginnings and ends of old files and sent data, applies to the first and gives the second |
| Pushes.PushedIsServed | handlers/wharf_archive.go:94-128 | in every reachable state, an uploaded archive whose lineage was pushed as such patches with the signatures of their trees holds exactly the tree that was pushed |
| ServerSafety.AnswersHeldTheTree | handlers/wharf_rebuild.go:35-59 | a request racing with evictions and rebuilds of its build or any ancestor returns only a path that held exactly the build's tree at some instant of the request |
| ServerSafety.ParentsAreCompletedElders | handlers/wharf_builds.go:127-149 | in every reachable state a parent exists, has a smaller id and the same upload and channel, and is completed |
| ServerSafety.ChildrenComeAfterCompletion | handlers/wharf_builds.go:130-149 | the parent was completed before the child's row was inserted |
| ServerSafety.NewBuildsFollowTheHead | handlers/wharf_builds.go:127-149 | a new build is started, without files or row, and its parent is what the head of its channel was when the request read it |
| ServerSafety.BuildsMoveForward | handlers/wharf_archive.go:60-91 | no run returns a build to started, undoes a completion or changes a parent |
| ServerSafety.OneGenerationPerBuild | handlers/wharf_archive.go:60-78 | over a build's lifetime at most one claim succeeds and at most one archive row is inserted, and the recursion ends at depth two |
| ServerSafety.RowWritesHoldTheLock | models/postgres.go:601-650 | every change of an archive row is made by the holder of that build's lock, or is the insert of the one process generating it |
| ServerSafety.DeletesHoldTheLock | handlers/archive_gc.go:147-168 | an object disappears only by a call of its build's lock holder while the row says evicted |
| ServerSafety.NoHoldAndWait | models/postgres.go:621-650 | a process holding an archive lock waits for no lock and for no nested request, and holds no other lock, so no wait cycle exists |
| ServerCaching.EveryRebuildPaysForOneEviction | handlers/wharf_rebuild.go:40-58 | over every run, a build's successful rebuilds, plus one if its archive is cold now, equal its eviction marks if and only if no uploaded row of it has been marked for rebuilding |
| ServerCaching.BalanceCountsRemarks | handlers/wharf_rebuild.go:98-128 | over every run, rebuilds plus one if cold less evictions is the number of times an uploaded row was marked for rebuilding |
| ServerCaching.CarefulRunsBalance | handlers/wharf_rebuild.go:98-106 | when no rebuild passes its check on an uploaded row, the balance holds in every state |
| ServerCaching.OrderlyRunsAreCareful | handlers/wharf_rebuild.go:53-58 | when at the second look the row exists and, if uploaded, the look is answered, no rebuild passes its check on an uploaded row |
| ServerAvailability.CompletedBuildsAreAvailable | handlers/archive_gc.go:131-155 | over every run, with patch objects of warm builds being lost: all completed builds are available (warm, or with their patch and every link stored up to the nearest warm ancestor or the root) if and only if no uploaded row without its patch object has been marked for rebuilding |
| ServerAvailability.LossIsForGood | handlers/wharf_rebuild.go:98-141 | a build lost by such a mark is unavailable in every later state of the run |
| ServerAvailability.NoCompletedBuildIsLost | handlers/archive_gc.go:131-155 | so in careful runs, whatever the store loses, every completed build is available |
| ServerAvailability.CompletedIsAvailableInEveryRun | handlers/archive_gc.go:131-155 | and while the store loses nothing, in every run at all |
| Races.CarefulIsExact | handlers/wharf_rebuild.go:98-128 | after careful events, an event does not pass the rebuild check on an uploaded row if and only if the balance holds in every state that careful events after it lead to |
| Races.SecondLookIsNeeded | handlers/wharf_rebuild.go:53-58 | a run from the empty server in which a failed second look makes a warm archive cold without an eviction and leaves a completed build unavailable |
| ServerRebuild.CompletedIsServable | handlers/wharf_rebuild.go:143-245 | over every run in which no build has been lost for good, a completed cold build can be rebuilt exactly when at most 10000 links separate it from its nearest warm ancestor or the root |
| ServerRebuild.RebuiltIsFold | handlers/wharf_rebuild.go:143-207 | in every state of every run, the tree a rebuild of a completed build stores is the fold of every patch from the root |
| RebuildPlan.PlanIsUnique | handlers/wharf_rebuild.go:213-245 | there is at most one chain and base a rebuild can use |
| RebuildPlan.CyclesHaveNoPlan | handlers/wharf_rebuild.go:17-18 | whatever other rows there are, cold builds on or above a cycle of parent rows have no such chain |
| RebuildPlan.PlanExistsIffShort | handlers/wharf_rebuild.go:213-245 | an available build has such a chain exactly when its cold stretch has at most 10000 links |
| RebuildChain.ReplayedIsFold | handlers/wharf_rebuild.go:143-207 | whatever warm base the replay starts from, if any, it ends with the fold from the empty tree |
| RebuildChain.ReplayMatchesContainers | handlers/wharf_archive.go:196-224 | in a successful replay the first patch's target container is the base's signature container, or empty when there is no base, each later one's is the previous build's, and every source container is its own signature's |
| RebuildChain.ReplaySucceedsIffStored | handlers/wharf_rebuild.go:170-188 | in a reachable state the replay of a completed build's chain gives its fold exactly when all its patch objects are stored, and fails otherwise |
| Trees.FoldSurvivesGrowth | handlers/wharf_archive.go:160-224 | new builds and newly finalized files never change the fold of a build that has one |
| ArchiveHandlers.Handlers.WarmArchive | handlers/wharf_rebuild.go:63-79 | answers the path of an uploaded row, and when no call fails exactly when the object is present; otherwise moves on to the lock or the rebuild |
| ArchiveHandlers.Handlers.EnsureArchive | handlers/wharf_rebuild.go:35-59 | through reachable states only: an answer holds the build's tree; when no call fails, an archive that is there is returned and nothing changes, and with the lock free there is an answer exactly when the archive is warm or can be rebuilt; without the lock nothing changes; otherwise only the build's row and one fresh object do; the lock is given back; a failed rebuild leaves an evicted row as it was and any other one marked as rebuilding |
| ArchiveHandlers.Handlers.RebuildArchive | handlers/wharf_rebuild.go:98-141 | only of a completed build: the row becomes uploaded under the fresh key, or, when that fails, evicted as before if it was evicted, else it stays rebuilding; whatever calls fail, these, the mark alone, and an evicted row with the new path are all it can leave; succeeds exactly when the build is completed and its plan can be replayed |
| ArchiveHandlers.Handlers.WalkParents | handlers/wharf_rebuild.go:213-233 | over any rows, cyclic parents included, the walk ends; a chain of at most 10001 builds leads from a root or the child of a warm build to the build, whatever looks fail, and when no call fails it is the whole cold walk, or there is no plan |
| ArchiveHandlers.Handlers.CollectRebuildChain | handlers/wharf_rebuild.go:213-245 | over any rows, cyclic parents included, it ends; when no call fails it returns a plan (1 to 10001 builds, parent-contiguous, oldest first, no warm build inside, from a root or the child of a warm base, every link with both rows) exactly when there is one |
| ArchiveHandlers.Handlers.ReadBase | handlers/wharf_rebuild.go:249-265 | the tree of the warm base and its signature container, or None exactly when one of them is not there |
| ArchiveHandlers.Handlers.ApplyPatchStep | handlers/wharf_archive.go:160-224 | the patched tree exactly when both files are stored, the patch was made for the expected tree, or for the empty one when none is expected, it makes the tree its signature lists, and it applies |
| ArchiveHandlers.Handlers.ReplayArchiveChain | handlers/wharf_rebuild.go:143-207 | stores a fresh archive and the uploaded row exactly when the chain can be replayed; otherwise the row is untouched and its copy says what to revert |
| ArchiveHandlers.Handlers.CheckAndUpdateBuildState | handlers/wharf_archive.go:30-92 | leaves a build alone whose patch or signature is not finalized or empty; when no call fails and the parent's lock is free: fails a build with a failed file; completes one that has its archive and makes it the head; generates the archive of a started one and completes it exactly when its patch matches and applies and the parent's archive is warm or can be rebuilt, and fails it otherwise; touches no row but the build's and its parent's, and nothing of a completed or failed build |
| ArchiveHandlers.Handlers.EnsureParent | handlers/wharf_archive.go:477-482 | the nested request, served by a process of its own: the generation goes on with an uploaded row or fails; when no call fails and the parent's lock is free, the parent's archive is made warm exactly when it is warm or can be rebuilt |
| ArchiveHandlers.Handlers.GenerateTree | handlers/wharf_archive.go:97-128 | with the nested request first, also over a cold parent: the tree is the fold of every patch from the root, and, when no call fails and the parent's lock is free, there is one exactly when the patch is stored, matches and applies and the parent's archive is warm or can be rebuilt |
| ArchiveHandlers.Handlers.GenerateArchive | handlers/wharf_archive.go:97-150 | inserts an uploaded row exactly in that case; otherwise no row appears |
| ArchiveHandlers.Handlers.ClaimBuild | models/postgres.go:397-409 | succeeds exactly on a started build, which becomes processing, and hands the generation to the caller |
| ArchiveHandlers.Handlers.CompleteBuild | handlers/wharf_archive.go:87-92 | the state becomes completed before the head moves, and the head moves only to this build |
| ServerFinalize.FinalizersDecide | handlers/wharf_archive.go:30-128 | both files finalized with content and all calls of the checks successful: for every interleaving, once no check is left the build was claimed once, and it is completed with exactly one archive row inserted if and only if its patch matches and applies on top of its parent, the nested request was answered and the parent's archive was still there when the generation read it; otherwise it is failed with none |
| ServerFinalize.MismatchFails | handlers/wharf_archive.go:314-330 | then a build whose patch was made for another tree than its parent's, or of a root for a tree that is not empty, or makes another tree than its signature lists, is failed |
| ServerParents.StayingParentDecides | handlers/wharf_archive.go:97-128 | if the nested request is attended to and the parent's row stays uploaded until its archive has been fetched, the build is completed exactly when its patch matches and applies, and failed otherwise |
| ServerParents.HeadParentDecides | handlers/wharf_archive.go:97-128 | the same in careful and settled runs while the parent is still its channel's head |
| ServerParents.NothingIsReadUnanswered | handlers/wharf_archive.go:477-482 | a generation on top of a parent reads nothing before its nested request was answered with a path that held exactly the parent's tree at an instant of that request |
| ParentRace.HeadRaceFailsChild | handlers/archive_gc.go:120-155 | in every reachable state in which the eviction of a channel's head is past its guards, a build that fits on top of the head can be pushed, be answered by its nested request with all calls successful, and fail |
| ParentRace.ParentIsMissed | handlers/wharf_archive.go:477-482 | a run from the empty server in which the nested request is answered, the eviction's mark follows, the generation misses the parent and the build ends failed |
| ServerHeads.CrownedAtMostOnce | handlers/wharf_archive.go:593-602 | after settled events a build has become its channel's head at most once |
| ServerHeads.HeadsAreNeverEvicted | handlers/archive_gc.go:120-155 | after settled events, with listing, guards and mark as separate calls, the archive of a build that is a head has never been marked, and the next call does not mark it |
| ServerHeads.HeadsAreWarm | handlers/archive_gc.go:120-124 | after settled events a channel head is warm exactly when it was rebuilt as often as its uploaded row was marked for rebuilding, so in careful runs always |
| ServerHeads.TransactionalRunsAreSettled | handlers/wharf_archive.go:83-91 | when completion and head advance are one step and no completed build is completed again, every event of the run is settled |
| Races.SettledIsExact | handlers/archive_gc.go:92-155 | after settled events, an event is settled if and only if no settled events after it make a build head twice or evict a current head |
| Races.UnsettledCompletionHarms | handlers/wharf_archive.go:87-91 | in every state that keeps the invariant, completing a build that was head or evicted before, that another process is making head, or that one past the guard will evict, can be followed by a second crowning or an evicted head |
| Races.UnsettledGuardHarms | handlers/archive_gc.go:120-155 | in every state that keeps the invariant, passing the guard on heads with a build that is about to become one can be followed by the eviction of the head |
| Races.CrownedTwice | handlers/wharf_archive.go:83-91 | a run from the empty server in which two finalizers make one build the head twice, although each completes it and advances the head in one step |
| Races.HeadIsEvicted | handlers/archive_gc.go:120-155 | a run from the empty server that evicts a current head, although no build is completed twice |
| ArchiveGc.Gc.EvictArchive | handlers/archive_gc.go:92-169 | for every pattern of failing calls, the row, the object and the counters are what the outcome says, and the outcome is decided by the calls, the lock and the row |
| ArchiveGc.OutcomesMean | handlers/archive_gc.go:92-169 | what each outcome is and does, call by call: a taken lock is a skip, a failing lock or read an error, a failing guard or an archive that may not be evicted a skip, a failing mark or delete an error, the latter with the row marked; else the object is gone, and the path when it could be cleared |
| ArchiveGc.Gc.Inspect | handlers/archive_gc.go:105-145 | under the lock the row is evicted exactly when every look succeeds, it is uploaded with a path and was last used at least the TTL ago, the build is completed and no head, and patch and signature are stored |
| ArchiveGc.Gc.MarkAndDelete | handlers/archive_gc.go:147-168 | mark, delete, clear in this order: a failure in between leaves an evicted row that still has its path |
| ArchiveGc.Gc.SweepOne | handlers/archive_gc.go:180-198 | an interrupted delete is finished and its path cleared, exactly when lock, read, delete and update succeed |
| ArchiveGc.Gc.RowsInTheirTerms | models/postgres.go:542-568 | in the rows' own terms: only uploaded archives of completed builds that head no channel and were last used more than the TTL ago are selectable; with a path, patch and signature stored and a free lock they may be evicted; those of heads, of builds not completed, without patch object or used later may not |
| ArchiveGc.Gc.ListEvictable | models/postgres.go:542-568 | only selectable rows, each once, least recently used first, up to the limit, and none left out that was used before a listed one |
| ArchiveGc.Gc.ListLeftovers | models/postgres.go:570-591 | only evicted rows that still have a path, each once, and all of them when the limit is not reached |
| ArchiveGc.Gc.EvictPass | handlers/archive_gc.go:74-86 | the candidates are selectable rows, least recently used first, none passed over unless the limit or the rounds are used up; each outcome is the one its calls, its lock and its archive call for; rows, objects and counters are what the outcomes say |
| ArchiveGc.Gc.RunArchiveGCOnce | handlers/archive_gc.go:71-90 | through reachable states only: the whole new state after evictions and sweep, which clears at most 1000 rows; an archive uploaded with a path, of a completed build that is no head, with patch and signature stored, last used more than the TTL ago, with a free lock and successful calls, is freed unless the limit or the rounds end first; only uploaded archives of completed builds that are no heads and were last used more than the TTL ago are listed; archives of heads, of builds not completed, without patch object or used later stay as they are; the counters add up, and an undisturbed sweep leaves no interrupted delete |
| ArchiveGc.CountersAddUp | handlers/archive_gc.go:30-37 | each candidate is counted once as evicted, skipped or failed, errors exceed this by the paths that could not be cleared, and bytesFreed is the size of the deleted objects |
| UploadSession.Uploads.Put | handlers/wharf_upload_sessions.go:34-165 | session and reply after one request, for every header, body and failing call |
| UploadSession.Uploads.AppendChunk | handlers/wharf_upload_sessions.go:108-164 | truncate, append, then row update or commit; the second comparison with the total can never fail |
| UploadSession.Uploads.Commit | handlers/wharf_upload_sessions.go:178-194 | exactly the first size bytes of the file are stored before the session is completed |
| UploadSession.Int64Wraps | handlers/wharf_upload_sessions.go:62-90 | sums wrap around as int64, and numbers too long for it are read as the largest one |
| UploadSession.RepliesAreTrue | handlers/wharf_upload_sessions.go:34-165 | done is answered exactly when the session is completed, a resume reply names the new size, and a refusal (400, 413 or 500) leaves the size as it was |
| UploadSession.CompletionHasTotal | handlers/wharf_upload_sessions.go:62-75 | a request that completes a session has declared a total, which is then the size, within the quota, and the number of bytes stored |
| UploadSession.EmptyFinalDecides | handlers/wharf_upload_sessions.go:55-78 | an empty final range finishes only when start, total and persisted size agree; otherwise the session is unchanged and the reply is 413 or the resume range |
| UploadSession.ChunksAreRefused | handlers/wharf_upload_sessions.go:80-107 | which chunks are told where to resume, and which are refused with 400 or 413, the session being unchanged |
| UploadSession.ChunkIsAppended | handlers/wharf_upload_sessions.go:108-164 | an accepted chunk follows the persisted bytes in the file; then the size moves on, or, with a total, the file is stored and the session completed |
| UploadSession.ChunkIsNotTaken | handlers/wharf_upload_sessions.go:108-164 | a body that is too short is refused with 400 and a failing call with 500; size, state and, but for a failing completion mark, stored object stay |
| UploadSession.UnmarkedIsStored | handlers/wharf_upload_sessions.go:185-192 | when only the completion mark fails, the file is stored and the session can be finished later |
| UploadSession.LostBytesAreZero | handlers/wharf_upload_sessions.go:119-130 | a session file shorter than the persisted size is filled up with zeros before the chunk is written |
| UploadSession.AcceptedChunks | handlers/wharf_upload_sessions.go:80-107 | a chunk is accepted exactly when it starts at the persisted size, is an inclusive range as in section 14.4 of RFC 9110, ends within the quota and fits its total, or ends at the largest int64 without a total |
| UploadSession.SizeIsKept | handlers/wharf_upload_sessions.go:90-147 | the size stays between its old value and the quota for every request but the overflowing ones, and for none of those |
| UploadSession.ShortBodiesKeepSize | handlers/wharf_upload_sessions.go:90-147 | bodies shorter than 2^63 minus the quota never overflow |
| UploadSession.LongBodyWraps | handlers/wharf_upload_sessions.go:90-147 | under any quota there is a request that makes the size negative |
| UploadSession.RunKeepsSize | handlers/wharf_upload_sessions.go:80-147 | over a whole run of such bodies the size never exceeds the quota and never decreases |
| UploadSession.CompletedUploadsAreExact | handlers/wharf_upload_sessions.go:34-194 | over every run of requests agreeing with one source, retried, short, long, failing or cut by crashes, a completed session has stored exactly the first size bytes of the source |
| UploadSession.RetryIsHarmless | handlers/wharf_upload_sessions.go:45-88 | repeating a request that took effect changes nothing and is told the current size, or that the upload is done |
| UploadSession.RestCompletes | handlers/wharf_upload_sessions.go:52-88 | after any trouble, asking for the size and sending the rest of the source from there, or the empty final range when every byte is there, completes the upload, unless the source is empty and no request has made a file |
| UploadSession.CompletedIsFinal | handlers/wharf_upload_sessions.go:42-45 | a completed session never changes again |
| ContentRange.ParsedTextMatches | handlers/wharf_support.go:105-108 | a header is understood as a chunk or an empty final range exactly when it matches the pattern for it |
| ContentRange.RangesRoundTrip | handlers/wharf_upload_sessions.go:47-82 | the ranges a client writes are read back as they were meant |
| ContentRange.HeadersOfAnUpload | handlers/wharf_upload_sessions.go:47-82 | the headers of an upload of 150 bytes in two chunks, literally |
| ContentRange.ResumeOffsetIsSize | handlers/wharf_upload_sessions.go:171-176 | a client that reads the resume header goes on at exactly the persisted size |
| UpgradePath.ResolveUpgradePath | handlers/wharf_downloads.go:174-205 | on every forest it ends, with the path from installed to target exactly when there is one in the target's upload and channel with all patches uploaded |
| UpgradePath.ReverseInPlace | handlers/wharf_downloads.go:196-198 | the array is reversed |
| UpgradePath.PathIsUnique | handlers/wharf_downloads.go:174-205 | there is at most one upgrade path between two builds |
| UpgradePath.PathsCompose | handlers/wharf_downloads.go:174-205 | the path from a to b followed by the path from b to c without its first build is the path from a to c |
| UpgradePath.PathsSplit | handlers/wharf_downloads.go:174-205 | a path cut at a build on it gives the paths to and from that build |
| UpgradePath.UpgradesGiveTarget | handlers/wharf_downloads.go:199-204 | applying the patches along the path to the installed build's tree gives the target's tree |
| UpgradePath.UpgradeExistsIffAncestor | handlers/wharf_downloads.go:174-205 | in every reachable state there is a path exactly when installed is the target or an ancestor of it and the target's own patch is uploaded |
| Filenames.SanitizeFilenamePart | handlers/wharf_downloads.go:289-311 | the loop with its pending dash computes the specified string |
| Filenames.SanitizedIsClean | handlers/wharf_downloads.go:289-311 | the result has only letters, digits, dots, underscores and single dashes, is empty or begins and ends alphanumeric, and has at most 81 characters |
| Filenames.RunsCollapse | handlers/wharf_downloads.go:293-306 | a run of characters other than letters, digits, dots and underscores is as good as a single dash |
| Filenames.EdgesAreDropped | handlers/wharf_downloads.go:293-310 | at either end such a run is as good as nothing |
| Filenames.TidyIsTrimmed | handlers/wharf_downloads.go:289-311 | of kept characters with single dashes between them, within the limit, only the punctuation at the ends is dropped |
| Filenames.LongIsCut | handlers/wharf_downloads.go:306-308 | after 80 of them, whatever follows is cut off |
| Filenames.FixedIffClean | handlers/wharf_downloads.go:283-311 | the strings left alone are exactly those of letters, digits, dots, underscores and single dashes that begin and end with a letter or digit and have 80 characters, or 81 with the dash in the 80th place |
| Filenames.SanitizingTwiceIsOnce | handlers/wharf_downloads.go:283-311 | sanitizing is idempotent |
| Filenames.EightyOneIsReached | handlers/wharf_downloads.go:290-308 | there is a result of 81 characters |
| Filenames.SanitizedKeepsOrder | handlers/wharf_downloads.go:294-311 | apart from dashes the result is a stretch of the input's kept characters in order, lacking only punctuation at its ends when nothing is cut for length |
| Formats.FormatIsReadBack | handlers/wharf_archive.go:389-405 | a format written after the last dot of any file name is read back from the path |
| Formats.NormalizingIsStable | handlers/wharf_archive.go:374-387 | the four format names are kept by normalization |
| Formats.NamesAreNormalized | handlers/wharf_archive.go:374-387 | the six names a format can have are known in either case, and any other is taken for zip |
| Formats.BlanksAreTrimmed | handlers/wharf_archive.go:375-376 | white space around a name does not matter |
| Formats.ShortExtensionsAreRead | handlers/wharf_archive.go:389-405 | .tgz and .tbz2 are read as tar.gz and tar.bz2 |
| Formats.PackedTreeIsExtracted | handlers/wharf_rebuild.go:257-264 | an archive of any format, stored under its path and downloaded under the hidden name, is extracted to its tree |
| Formats.MaterializedIsTree | handlers/wharf_rebuild.go:257-264 | the extraction folder holds exactly the tree if and only if the tree does not use the hidden name |
| LockKeys.KeyIsNamespaceAndId | models/postgres.go:601-605 | a lock key is the namespace 0x44454E4B over the low 32 bits of the build id |
| LockKeys.SharedLocks | models/postgres.go:601-605 | two builds share a lock key exactly when the low 32 bits of their ids agree |
| LockKeys.LocksAreDistinct | models/postgres.go:601-605 | distinct ids below 2^32 have distinct keys |

## Left out

- HTTP routing, request decoding, authentication, response bodies, the S3 client, SQL text, migrations and start-up.
- The wharf patcher, signature reader, zip and tar code: a patch is a script of copies and literals per file, an archive is its format and tree.
- In the machine the nested request of a generation is a process of its own that can be taken down by itself; the generation then fails as after an answer without an archive.
- Waiting inside a method of the classes: a lock that is taken counts as timed out there. Waiting for it is a step of the machine.
- Interleavings inside one method of the classes: those are covered by the machine, whose steps the methods make without interference.
- `CreateBuild`, `CreateBuildFile` and `FinalizeBuildFile` as handlers: they are events of the machine, the row update of a finalization and the start of its check being one event, as a crash in between leaves the same state.
- The channel row is read and written in one step when the head advances.
- Access times in the machine: the TTL guard may stop an eviction at any time there; its arithmetic is in `ArchiveGc`.
- Upload rows (size, file name, platforms) and the calls that only write them; a failure of theirs is a failure of the call after them.
- File kinds other than patch, signature and archive `default`.
- Timeouts and cancellation beyond "this call fails" and the number of rounds a GC pass gets to.
- The order of equally old rows in the GC's list of candidates, and of its leftovers, is any order.
- Objects that no row points to any more: a rebuild of an evicted row that still has a path leaves the old object behind.
- A build left `processing` by a crash of its generation stays so; nothing is claimed about it.
- Overlapping requests on one upload session.
- `StartUploadSession`, which only turns an empty state into `active`.
