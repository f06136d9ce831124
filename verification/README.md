# orbok: a verified model

orbok is a desktop application that indexes folders and searches them. This project models its parts
in which several activities meet, and proves what holds over all their interleavings and all inputs.
`dafny verify dfyconfig.toml` checks everything.

- **The indexing host loop** (`Jobs`, `BoundedQueue`, `HostModel`, `HostSafety`, `HostTracking`,
  `HostBudget`, `HostRuns`, `HostLimits`, `HostJobs`, `Scheduler`, `HostLoop`). One loop keeps catalog rows, six bounded queues
  and the set of tracked ids in step, while other threads change the catalog and any catalog access
  may fail. `HostModel` is the step system; the invariants are stated for one job id at a time and
  hold in every reachable state; `HostLoop` is the loop itself, over mutable scheduler and catalog
  objects, each of its steps a step of the model.
- **That the loop comes to rest** (`Drain`, `DrainScope`, `DrainMeasure`, `DrainProof`, `DrainTheorem`): from any
  reachable state, over infinite runs, by a measure over remaining attempts, loadable rows, stages of
  work and the cache-miss guard.
- **Model resolution** (`Resolution`): the latest installed model wins.
- **Model install and activation** (`Wizard`, `WizardPaths`, `ModelFlow`, `ModelFlowProof`,
  `DownloadFlow`, `Router`, `Delivery`): the message reducer, the tasks and messages it starts, the shared model
  searches read, and the task that drives one installer. The router over mutable state keeps itself
  in a reachable state of the protocol, so a whole session has the protocol's guarantees.
- **Settings** (`SettingsDisk`, `SettingsFile`, `Settings`): saving that survives crashes, loading
  that recovers, and reading each entry on its own.
- **Directory measurement** (`DirWalk`), **paths, profiles and folders** (`Paths`, `RuntimeContext`),
  **physical aliases** (`Physical`, `PhysicalProfiles`, `PhysicalRefusal`), **timestamps** (`Timestamps`).

Code that changes state step by step is imperative here too: classes and methods, proved against
functions about which the lemmas are stated. What these functions mean is stated besides without them: by
literal contracts of the methods, by laws of single steps, and by the ways through a whole session.

## What the proofs bring out

- After a completion that could not be recorded nothing writes it again in the session (the comment
  at crates/app/src/scheduler_host.rs:642-644 says it is retried), so what holds is that the work is not
  redone. A job that failed for good and whose failure could not be recorded is left behind in the
  same way.
- An un-block write that fails is not always harmless (comment at
  crates/app/src/scheduler_host.rs:829-837). An embedding held back on battery or by a busy user, and
  any job of a paused session, waits through the next pass, which then loads a second copy
  (`SecondCopyExactly`); the embedding's finished work can then succeed twice (`RedoneExactly`), and
  each such write can cost it three more attempts. For every other job the copy is dropped at its
  check before the next pass can begin, so the loss is harmless.
- Cancelling is not final while the job runs, or while its row is on a list the loop has read: the
  loop's next write of that row does not look at its status (`CanceledIsRevived`). A row cancelled at
  any other time stays cancelled (`FinishedStays`).
- A queued row without a source is never loaded and never run.
- The retry that finds its queue full and marks its row blocked cannot happen from this loop.
- The idle check reads five counts one after the other. A row queued in between is missed by the trim
  itself, though no row older than the check is.
- The downloading page is what keeps a second download from starting, and four messages leave it
  early. Exactly these break the pairing of page and download. The page itself sends none of them;
  the one that can still arrive there is the check of a folder whose picker was left open, since the
  picker is answered on any page. Going back, skipping and closing the consent belong to other pages,
  and Escape does nothing on this one.
- A save forces its bytes to disk but not its rename, so a crash can bring back the whole settings from
  before it (`SavedCanBeUndone`), though never a part of either.
- Two saves of one process share a temporary file and can mix their bytes; saves of different
  processes never do.
- The physical alias check covers the data folder, the catalog and the settings file of the portable
  profile. It nevertheless rules out that any of the seven places of one profile ever becomes one of
  the other's. What it misses is a place that is one already, such as a models folder that is a mount
  of the standard data folder; comparing besides the places that exist at the time would find it.
- A timestamp exists only for the years -9999 to 9999, since the conversion to a date does not return
  for others; the years before 0000 all read as the epoch.

## Model

| member | source | states |
|---|---|---|
| `HostRuns.NothingForgotten` | crates/app/src/scheduler_host.rs:774-843 | Between iterations a queued row with a source waits in memory, or a later pass loads it, exactly unless it is settled work whose record was lost; a blocked one is always loadable again (the exactness for every job that cannot have a second copy) |
| `HostRuns.SourcelessNeverRuns` | crates/app/src/scheduler_host.rs:784-790 | Along every run, as long as a row has no source, nothing is ever loaded or executed for it |
| `HostRuns.NoSecondCopy` | crates/app/src/scheduler_host.rs:784-842 | Queues and hand together hold at most one copy of an id, unless its own un-block write was lost and it is an embedding or the session is paused |
| `HostLimits.SecondCopyExactly` | crates/app/src/scheduler_host.rs:827-841 | Where a blocked row has a copy waiting because its un-block write was lost, a state with two copies can follow if and only if the session is paused or the job is an embedding |
| `HostRuns.NeverRedone` | crates/app/src/scheduler_host.rs:626-656 | Work that succeeded never runs again in the session and is neither in memory nor loadable, recorded or not: for every job but an embedding unconditionally, for an embedding unless its own un-block write was lost |
| `HostRuns.PausedRunsNothing` | crates/pipeline/workers/src/scheduler/dispatch.rs:149-169 | With background indexing switched off nothing is ever handed out or executed |
| `HostRuns.BoundedRetries` | crates/app/src/scheduler_host.rs:848-861 | An id is executed at most 3 * (1 + its status reads that failed + its un-block writes that were lost) times, although a reload resets the attempt counter, and the last term does not count unless it is an embedding |
| `HostBudgets.KeepsBudget` | crates/app/src/scheduler_host.rs:430-694 | Every step keeps, for each id: its executions, the attempts left in its copies, and three more if its row may still be loaded, are within that bound |
| `HostLimits.LostUnblockDoublesAttempts` | crates/app/src/scheduler_host.rs:827-841 | The bound is reached: six executions after one lost un-block write, every read answered |
| `HostLimits.RedoneExactly` | crates/app/src/scheduler_host.rs:827-841 | Where a blocked row has a copy waiting because its un-block write was lost, a state in which its work succeeded twice can follow if and only if the job is an embedding and the session is not paused |
| `HostRuns.FinishedStays` | crates/pipeline/workers/src/scheduler/dispatch.rs:333-369 | Along every run a row that is cancelled, finished or deleted stays so and its job is not run any more, unless the loop is just then running the job or holds the row on a list |
| `HostLimits.CanceledIsRevived` | crates/data/db/src/repo/jobs.rs:286-304 | A row cancelled while its job runs is queued again with a copy waiting, if the job then fails with attempts left |
| `HostLimits.OthersMay` | crates/app/src/scheduler_host.rs:373-383 | What the theorems over all interleavings allow at any moment: another thread queues new work, deletes a row, moves it or ends it, and the observed mode changes |
| `HostRuns.RetryFindsRoom` | crates/pipeline/workers/src/scheduler/dispatch.rs:333-369 | Nothing is loaded between a pop and its failure, so a retry always finds its slot free and a failed job is never marked blocked |
| `HostRuns.DispatchChecksTheRow` | crates/app/src/scheduler_host.rs:577-624 | Along every run, whenever a job is executed its row was read and found queued after it was handed out, and between that reading and the execution only other threads moved |
| `HostRuns.EachRunIsChecked` | crates/app/src/scheduler_host.rs:577-624 | Each execution has a reading of its own, made after every earlier execution of any job ended |
| `HostRuns.HandedOutEnds` | crates/app/src/scheduler_host.rs:577-592 | However long other threads move in between, a job handed out is worked on if its row is queued at the check, and otherwise dropped without a write and no longer tracked |
| `HostRuns.TrimIsSafe` | crates/app/src/scheduler_host.rs:561-575 | When the cache is trimmed nothing waits in memory, and the unfinished rows are exactly the queued ones inserted after the idle check began to count |
| `HostRuns.OneTrimPerStretch` | crates/app/src/scheduler_host.rs:422-426 | No second trim before a job has been handed out again |
| `HostRuns.OneRepairPerRead` | crates/pipeline/workers/src/lib.rs:81-101 | Between two successful reads of a file's text its extraction is re-queued at most once; a second miss inserts nothing and fails for good |
| `HostJobs.FailedForGood` | crates/pipeline/workers/src/scheduler/dispatch.rs:324-384 | Along every run: once a terminal failure, or a third one, is settled, no copy waits, the row is failed or gone or its record was lost, it stays finished if it was recorded, and the job is never executed again |
| `HostJobs.OverForGood` | crates/pipeline/workers/src/scheduler/dispatch.rs:351-369 | Settling such a failure changes no queue and no row but its own, which is written failed unless the write is lost |
| `HostJobs.TriedAgain` | crates/pipeline/workers/src/scheduler/dispatch.rs:333-369 | Settling any other failure leaves a waiting copy with exactly one attempt more, and its row queued if it could be written |
| `HostJobs.DoneStep` | crates/app/src/scheduler_host.rs:626-656 | Settling a success leaves no copy; it is recorded and untracked, or its record is lost and it stays tracked; and which kinds of work open their file to repair |
| `HostJobs.MissStep` | crates/pipeline/workers/src/lib.rs:81-101 | A miss counts as terminal if it has a file; the first queues one extraction of that file, only if no other extract or chunk job of it is unfinished, and the next queues nothing |
| `HostJobs.HandsOutInOrder` | crates/pipeline/workers/src/scheduler/queue.rs:212-243 | What any step hands out: nothing while paused, an embedding only in normal mode, nothing while work of an earlier stage waits that is not held back, and in its queue the oldest of the most urgent |
| `HostRuns.ReachableInv` | crates/app/src/scheduler_host.rs:430-694 | The invariants of all three views of every id hold in every reachable state, under any interleaving with other threads and any catalog failures |
| `HostTracking.KeepsIdInv` | crates/app/src/scheduler_host.rs:430-694 | Every step of the loop or of another thread keeps, for each id, the invariant over row, copies, `known`, listed records, kind and history |
| `HostTracking.KeepsBounded` | crates/pipeline/workers/src/scheduler/dispatch.rs:324-384 | Every step keeps each copy's attempt counter at or above the executions it accounts for, and leaves an id that can be loaded again all its attempts |
| `HostSafety.KeepsShape` | crates/pipeline/workers/src/scheduler/queue.rs:87-119 | Every step keeps the queues within capacity, jobs in the queue of their kind, and a free slot for the job in hand |
| `HostSafety.KeepsCounted` | crates/app/src/scheduler_host.rs:774-843 | Every step keeps the counted copies equal to the real ones in queues and hand |
| `HostLimits.TrimCanMissANewRow` | crates/app/src/scheduler_host.rs:920-934 | The five counts are separate reads: a reachable state in which the trim runs while a row is queued |
| `HostLimits.LostUnblockRepeatsWork` | crates/app/src/scheduler_host.rs:830-841 | A reachable state in which, after one lost un-block write and one lost completion, the same work has succeeded twice |
| `HostLimits.LostFailureStrandsARow` | crates/app/src/scheduler_host.rs:678-686 | A reachable state in which a job that failed for good keeps a queued row that no later pass of the session loads: the excuse in NothingForgotten is needed |
| `HostLoops.HostLoop.constructor` | crates/app/src/scheduler_host.rs:333-367 | The loop begins in a reachable state, normal or paused as the stored setting says; no row but a queued or parked one changes, and if the write landed the rows then queued (or parked) are exactly those that were either |
| `HostLoops.HostLoop.Rehydrate` | crates/app/src/scheduler_host.rs:774-843 | The two loading loops over the queued and the blocked rows, on the real fields, are steps of the model, ending before the second tick with nothing executed |
| `HostLoops.HostLoop.LoadOrBlock` | crates/app/src/scheduler_host.rs:800-811 | A row is tracked exactly if a copy was loaded, else its row is marked blocked |
| `HostLoops.HostLoop.LoadRecord` | crates/app/src/scheduler_host.rs:784-811 | What a queued row puts in memory, if anything: the job of that row, of its folder, file and kind, with the usual priority and all attempts left; nothing for a tracked row or one without a source |
| `HostLoops.HostLoop.MarkQueued` | crates/app/src/scheduler_host.rs:827-841 | A reloaded blocked row is tracked whether or not its status write lands |
| `HostLoops.HostLoop.IndexingIsIdle` | crates/app/src/scheduler_host.rs:920-934 | True only after queued, running, paused, blocked and waiting rows were counted in this order, each successfully and as none; false only if the last count failed or found a row |
| `HostLoops.HostLoop.TrimWhenIdle` | crates/app/src/scheduler_host.rs:556-576 | The cache is trimmed once per idle stretch, and left out only when something waits or after a count that failed or found a row |
| `HostLoops.HostLoop.JobIsStillQueued` | crates/app/src/scheduler_host.rs:589-592 | The job goes on to work only if its row is queued; otherwise it is no longer tracked and the catalog is untouched |
| `HostLoops.HostLoop.Succeed` | crates/app/src/scheduler_host.rs:626-656 | A recorded success is untracked and its row succeeded, an unrecorded one stays tracked; chunking, keyword work and embedding open their file to repair again, other work does not |
| `HostLoops.HostLoop.ExtractionCacheMiss` | crates/pipeline/workers/src/lib.rs:81-101 | What the failure counts as, after the guard set and the catalog were updated together |
| `HostLoops.HostLoop.RequeueExtraction` | crates/data/db/src/repo/jobs.rs:234-283 | The only row inserted is a queued extraction of that file, of a folder, and only if no other extract or chunk job of the file is unfinished |
| `HostLoops.HostLoop.Fail` | crates/pipeline/workers/src/scheduler/dispatch.rs:324-384 | A terminal failure, or the third, leaves the queues as they are and writes the row failed; any other puts one copy with one attempt more into its queue and writes the row queued |
| `HostLoops.HostLoop.RunJob` | crates/app/src/scheduler_host.rs:577-687 | A job whose row is no longer queued is dropped after one read and no write; a job that ran has its end written once, last, for its own row |
| `HostLoops.HostLoop.NextJob` | crates/app/src/scheduler_host.rs:538-576 | The first tick's job without touching the catalog; with none, both listings are read before the second tick and the idle check |
| `HostLoops.HostLoop.Iterate` | crates/app/src/scheduler_host.rs:430-694 | One iteration from the top back to the top takes the mode from what was observed, executes at most one job and keeps the loop in a reachable state |
| `HostLoops.HostLoop.Run` | crates/app/src/scheduler_host.rs:430-694 | After any number of iterations, for every id: a queued row with a source is in a queue, untracked or unrecorded; no success was repeated and the executions are bounded, under the condition above; and a paused loop executed nothing |
| `BoundedQueues.Best` | crates/pipeline/workers/src/scheduler/queue.rs:122-124 | The first arrival whose priority no other exceeds |
| `BoundedQueues.PushHolds` | crates/pipeline/workers/src/scheduler/queue.rs:87-119 | Inserting behind everything of equal or higher priority keeps the sorted items a rearrangement of the arrivals, oldest served first within a priority |
| `BoundedQueues.PopHolds` | crates/pipeline/workers/src/scheduler/queue.rs:122-124 | Popping the back removes the first best arrival and keeps the correspondence for the rest |
| `BoundedQueues.HoldsLength` | crates/pipeline/workers/src/scheduler/queue.rs:16-24 | Items and arrivals are equally many |
| `BoundedQueues.BoundedQueue.Push` | crates/pipeline/workers/src/scheduler/queue.rs:87-119 | The job is the latest arrival; nothing else changes |
| `BoundedQueues.BoundedQueue.Pop` | crates/pipeline/workers/src/scheduler/queue.rs:122-124 | The first arrival of the greatest priority is taken out, and only it |
| `Schedulers.Scheduler.Tick` | crates/pipeline/workers/src/scheduler/dispatch.rs:287-304 | The best job of the first queue in dispatch order with work, embeddings only in normal mode; nothing while paused or when every queue so served is empty |
| `Schedulers.Scheduler.LoadPersisted` | crates/pipeline/workers/src/scheduler/dispatch.rs:271-278 | False exactly when the queue of the job's kind is full, 10000 scans, 1000 of each kind of text work, 2000 embeddings, 200 for upkeep; the queues are then as they were |
| `Schedulers.Scheduler.ApplyResourceObservation` | crates/pipeline/workers/src/scheduler/dispatch.rs:120-139 | The mode from what is observed now; a pause is never overridden |
| `Schedulers.Scheduler.IsIdle` | crates/pipeline/workers/src/scheduler/dispatch.rs:399-401 | True exactly when all six queues are empty |
| `Schedulers.Scheduler.Pause` | crates/pipeline/workers/src/scheduler/dispatch.rs:149-163 | The mode is paused and, if the write landed, the parked rows are exactly those that were queued or parked; every other row is unchanged, and a second pause writes nothing |
| `Schedulers.Scheduler.Resume` | crates/pipeline/workers/src/scheduler/dispatch.rs:178-192 | The mode is normal and, if the write landed, the queued rows are exactly those that were queued or parked, whoever parked them; every other row is unchanged |
| `Schedulers.OffAndOnAgain` | crates/pipeline/workers/src/scheduler/dispatch.rs:149-192 | Pausing and then resuming changes no row that was neither queued nor parked |
| `Schedulers.StartsOnlyPark` | crates/app/src/scheduler_host.rs:333-367 | However many sessions begin, with indexing on or off and the catalog told or not: no row changes but between queued and parked, finished work least of all, and a start with indexing on leaves none parked |
| `HostModel.NextQueue` | crates/pipeline/workers/src/scheduler/queue.rs:212-243 | The first queue with work that the mode does not skip, all before it empty or skipped |
| `Schedulers.Catalog.ListByStatus` | crates/data/db/src/repo/jobs.rs:416-447 | Exactly the rows of one status, each once, when the read succeeds |
| `Schedulers.Catalog.PendingText` | crates/data/db/src/repo/jobs.rs:238-257 | Whether another extract or chunk job of the file exists that is neither succeeded nor failed nor canceled |
| `DrainTheorem.Drains` | crates/app/src/scheduler_host.rs:368-372 | Whatever happened in a session up to some time, if from then on nothing is queued from outside, accesses succeed and the mode stays (not paused), there is a time from which on nothing is left to do (but embeddings the mode holds back) and nothing is loaded, handed out, run or written; workers may remove rows, and the cache need not keep what extraction wrote |
| `DrainTheorem.DrainedIsEmpty` | crates/app/src/scheduler_host.rs:538-576 | In the normal mode nothing left means: all queues empty, and no queued or blocked row with a source but settled work whose record was lost |
| `DrainTheorem.NeverKeptRepairsOnce` | crates/pipeline/workers/src/lib.rs:63-77 | If a file's text is never in the cache, its extraction is re-queued at most once in the whole calm run |
| `DrainTheorem.NeverStuck` | crates/app/src/scheduler_host.rs:538-576 | Every calm state has a next calm step, so the theorem is about something |
| `DrainScopes.ScanFindsFiles` | crates/data/fs/src/scanner.rs:300-380 | What the theorem allows a scan: an extraction queued for each file there is, and to end well or fail |
| `DrainScopes.ExtractionIsKeptOrNot` | crates/pipeline/workers/src/extract.rs:45-103 | What it allows an extraction: one chunking queued, its text kept in the cache or not |
| `DrainScopes.ChunkingQueuesOne` | crates/pipeline/workers/src/chunk_and_index.rs:85-126 | What it allows chunking: one embedding queued, or the text forgotten and one extraction queued where the stored chunks differ |
| `DrainScopes.WorkMayFail` | crates/app/src/scheduler_host.rs:626-687 | What it allows any work on a file: to fail, for good or not, or to find its text missing |
| `DrainTheorem.WorkLess` | crates/app/src/scheduler_host.rs:594-624 | Every executed job lowers the measure although it may queue others: scan pays for extraction, extraction for chunking, chunking for embedding |
| `DrainTheorem.ClassifyNoMore` | crates/pipeline/workers/src/lib.rs:81-101 | The extraction a miss re-queues is paid for by the file the guard now holds |
| `DrainTheorem.OtherNoMore` | crates/app/src/scheduler_host.rs:626-687 | No other step raises the measure, and a job dropped at its check lowers it |
| `DrainTheorem.FewerLeftovers` | crates/app/src/scheduler_host.rs:774-843 | Records outdated by other threads, an overtaken job and a recovered miss are each met at most once, and none arises anew |
| `DrainTheorem.StepFalls` | crates/app/src/scheduler_host.rs:430-694 | Every calm step before rest lowers the lexicographic order of phase, leftovers, measure and position in the iteration |
| `DrainTheorem.RestStays` | crates/app/src/scheduler_host.rs:538-576 | At rest every calm step keeps everything but the loop's position and the trim |
| `DrainMeasure.TotalAdds` | crates/data/db/src/repo/jobs.rs:234-283 | Rows a worker adds weigh at most their kind's full weight each, and rows it removes weigh nothing any more |
| `DrainProof.EmptyPassIsIdle` | crates/app/src/scheduler_host.rs:538-576 | A complete pass after which nothing can be handed out left nothing to do behind |
| `Resolutions.Signals.LatestWins` | crates/app/src/scheduler_host.rs:395-402 | While no resolution runs, the last one began after the last observed change, and if it found a model the loop embeds with one no older than that change; Observe, Poll and Drain below keep it so |
| `Resolutions.Signals.Observe` | crates/app/src/scheduler_host.rs:439-459 | A change begins a resolution of what is installed, or marks that another must follow the running one; nothing else does either, and at most one runs |
| `Resolutions.Signals.Poll` | crates/app/src/scheduler_host.rs:460-491 | A finished resolution is taken off, its model backfilled and installed, and the next begun if a change arrived meanwhile; an older model never replaces a newer |
| `Resolutions.Signals.UserIsActive` | crates/app/src/scheduler_host.rs:492-495 | Active exactly if some activity was observed within the last two seconds |
| `Resolutions.Signals.Drain` | crates/app/src/scheduler_host.rs:439-491 | After every iteration each observation has left its mark, the loop is up to date and its model no older than before, for any arrival order |
| `Wizards.OnlyDueEffects` | crates/app/src/model_flow.rs:36-334 | Whatever the message and the page, backend work is asked for only where it is due: a save only of the settled model shown and under an unused attempt the wizard then waits for, an activation only of the attempt pending, a download only from consent and under an unused id, a cancel only once |
| `Wizards.HybridOnlyWhenAwaited` | crates/app/src/model_flow.rs:341-369 | Search turns hybrid only by a successful activation of the attempt the wizard waits for, with the provenance of the model shown |
| `Wizards.WaitingIsKept` | crates/ui/src/state.rs:1526-1541 | While a save or activation runs its page changes if and only if that work ends or one of four messages arrives; Escape is not among them |
| `Wizards.GivingUp` | crates/ui/src/state.rs:1485-1541 | Escape gives up a page exactly as Skip does, never one with work in flight or a model ready to save, and Skip always leaves keyword search |
| `Wizards.SavesDiffer` | crates/ui/src/state.rs:488-509 | In any sequence of messages no two saves are made under one attempt number |
| `WizardPaths.FolderChecked` | crates/app/src/model_flow.rs:85-114 | Whatever page is shown, a checked folder makes the wizard ready, with that folder, as the user's and under the next id, exactly if every check passed and an id is left |
| `WizardPaths.FolderIsUsed` | crates/app/src/model_flow.rs:85-369 | From any state of the protocol and any page: a folder that passes its checks, accepted, saved and loaded, ends in hybrid search on that model, as the user's own, by a script given step by step |
| `WizardPaths.DownloadIsUsed` | crates/app/src/model_flow.rs:38-369 | From a setup page with an offer: consent, arrival, acceptance, save and load end in hybrid search on that model, as the program's own |
| `WizardPaths.ReadyIsUsed` | crates/app/src/model_flow.rs:240-369 | Any settled ready model, after a failed save or load too, is in use after accepting, saving and loading, with its provenance |
| `WizardPaths.SaveCanFail` | crates/app/src/model_flow.rs:272-316 | A save that fails ends with the same model ready to be accepted again, nothing loaded and search as it was |
| `WizardPaths.LoadCanFail` | crates/app/src/model_flow.rs:341-369 | An activation that fails ends with the same model ready to be loaded again under the same attempt, search as it was unless the task was lost after the swap |
| `WizardPaths.ProgressArrives` | crates/app/src/model_flow.rs:139-162 | What an installer reports shows on the downloading page, and changes nothing else |
| `WizardPaths.ClosedStoreFails` | crates/app/src/model_flow.rs:236-238 | Consent to a download whose store cannot be opened ends on the failed page that says so |
| `WizardPaths.Consenting` | crates/app/src/model_flow.rs:38-74 | Asking for a download and closing the consent, or Escape, gives back exactly the page it came from; confirming begins the offered download under the next id, or fails if none is left |
| `WizardPaths.EscapeExactly` | crates/ui/src/state.rs:1526-1541 | Escape gives up exactly the setup pages, a check's result, a failed download and a failed save or load; going back leads to the first page |
| `WizardPaths.NothingElsewhere` | crates/app/src/model_flow.rs:36-369 | A message on a page it does not belong to changes nothing and starts nothing |
| `Wizards.AppState.AllocateReady` | crates/ui/src/state.rs:488-509 | An id is handed out that never was before, until none is left |
| `Wizards.AppState.Route` | crates/app/src/model_flow.rs:36-369 | On the mutable state: work only where due, its ids never used before, hybrid only from the awaited activation, and a checked folder ready exactly if all checks passed and an id is left |
| `Routers.Router.Run` | crates/app/src/router.rs:512-597 | For any script of messages, task steps and deliveries: whoever waits is answered exactly once, hybrid search always has a model and so has every search begun after it, and unless a message took the downloading page away there is one installer at a time, on its page, cancelled at most once and never shown as failed for that |
| `Routers.Router.BeginSearch` | crates/app/src/router.rs:940-960 | A search's snapshot is what the shared model holds when it begins, a model once search has been upgraded |
| `Routers.SearchModel.Activate` | crates/app/src/search_model.rs:40-49 | True exactly if a model was resolved, which is then already the current one |
| `Routers.Router.RunActivation` | crates/app/src/router.rs:540-584 | The activation task swaps the model in before its completion exists, and reports success only then |
| `Routers.Router.RunSave` | crates/app/src/model_flow.rs:448-476 | A save task ends in one completion of the same identity: the number of answers outstanding for each wizard stays, and all guarantees of the session with it |
| `ModelFlowProof.OneTokenWhileWaiting` | crates/app/src/model_flow.rs:240-334 | While the wizard waits there is exactly one task or message for it, tagged with the attempt it waits for; otherwise there is none |
| `ModelFlowProof.StaleChangesNothing` | crates/app/src/model_flow.rs:272-294 | A completion for a wizard that is gone or an attempt that is over changes nothing |
| `ModelFlowProof.AwaitedTakesEffect` | crates/app/src/model_flow.rs:295-369 | The awaited completion always counts, and what it leads to in each of the four cases |
| `ModelFlowProof.UpgradeHasAModel` | crates/app/src/model_flow.rs:341-369 | Keyword-only turns hybrid only when the shared search model holds a model |
| `ModelFlowProof.SearchesAfterUpgrade` | crates/app/src/search_model.rs:29-49 | Every search begun after that step has a model in its snapshot |
| `ModelFlowProof.KeepsKnown` | crates/app/src/model_flow.rs:36-369 | Every step of every interleaving keeps the token invariant, identities exhausted or not |
| `ModelFlowProof.KeepsCell` | crates/app/src/search_model.rs:40-49 | Every step keeps: a reported activation, and an upgrade, have a model behind them |
| `DownloadFlow.KeepsMatched` | crates/ui/src/state.rs:302-311 | A step keeps page and outstanding download together if and only if it is not one of four messages arriving on the downloading page |
| `DownloadFlow.OneDownload` | crates/app/src/model_flow.rs:38-84 | Without those messages: at most one installer, the downloading page exactly while its terminal message is outstanding, at most one cancel effect for each download, and no failed page about a cancellation |
| `DownloadFlow.TerminalEndsItsDownload` | crates/app/src/model_flow.rs:163-208 | The terminal message that arrives is that of the download on the page, and where it leads, cancelled or not |
| `DownloadFlow.CancelReachesTheInstaller` | crates/app/src/router.rs:534-539 | The first press raises the running installer's own flag, later ones do nothing |
| `DownloadFlow.StrayLetsOneDownloadEndAnother` | crates/app/src/router.rs:655-658 | After a folder picker was answered late on the downloading page: a reachable state in which the first download's success made the second's wizard ready while the second still installs |
| `Delivery.Delivering.RunWithInstaller` | crates/app/src/download.rs:37-83 | For every interleaving the interface gets the recognised events in order and one terminal message, a prefix of that if it closes; the installer always runs to its end, and the terminal names the folder or which of six things went wrong |
| `Delivery.Delivering.ForwardEvent` | crates/app/src/download.rs:85-122 | One event of the tokenizer or of the model is reported under its artifact with its own numbers if the interface is open; any other is passed over |
| `Delivery.ReportsConcat` | crates/app/src/download.rs:85-114 | Reporting distributes over the events |
| `Delivery.ReportedInPlace` | crates/app/src/download.rs:116-122 | Each recognised event is reported once between those before and those after it, any other leaves no trace |
| `SettingsDisk.NeverTorn` | crates/app/src/runtime_storage.rs:625-677 | At every point of every run of savers in different processes, crashes included, the settings file holds one whole value |
| `SettingsDisk.NeverMissing` | crates/app/src/runtime_storage.rs:625-677 | Settings that exist never disappear, crashes included |
| `SettingsDisk.OnlyARenameChanges` | crates/app/src/runtime_storage.rs:663-677 | Only a save's rename changes the settings, to that save's whole value; a save that gives up changes nothing; a crash goes back to some whole value |
| `SettingsDisk.SavedCanBeUndone` | crates/app/src/runtime_storage.rs:663-677 | Any save that has just succeeded can be undone by a crash, which brings back the whole settings from before it |
| `SettingsDisk.Keeps` | crates/app/src/runtime_storage.rs:625-699 | Every step of a saver and every crash keeps the invariant on directory states and files |
| `SettingsDisk.NamesDiffer` | crates/app/src/runtime_storage.rs:646-661 | The temporary files of different processes have different names, none of them the settings file's |
| `SettingsDisk.NamedForProcess` | crates/app/src/runtime_storage.rs:646-661 | The temporary file's name is the settings file's, `.tmp.` and the digits of the process number |
| `SettingsDisk.OneProcessCanTear` | crates/app/src/runtime_storage.rs:646-661 | Two saves of one process share their temporary file: a run after which the settings are a mixture of both |
| `SettingsFiles.Volume.WriteJson` | crates/app/src/runtime_storage.rs:625-644 | With other processes saving between any two of its steps, a save reports success exactly if its whole value was renamed into place, and failure only if the system refused an operation |
| `SettingsFiles.Volume.WriteAll` | crates/app/src/runtime_storage.rs:663-677 | The value is written piece by piece into a file nobody else touches |
| `SettingsFiles.SettingsFolder.LoadSettingsReporting` | crates/app/src/runtime_storage.rs:134-159 | What a missing, readable, unreadable or inaccessible file loads as and leaves behind; an unreadable file's bytes are never lost |
| `SettingsFiles.SettingsFolder.KeepUnreadable` | crates/app/src/runtime_storage.rs:596-623 | True exactly if the file could be moved or copied, and then it is whole under the other name; unless moved it is still under its own |
| `SettingsReader.Deserialize` | crates/app/src/settings.rs:188-226 | Every object loads; each setting is its own entry's value where that has the right type and its fixed default otherwise, a renamed one's new name first, and the old strict mode turns remembering off |
| `SettingsReader.ReadableReads` | crates/app/src/settings.rs:208-222 | The readable entries together, with one name for each field, always read |
| `SettingsReader.AloneReads` | crates/app/src/settings.rs:208-216 | A lone entry reads if and only if its value has the type of the field of that name: text or none for the folder, text for three fields, a flag for five names |
| `SettingsReader.OthersUntouched` | crates/app/src/settings.rs:201-216 | Replacing, adding or spoiling one entry changes no setting of another name |
| `SettingsReader.RoundTrip` | crates/app/src/settings.rs:182-186 | What a saved file reads as is what was saved, and nothing else |
| `SettingsReader.StrictOnce` | crates/app/src/settings.rs:196-225 | The strict rule is honoured once: the next file says it itself and no longer carries the old field |
| `DirWalk.DirSize` | crates/app/src/runtime_storage.rs:447-467 | The stack loop returns the recursive sum of sizes and count of files, or an error if anything below is unreadable, whatever order entries are listed in |
| `DirWalk.ReadDirectory` | crates/app/src/runtime_storage.rs:455-464 | One directory moves from the stack into the sums, its subdirectories onto the stack |
| `DirWalk.SizeSplit` | crates/app/src/runtime_storage.rs:447-467 | The sum over a directory does not depend on which entry is taken first |
| `DirWalk.OneMoreEntry` | crates/app/src/runtime_storage.rs:447-467 | Entry by entry: a file adds its length and one item, a subdirectory its contents, a link or special file nothing, and anything unreadable makes the whole unknown |
| `Paths.NormalizeAbsolute` | crates/app/src/runtime_context.rs:459-477 | The loop computes the normal form of an absolute path and nothing for any other |
| `Paths.NormalizedTwice` | crates/app/src/runtime_context.rs:459-477 | Normalising is idempotent and leaves no `.` or `..` |
| `Paths.NormalizedSurvives` | crates/app/src/runtime_context.rs:459-477 | It equals reading the path from the right, each `..` cancelling the nearest name not yet cancelled |
| `Paths.NormalizedJoin` | crates/app/src/runtime_context.rs:418-425 | Normalising the directory first, or only the joined path, gives the same |
| `Paths.ComponentsStartWith` | crates/app/src/runtime_context.rs:441-457 | True exactly if the prefix covers the path: name by name, equal or equal after folding |
| `Paths.RelativeUnderWith` | crates/core/src/folder_cover.rs:32-44 | Something exactly if the root covers the path, name by name, equal or equal after folding, and then what is below |
| `Paths.CoversOrder` | crates/core/src/folder_cover.rs:51-59 | Covering is a preorder, antisymmetric up to the case rule |
| `Paths.CoversChain` | crates/core/src/folder_cover.rs:51-59 | The folders covering one path form a chain |
| `Paths.OneFolderPerPath` | crates/core/src/folder_cover.rs:1-17 | Among folders none of which covers another each path is covered by at most one |
| `Paths.JoinRebuilds` | crates/core/src/folder_cover.rs:26-44 | Root joined with the rest is the path again, up to the spelling of the root |
| `Paths.ApartBelow` | crates/app/src/runtime_context.rs:427-439 | Nothing below two paths that do not overlap overlaps |
| `RuntimeContexts.ProfilesAreApart` | crates/app/src/runtime_context.rs:106-188 | If both profiles resolve without an override, none of the seven portable places overlaps any of the seven standard ones, for all directories and both case rules |
| `RuntimeContexts.OverrideMovesEverything` | crates/app/src/runtime_context.rs:141-172 | With an override every place lies under it and the platform's settings directory does not matter |
| `RuntimeContexts.PortableResolves` | crates/app/src/runtime_context.rs:120-140 | A portable profile resolves exactly if the startup directory is absolute and its data directory is apart from the standard ones |
| `RuntimeContexts.PlacesPlain` | crates/app/src/runtime_context.rs:418-425 | Every resolved place is absolute, without `.` and `..` |
| `RuntimeContexts.ChosenExactly` | crates/app/src/runtime_context.rs:42-62 | Portable exactly if asked for, a conflict exactly if an override that is not empty comes with it, and the override kept exactly otherwise |
| `RuntimeContexts.PortableIsBeside` | crates/app/src/runtime_context.rs:107-188 | The portable profile's seven places and its startup directory by name, all in `orbok-data` beside the program; the two errors there can be, and which |
| `RuntimeContexts.StandardIsNamed` | crates/app/src/runtime_context.rs:107-188 | The standard profile's seven places by name in the platform's two directories, taken from the startup directory if relative; without a settings directory the error that says so |
| `RuntimeContexts.OverrideIsMeant` | crates/app/src/runtime_context.rs:141-172 | With an override the seven places by name in the folder it means at the startup directory |
| `Physical.PhysicalLocation` | crates/app/src/physical_identity.rs:151-182 | The loop ends and returns the nearest existing ancestor's identity and the missing rest, or the error |
| `Physical.LocatedSplits` | crates/app/src/physical_identity.rs:151-182 | Ancestor and rest make up the path, the ancestor exists and nothing longer does |
| `Physical.ValidateSeparation` | crates/app/src/physical_identity.rs:28-63 | Accepts exactly if every portable path can be located, and every standard one if there is a portable one, and no two overlap by their resolved paths, nor by their missing rests below one object |
| `Physical.AcceptedNeverMeet` | crates/app/src/physical_identity.rs:28-63 | If two lists of resolved paths are accepted, no path of one is the same object as a path of the other in any later state of the file system |
| `Physical.SameFuture` | crates/app/src/physical_identity.rs:148-151 | In any later file system, missing rests below existing objects lead to one object exactly if objects and rests are the same |
| `Physical.LocationsDecide` | crates/app/src/physical_identity.rs:148-182 | Two checked paths are the same present or future object exactly if identity and rest agree, and accepted paths never are |
| `PhysicalProfiles.ValidateProfiles` | crates/app/src/physical_identity.rs:28-63 | The code's own lists: accepted exactly if the data folder, the catalog and the settings file of the portable profile can each be located and clash with none of the standard profile's settings folder and file, data folder and catalog, as far as these are named |
| `PhysicalProfiles.SharedOnlyAlready` | crates/app/src/physical_identity.rs:28-63 | If these lists are accepted, any two of the seven and seven places are one object in a later file system if and only if they are one at the check: the check rules out every alias that could still be made |
| `PhysicalProfiles.ApartExactly` | crates/app/src/physical_identity.rs:28-63 | Accepted profiles stay apart for ever if and only if no two of their places are one object at the time of the check |
| `PhysicalProfiles.ListingWhatExistsSuffices` | crates/app/src/physical_identity.rs:33-47 | Comparing besides whatever other places exist at the time would keep the profiles apart for ever |
| `PhysicalProfiles.SharedIsRefused` | crates/app/src/physical_identity.rs:48-62 | Lists that name one object on both sides are refused, whatever else they hold |
| `PhysicalRefusals.RefusedCouldNest` | crates/app/src/physical_identity.rs:28-63 | If two lists of resolved paths are refused, then by nothing but making what is missing a path of one can become one object with a path of the other, or lie in it: nothing is refused without need |
| `PhysicalRefusals.WithoutLinksByText` | crates/app/src/physical_identity.rs:28-63 | Where every object has one path, the lists are accepted exactly if no path of one is or lies below a path of the other, whatever exists |
| `PhysicalRefusals.FirstStartAccepted` | crates/app/src/physical_identity.rs:52-54 | A first start with both profiles to be made below one home directory: resolved profiles, every checked path missing from one object, accepted |
| `PhysicalRefusals.OverlapBelowIsRefused` | crates/app/src/physical_identity.rs:52-58 | What would overlap below one existing folder is refused, also under two spellings the case rule takes for one name |
| `PhysicalRefusals.InsideIsRefused` | crates/app/src/physical_identity.rs:48-58 | What lies in the other by the canonical paths of what exists is refused |
| `PhysicalProfiles.UncheckedFolderCanAlias` | crates/app/src/physical_identity.rs:33-37 | Resolved profiles whose lists the check accepts although the portable models folder is the standard data folder |
| `Timestamps.TextOrderIsTimeOrder` | crates/core/src/timeutil.rs:41-72 | In the years 0000 to 9999 text order is time order to the nanosecond, and the text determines the instant |
| `Timestamps.AlwaysThirty` | crates/core/src/timeutil.rs:41-72 | Every instant that has a text, years -9999 to 9999, has one of 30 characters |
| `Timestamps.OutOfRangeReadsAsEpoch` | crates/core/src/timeutil.rs:57-72 | Of the instants that have a text exactly those before year 0 share the epoch's |
| `Timestamps.RangeInDays` | crates/core/src/timeutil.rs:41-44 | The range is the 3652425 days from 0000-01-01; with the years before it, 3652059 days more |
| `Timestamps.FieldsOrder` | crates/core/src/timeutil.rs:41-55 | Calendar and clock fields are ordered as instants are |
| `Timestamps.CivilOrder` | crates/core/src/timeutil.rs:41-55 | Dates are ordered as days are, and each day has its own date |
| `Timestamps.DayAfter` | crates/core/src/timeutil.rs:41-55 | The calendar day by day, with the lengths of the months by rule: from 1 January of year 0 each day has the next day of the month, or the first of the next month or year exactly at the month's last day |
| `Timestamps.NanosecondAfter` | crates/core/src/timeutil.rs:41-55 | The fields nanosecond by nanosecond: what is counted up, what turns over, and midnight of the next date |
| `Timestamps.ReadsBack` | crates/core/src/timeutil.rs:45-54 | The text read back: each field's digits in its place, and the marks of RFC 3339 between them |
| `Timestamps.EpochFields` | crates/core/src/timeutil.rs:41-55 | Instant 0 is 1970-01-01, midnight |
| `Timestamps.YearStartClosed` | crates/core/src/timeutil.rs:41-44 | The closed count of leap years agrees with visiting every year |
| `Timestamps.RenderOrder` | crates/core/src/timeutil.rs:45-54 | With fixed widths text order is the order of the numbers |
| `Timestamps.PaddedOrder` | crates/core/src/timeutil.rs:45-54 | Zero-padded digits compare as the numbers do |

## Left out

- HostLoops.HostLoop.Run: the loop is run for any number of iterations instead of forever, and what a worker computes is an arbitrary outcome and arbitrary catalog changes of the permitted kinds.
- DrainTheorem.Drains: other threads insert, delete and cancel, and accesses fail, only up to some time of the run, since without an end to that no loop comes to rest; a session paused from its start does nothing at all.
- HostRuns.NeverRedone: for an embedding, needs its own un-block writes to have landed; `HostLimits.RedoneExactly` shows when it fails otherwise.
- HostRuns.BoundedRetries: the bound grows with failed status reads, because each of them drops a copy whose row is loaded again with a fresh counter, and for an embedding with lost un-block writes; `HostLimits.LostUnblockDoublesAttempts` shows why.
- SettingsDisk.NeverTorn: needs each process to save one thing at a time; `SettingsDisk.OneProcessCanTear` shows why.
- PhysicalProfiles.SharedOnlyAlready: is about platform directories without `.` and `..`; the check is given them as the platform reports them, while the profile uses them normalised.
- PhysicalRefusals.RefusedCouldNest: is about names compared exactly; where the check folds case it can refuse two names that a file system would keep apart.
- Physical.LocationsDecide: is about exact names; a file system that ignores case in names it creates later is not modelled.
- Queue events, backpressure flags, counters, health reports and their throttle, log lines: they change nothing the loop decides.
- Cancelling a source through the scheduler, which is a catalog change by another thread here.
- The catalog's own attempt counter, priorities, timestamps and file statuses, and the order of its listings (the proofs hold for every order).
- The SQL statements and transactions of the repositories beyond their effect on job rows.
- What workers do to files, chunks and embeddings, beyond which text is cached and which jobs they queue.
- Stopping the loop when the window closes.
- The wizard's path field, folder picker, file checks and notices, the search mode, and overlays other than whether one is open.
- The startup projection, of which only the possible first wizard pages are kept.
- Lists of checks carried by wizard pages.
- Errors of one kind are one value; their texts are not kept.
- File permissions, creation of the settings folder and encoding of the value, which are one possible failure of a save before it touches anything.
- Keeping an unreadable file aside is modelled for one process, not while others save.
- Overflow of 64-bit byte and file counts in the directory walk, and a tree that changes while it is walked.
- Measurements that come from the database or the cache.
- Path prefixes of Windows, and paths that are not text; the lowercase used for comparing names is an arbitrary function.
- The home directory, which no profile path depends on.
- The refusal of non-ASCII missing names on macOS, and file identities as numbers of a device: an identity is an opaque value.
- The clock and its test override.
- Views, translations, command line, diagnostics redaction, result launching, privacy texts: small mappings or other subjects.
