/**
 The host loop drains. From any reachable state, once nothing is queued from outside, every catalog
 access succeeds and the mode stays (anything but paused), every run comes to rest. The workers are
 constrained only by what a job of each kind may insert and by when the extracted text is present.
 */
module Drain {
  import opened Common
  import opened Jobs
  import opened BoundedQueues
  import opened HostModel
  import opened HostSafety
  import opened HostTracking
  import opened HostRuns

  /** The loop, the files whose extracted text is cached, the files whose stored chunks differ from
      what the chunker would make, and all files there are to find. */
  datatype World = World(h: Host, text: set<FileId>, stale: set<FileId>, files: set<FileId>)

  /** Rows may go (with their file), none changes, and at most `most` come, of one kind, each for a
      file (of `files`) of a folder. */
  ghost predicate Adds(rows: map<JobId, Row>, rows': map<JobId, Row>, kind: Kind, files: set<FileId>, most: nat) {
    && (forall id <- rows' :: id in rows ==> rows'[id] == rows[id])
    && (forall id <- rows' :: id !in rows ==>
          rows'[id].source.Some? && rows'[id].kind == kind && rows'[id].file.Some? && rows'[id].file.value in files)
    && |rows'.Keys - rows.Keys| <= most
  }

  ghost predicate OnlyRemoves(rows: map<JobId, Row>, rows': map<JobId, Row>) {
    rows'.Keys <= rows.Keys && forall id <- rows' :: rows'[id] == rows[id]
  }

  /** What running `job` may do to the catalog and to the cached text, and how it may end. */
  ghost predicate Worker(w: World, job: Job, rows: map<JobId, Row>, outcome: Outcome, text: set<FileId>, stale: set<FileId>) {
    var same := OnlyRemoves(w.h.rows, rows) && text == w.text && stale == w.stale;
    if job.kind.Scan? then
      // One extraction per discovered file, also when the scan fails half way; files that are gone
      // are erased, with their jobs and their text.
      && !outcome.CacheMiss? && Adds(w.h.rows, rows, Extract, w.files, |w.files|)
      && text <= w.text && stale <= w.stale
    else if job.kind.Cleanup? || job.kind.Repair? || job.file.None? then
      same && outcome.Done?
    else if job.kind.Extract? then
      || (same && outcome.Error?)
      // The cache need not keep what was extracted.
      || (outcome.Done? && Adds(w.h.rows, rows, Chunk, {job.file.value}, 1)
          && w.text <= text <= w.text + {job.file.value} && stale <= w.stale)
    else if job.file.value !in w.text then
      // Chunking and embedding read the text: without it they never succeed.
      same && !outcome.Done?
    else if job.kind.Embedding? then
      same && !outcome.CacheMiss?
    else
      || (same && !outcome.CacheMiss?)
      || (outcome.Done? && Adds(w.h.rows, rows, Embedding, {job.file.value}, 1)
          && text == w.text && stale == w.stale)
      // The stored chunks are not what the chunker makes: forget the text and extract again.
      || (outcome.Done? && job.file.value in w.stale && Adds(w.h.rows, rows, Extract, {job.file.value}, 1)
          && text == w.text - {job.file.value} && stale == w.stale - {job.file.value})
  }

  // Neither other threads, nor a change of mode, nor an access that fails.
  predicate Calm(a: Action) {
    && !a.Others? && !a.Observe?
    && (a.List? || a.Load? || a.Relist? || a.Unblock? || a.CountRows? || a.Check? || a.Complete? || a.Settle? ==> a.ok)
  }

  // Besides the workers, only the trim of an idle cache takes text away.
  ghost predicate CalmAction(w: World, a: Action, text: set<FileId>, stale: set<FileId>) {
    && Enabled(w.h, a) && Calm(a)
    && if a.Work? then Worker(w, w.h.pc.job, a.rows, a.outcome, text, stale)
       else stale == w.stale && if a.Trim? then text <= w.text else text == w.text
  }

  ghost function Moved(w: World, a: Action, text: set<FileId>, stale: set<FileId>): World
    requires Enabled(w.h, a)
  {
    w.(h := Apply(w.h, a), text := text, stale := stale)
  }

  ghost predicate CalmStep(w: World, w': World) {
    exists a :: CalmAction(w, a, w'.text, w'.stale) && w' == Moved(w, a, w'.text, w'.stale)
  }

  ghost predicate CalmAt(run: nat -> World, k: nat) {
    CalmStep(run(k), run(k + 1))
  }

  ghost predicate CalmRun(run: nat -> World) {
    forall k: nat :: CalmAt(run, k)
  }

  // Any step of the loop or of its environment.
  ghost predicate AnyAt(run: nat -> World, k: nat) {
    Step(run(k).h, run(k + 1).h)
  }

  // ---- The files that occur ---------------------------------------------------------------

  predicate FileKnown(file: Option<FileId>, files: set<FileId>) {
    file.Some? ==> file.value in files
  }

  ghost predicate JobsKnown(qs: Queues, files: set<FileId>) {
    forall k, i :: 0 <= k < QUEUES && 0 <= i < |qs[k]| ==> FileKnown(qs[k][i].file, files)
  }

  ghost predicate ListKnown(todo: seq<Record>, files: set<FileId>) {
    forall i :: 0 <= i < |todo| ==> FileKnown(todo[i].row.file, files)
  }

  ghost predicate FilesKnown(w: World) {
    && w.stale <= w.files
    && (forall id <- w.h.rows :: FileKnown(w.h.rows[id].file, w.files))
    && JobsKnown(w.h.queues, w.files) && ListKnown(Todo(w.h), w.files)
    && (Active(w.h).Some? ==> FileKnown(Active(w.h).value.file, w.files))
  }

  /** No job in hand or waiting that could be handed out, and no queued or blocked row of a folder,
      except settled work whose record was lost, and embeddings while the mode holds them back. */
  ghost predicate NothingLeft(h: Host) {
    && Active(h).None? && TickQueue(h.queues, h.mode) == None
    && forall id <- h.rows :: h.rows[id].source.Some? && (RowIs(h, id, Queued) || RowIs(h, id, Blocked)) ==>
         id in h.unrecorded || (h.rows[id].kind.Embedding? && Skipped(EMBEDDING, h.mode))
  }
}
