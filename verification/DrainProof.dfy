/** What calm runs of the host loop keep, and how far a rehydration pass has come. */
module DrainProof {
  import opened Common
  import opened Jobs
  import opened BoundedQueues
  import opened HostModel
  import opened HostSafety
  import opened HostTracking
  import opened HostRuns
  import opened Drain
  import opened DrainMeasure

  // ---- What calm runs keep ----------------------------------------------------------------

  ghost predicate CalmInv(w: World) {
    Inv(w.h) && !w.h.mode.Stopped? && FilesKnown(w)
  }

  ghost predicate RowsKnown(rows: map<JobId, Row>, files: set<FileId>) {
    forall id <- rows :: FileKnown(rows[id].file, files)
  }

  lemma SetKnown(rows: map<JobId, Row>, id: JobId, st: Status, files: set<FileId>)
    requires RowsKnown(rows, files)
    ensures RowsKnown(SetStatus(rows, id, st), files)
  {
  }

  lemma PushKnown(qs: Queues, job: Job, files: set<FileId>)
    requires JobsKnown(qs, files) && FileKnown(job.file, files)
    ensures JobsKnown(Pushed(qs, job), files)
  {
  }

  lemma PopKnown(qs: Queues, q: nat, files: set<FileId>)
    requires JobsKnown(qs, files) && q < QUEUES && qs[q] != []
    ensures JobsKnown(Popped1(qs, q), files) && FileKnown(qs[q][Best(qs[q])].file, files)
  {
  }

  lemma TickFiles(w: World)
    requires FilesKnown(w) && (w.h.pc.Top? || w.h.pc.Second?)
    ensures FilesKnown(w.(h := DoTick(w.h)))
  {
    var q := TickQueue(w.h.queues, w.h.mode);
    if q.Some? { PopKnown(w.h.queues, q.value, w.files); }
  }

  lemma ListFiles(w: World, todo: seq<Record>, st: Status)
    requires FilesKnown(w) && Active(w.h).None? && Enumerates(todo, w.h.rows, st)
    ensures FilesKnown(w.(h := w.h.(pc := Loading(todo)))) && FilesKnown(w.(h := w.h.(pc := Unblocking(todo))))
  {
    assert ListKnown(todo, w.files);
  }

  // Loading a record, from either list.
  lemma RecordFiles(w: World)
    requires FilesKnown(w) && Todo(w.h) != []
    ensures var r := Todo(w.h)[0];
            && ListKnown(Todo(w.h)[1..], w.files)
            && forall st :: RowsKnown(SetStatus(w.h.rows, r.id, st), w.files)
    ensures var job := JobFromRecord(Todo(w.h)[0]); job.Some? ==> JobsKnown(Pushed(w.h.queues, job.value), w.files)
  {
    var r := Todo(w.h)[0];
    assert FileKnown(r.row.file, w.files);
    var job := JobFromRecord(r);
    if job.Some? { PushKnown(w.h.queues, job.value, w.files); }
    forall st ensures RowsKnown(SetStatus(w.h.rows, r.id, st), w.files) { SetKnown(w.h.rows, r.id, st, w.files); }
  }

  lemma LoadFiles(w: World)
    requires FilesKnown(w) && w.h.pc.Loading? && w.h.pc.todo != []
    ensures FilesKnown(w.(h := DoLoad(w.h, true)))
  {
    assert Todo(w.h) == w.h.pc.todo;
    RecordFiles(w);
  }

  lemma UnblockFiles(w: World)
    requires FilesKnown(w) && w.h.pc.Unblocking? && w.h.pc.todo != []
    ensures FilesKnown(w.(h := DoUnblock(w.h, true)))
  {
    assert Todo(w.h) == w.h.pc.todo;
    RecordFiles(w);
  }

  lemma CheckFiles(w: World)
    requires FilesKnown(w)
    ensures w.h.pc.Popped? ==> FilesKnown(w.(h := DoCheck(w.h, true)))
    ensures w.h.pc.Counting? && w.h.pc.i < |UNFINISHED| ==> FilesKnown(w.(h := DoCount(w.h, true)))
  {
  }

  lemma AddsKnown(rows: map<JobId, Row>, rows': map<JobId, Row>, kind: Kind, among: set<FileId>, most: nat, files: set<FileId>)
    requires RowsKnown(rows, files) && Adds(rows, rows', kind, among, most) && among <= files
    ensures RowsKnown(rows', files)
  {
  }

  // Whatever a worker adds is for files that are known.
  lemma WorkerAdds(w: World, job: Job, rows: map<JobId, Row>, outcome: Outcome, text: set<FileId>, stale: set<FileId>)
    returns (kind: Kind, among: set<FileId>, most: nat)
    requires Worker(w, job, rows, outcome, text, stale) && FileKnown(job.file, w.files)
    ensures Adds(w.h.rows, rows, kind, among, most) && among <= w.files && stale <= w.stale
  {
    kind, among, most := Embedding, {}, 0;
    if OnlyRemoves(w.h.rows, rows) {
      assert rows.Keys - w.h.rows.Keys == {};
    } else if job.kind.Scan? {
      kind, among, most := Extract, w.files, |w.files|;
    } else {
      among, most := {job.file.value}, 1;
      kind := if job.kind.Extract? then Chunk else if stale == w.stale then Embedding else Extract;
    }
  }

  lemma WorkFiles(w: World, rows: map<JobId, Row>, outcome: Outcome, text: set<FileId>, stale: set<FileId>)
    requires FilesKnown(w) && w.h.pc.Working? && Worker(w, w.h.pc.job, rows, outcome, text, stale)
    ensures FilesKnown(w.(h := DoWork(w.h, rows, outcome), text := text, stale := stale))
  {
    var kind, among, most := WorkerAdds(w, w.h.pc.job, rows, outcome, text, stale);
    AddsKnown(w.h.rows, rows, kind, among, most, w.files);
  }

  lemma CompleteFiles(w: World)
    requires FilesKnown(w) && w.h.pc.Reporting?
    ensures FilesKnown(w.(h := DoComplete(w.h, true)))
  {
    SetKnown(w.h.rows, w.h.pc.job.id, Succeeded, w.files);
    assert DoComplete(w.h, true).rows == SetStatus(w.h.rows, w.h.pc.job.id, Succeeded);
  }

  lemma ClassifyFiles(w: World, repair: Option<Record>)
    requires FilesKnown(w) && w.h.rows.Keys <= w.h.issued && w.h.pc.Reporting? && !w.h.pc.outcome.Done?
    requires repair.Some? ==> RepairAllowed(w.h, repair.value)
    ensures FilesKnown(w.(h := DoClassify(w.h, repair)))
  {
    ClassifyRowsKnown(w, repair);
    ClassifyChanges(w.h, repair);
  }

  lemma ClassifyRowsKnown(w: World, repair: Option<Record>)
    requires RowsKnown(w.h.rows, w.files) && w.h.pc.Reporting? && !w.h.pc.outcome.Done? && FileKnown(w.h.pc.job.file, w.files)
    requires repair.Some? ==> RepairAllowed(w.h, repair.value)
    ensures RowsKnown(DoClassify(w.h, repair).rows, w.files)
  {
  }

  lemma RetryFiles(w: World)
    requires FilesKnown(w) && w.h.pc.Failing?
    ensures FilesKnown(w.(h := DoRetry(w.h, true)))
  {
    var job := w.h.pc.job.(attempts := w.h.pc.job.attempts + 1);
    PushKnown(w.h.queues, job, w.files);
    SetKnown(w.h.rows, job.id, Queued, w.files);
    SetKnown(w.h.rows, job.id, Blocked, w.files);
  }

  lemma SettleFiles(w: World)
    requires FilesKnown(w) && w.h.pc.Failing?
    ensures FilesKnown(w.(h := DoSettle(w.h, true)))
  {
    RetryFiles(w);
    SetKnown(w.h.rows, w.h.pc.job.id, Failed, w.files);
  }

  lemma KeepsFiles(w: World, a: Action, text: set<FileId>, stale: set<FileId>)
    requires FilesKnown(w) && w.h.rows.Keys <= w.h.issued && CalmAction(w, a, text, stale)
    ensures FilesKnown(Moved(w, a, text, stale))
  {
    match a
    case Tick => TickFiles(w);
    case List(_, todo) => ListFiles(w, todo, Queued);
    case Load(_) => LoadFiles(w);
    case Relist(_, todo) => ListFiles(w, todo, Blocked);
    case Unblock(_) => if w.h.pc.todo != [] { UnblockFiles(w); }
    case CountRows(_) => CheckFiles(w);
    case Trim =>
    case Check(_) => CheckFiles(w);
    case Work(rows, outcome) => WorkFiles(w, rows, outcome, text, stale);
    case Complete(_) => CompleteFiles(w);
    case Classify(repair) => ClassifyFiles(w, repair);
    case Settle(_) => SettleFiles(w);
  }

  lemma SameMode(h: Host, a: Action)
    requires Enabled(h, a) && Calm(a)
    ensures Apply(h, a).mode == h.mode
  {
    match a
    case Tick =>
    case List(_, todo) =>
    case Load(_) =>
    case Relist(_, todo) =>
    case Unblock(_) =>
    case CountRows(_) =>
    case Trim =>
    case Check(_) =>
    case Work(rows, outcome) =>
    case Complete(_) =>
    case Classify(repair) =>
    case Settle(_) =>
  }

  lemma KeepsCalm(w: World, a: Action, text: set<FileId>, stale: set<FileId>)
    requires CalmInv(w) && CalmAction(w, a, text, stale)
    ensures CalmInv(Moved(w, a, text, stale))
  {
    assert Step(w.h, Apply(w.h, a));
    StepInv(w.h, Apply(w.h, a));
    SameMode(w.h, a);
    KeepsFiles(w, a, text, stale);
  }

  // ---- One row through a pass -------------------------------------------------------------

  // How often the list offers the id as a job of this kind.
  ghost function Offers(todo: seq<Record>, id: JobId, kind: Kind): nat {
    if todo == [] then 0
    else One(todo[0].id == id && todo[0].row.source.Some? && todo[0].row.kind == kind) + Offers(todo[1..], id, kind)
  }

  lemma {:induction false} OffersMember(todo: seq<Record>, i: nat)
    requires i < |todo| && todo[i].row.source.Some?
    ensures Offers(todo, todo[i].id, todo[i].row.kind) > 0
  {
    if i > 0 {
      assert todo[1..][i - 1] == todo[i];
      OffersMember(todo[1..], i - 1);
    }
  }

  lemma EnumeratesOffers(todo: seq<Record>, rows: map<JobId, Row>, st: Status, id: JobId)
    requires Enumerates(todo, rows, st) && id in rows && rows[id].status == st && rows[id].source.Some?
    ensures Offers(todo, id, rows[id].kind) > 0
  {
    var i :| 0 <= i < |todo| && todo[i].id == id;
    OffersMember(todo, i);
  }

  /** How far the pass has come with one loadable row. */
  ghost predicate Pass(h: Host, id: JobId) {
    id in h.rows && h.rows[id].source.Some? ==>
      && (h.pc.Loading? && RowIs(h, id, Queued) && id !in h.known ==> Offers(h.pc.todo, id, h.rows[id].kind) > 0)
      && (h.pc.Unblocking? || h.pc.Second? ==>
            && (RowIs(h, id, Queued) ==> id in h.known)
            && (RowIs(h, id, Blocked) ==> Offers(Todo(h), id, h.rows[id].kind) > 0 || !HasRoom(h.queues, h.rows[id].kind)))
  }

  ghost predicate AllPass(h: Host) {
    forall id :: Pass(h, id)
  }

  lemma PushRoom(qs: Queues, job: Job, kind: Kind)
    ensures HasRoom(Pushed(qs, job), kind) ==> HasRoom(qs, kind)
  {
  }

  lemma LoadPass(h: Host, id: JobId)
    requires Pass(h, id) && h.pc.Loading? && h.pc.todo != []
    ensures Pass(DoLoad(h, true), id)
  {
    var r := h.pc.todo[0];
    if id in h.rows {
      var kind := h.rows[id].kind;
      assert Offers(h.pc.todo, id, kind) == One(r.id == id && r.row.source.Some? && r.row.kind == kind) + Offers(h.pc.todo[1..], id, kind);
    }
  }

  lemma UnblockPassOther(h: Host, id: JobId)
    requires Pass(h, id) && h.pc.Unblocking? && h.pc.todo != [] && h.pc.todo[0].id != id
    ensures Pass(DoUnblock(h, true), id)
  {
    UnblockOther(h, true, id);
    if id in h.rows {
      var kind, job := h.rows[id].kind, JobFromRecord(h.pc.todo[0]);
      assert Offers(Todo(h), id, kind) == Offers(h.pc.todo[1..], id, kind);
      if job.Some? { PushRoom(h.queues, job.value, kind); }
    }
  }

  lemma UnblockPass(h: Host, id: JobId)
    requires Pass(h, id) && h.pc.Unblocking? && h.pc.todo != []
    ensures Pass(DoUnblock(h, true), id)
  {
    var r := h.pc.todo[0];
    if r.id != id {
      UnblockPassOther(h, id);
    } else if id in h.rows {
      var kind := h.rows[id].kind;
      assert Offers(Todo(h), id, kind) == One(r.row.source.Some? && r.row.kind == kind) + Offers(h.pc.todo[1..], id, kind);
    }
  }

  lemma ListPass(h: Host, todo: seq<Record>, id: JobId)
    requires Pass(h, id)
    ensures h.pc.Listing? && Enumerates(todo, h.rows, Queued) ==> Pass(h.(pc := Loading(todo)), id)
    ensures h.pc == Loading([]) && Enumerates(todo, h.rows, Blocked) ==> Pass(h.(pc := Unblocking(todo)), id)
  {
    if id in h.rows && h.rows[id].source.Some? {
      if Enumerates(todo, h.rows, Queued) && RowIs(h, id, Queued) { EnumeratesOffers(todo, h.rows, Queued, id); }
      if Enumerates(todo, h.rows, Blocked) && RowIs(h, id, Blocked) { EnumeratesOffers(todo, h.rows, Blocked, id); }
    }
  }

  // Outside a pass there is nothing to keep.
  lemma NoPass(h: Host, a: Action)
    requires Enabled(h, a) && !a.Others? && !a.Observe? && !a.List? && !a.Load? && !a.Relist? && !a.Unblock?
    ensures var pc := Apply(h, a).pc; !pc.Loading? && !pc.Unblocking? && !pc.Second?
  {
    match a
    case Tick =>
    case CountRows(_) =>
    case Trim =>
    case Check(_) =>
    case Work(rows, outcome) =>
    case Complete(_) =>
    case Classify(repair) =>
    case Settle(_) =>
  }

  lemma KeepsPass(h: Host, a: Action, id: JobId)
    requires Pass(h, id) && Enabled(h, a) && Calm(a)
    ensures Pass(Apply(h, a), id)
  {
    match a
    case List(_, todo) => ListPass(h, todo, id);
    case Load(_) => LoadPass(h, id);
    case Relist(_, todo) => ListPass(h, todo, id);
    case Unblock(_) => if h.pc.todo != [] { UnblockPass(h, id); }
    case Tick => NoPass(h, a);
    case CountRows(_) => NoPass(h, a);
    case Trim => NoPass(h, a);
    case Check(_) => NoPass(h, a);
    case Work(_, _) => NoPass(h, a);
    case Complete(_) => NoPass(h, a);
    case Classify(_) => NoPass(h, a);
    case Settle(_) => NoPass(h, a);
  }

  // A queue without room is not empty, so if nothing is handed out it is being skipped.
  lemma FullIsSkipped(h: Host, kind: Kind)
    requires TickQueue(h.queues, h.mode) == None && !h.mode.Stopped? && !HasRoom(h.queues, kind)
    ensures kind.Embedding? && Skipped(EMBEDDING, h.mode)
  {
    assert h.queues[QueueOf(kind)] != [];
  }

  // A copy that still waits then is an embedding's.
  lemma WaitingIsSkipped(h: Host, id: JobId)
    requires IdInv(h, id) && TickQueue(h.queues, h.mode) == None && !h.mode.Stopped? && Active(h).None?
    requires h.copies[id] > 0 && id in h.rows
    ensures h.rows[id].kind.Embedding? && Skipped(EMBEDDING, h.mode)
  {
    if Count(h.queues[EMBEDDING], id) == 0 {
      ServedIsEmpty(h.queues, h.mode, id, QUEUES);
      assert false;
    }
  }

  /** After a complete pass with nothing to hand out, nothing is left. */
  lemma EmptyPassIsIdle(h: Host)
    requires Inv(h) && AllPass(h) && !h.mode.Stopped? && h.pc.Second? && TickQueue(h.queues, h.mode) == None
    ensures NothingLeft(h)
  {
    forall id | id in h.rows && h.rows[id].source.Some? && (RowIs(h, id, Queued) || RowIs(h, id, Blocked))
      ensures id in h.unrecorded || (h.rows[id].kind.Embedding? && Skipped(EMBEDDING, h.mode))
    {
      assert Pass(h, id) && IdInv(h, id);
      if RowIs(h, id, Blocked) {
        FullIsSkipped(h, h.rows[id].kind);
      } else if id !in h.unrecorded {
        WaitingIsSkipped(h, id);
      }
    }
  }
}
