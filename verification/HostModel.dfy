/**
 The indexing host loop as a step system: the loop's own steps, one catalog access each, with
 steps of other threads between any two of them. Nothing here limits how often catalog reads and
 writes fail or how steps interleave; that is the choice of the `Action` sequence.
 */
module HostModel {
  import opened Common
  import opened Jobs
  import opened BoundedQueues

  datatype Mode = Normal | UserActive | LowImpact | Stopped

  // The waiting jobs of the six bounded queues, each in arrival order.
  type Queues = q: seq<seq<Job>> | |q| == QUEUES witness [[], [], [], [], [], []]

  datatype Outcome = Done | CacheMiss | Error(terminal: bool)

  /** Where the loop is: between which two catalog accesses. */
  datatype Pc =
    | Top                                            // before the first tick of an iteration
    | Listing                                        // about to read the queued rows
    | Loading(todo: seq<Record>)                     // loading queued rows
    | Unblocking(todo: seq<Record>)                  // loading blocked rows
    | Second                                         // before the second tick
    | Counting(i: nat, base: set<JobId>)             // idle check: i statuses counted zero
    | Popped(job: Job)
    | Working(job: Job)
    | Reporting(job: Job, outcome: Outcome)
    | Failing(job: Job, terminal: bool)

  /** The catalog rows, the loop's own memory, and (from `issued` on) what has happened so far. */
  datatype Host = Host(
    rows: map<JobId, Row>,
    queues: Queues,
    known: set<JobId>,
    guard: set<FileId>,
    mode: Mode,
    trimmed: bool,
    pc: Pc,
    issued: set<JobId>,          // every id any row ever had
    embeddings: set<JobId>,      // those of embedding jobs
    copies: multiset<JobId>,     // in-memory copies, the one in hand included
    execs: multiset<JobId>,      // times a worker ran the job
    wins: multiset<JobId>,       // times that work succeeded
    misreads: multiset<JobId>,   // status reads that failed at the check
    unrecorded: set<JobId>,      // settled, but the write recording it failed
    lostUnblock: multiset<JobId>,  // times a row stayed blocked after a reload because the write failed
    repairs: multiset<FileId>,   // extractions re-queued for a miss since the file was last read
    trims: nat)                  // cache trims since a job was last handed out

  datatype Action =
    | Others(rows: map<JobId, Row>)                  // other threads change the catalog
    | Observe(mode: Mode)
    | Tick
    | List(ok: bool, todo: seq<Record>)
    | Load(ok: bool)
    | Relist(ok: bool, todo: seq<Record>)
    | Unblock(ok: bool)
    | CountRows(ok: bool)
    | Trim
    | Check(ok: bool)
    | Work(rows: map<JobId, Row>, outcome: Outcome)
    | Complete(ok: bool)
    | Classify(repair: Option<Record>)
    | Settle(ok: bool)

  // ---- Catalog ---------------------------------------------------------------------------

  // An update by id: no row, no effect, no error.
  function SetStatus(rows: map<JobId, Row>, id: JobId, st: Status): map<JobId, Row> {
    if id in rows then rows[id := rows[id].(status := st)] else rows
  }

  /** What other threads (and the running worker) may do: insert queued rows under new ids, delete
      rows, finish or cancel rows, move rows to another source or file. */
  ghost predicate Interference(rows: map<JobId, Row>, issued: set<JobId>, rows': map<JobId, Row>) {
    forall id <- rows' ::
      if id in rows then
        && (rows'[id].status == rows[id].status || Finished(rows'[id].status))
        && rows'[id].kind == rows[id].kind
      else
        id !in issued && rows'[id].status == Queued
  }

  ghost function EmbeddingIds(rows: map<JobId, Row>): set<JobId> {
    set id <- rows | rows[id].kind.Embedding?
  }

  // The catalog after a change by another thread or a worker.
  ghost function Changed(s: Host, rows: map<JobId, Row>): Host {
    s.(rows := rows, issued := s.issued + rows.Keys, embeddings := s.embeddings + EmbeddingIds(rows))
  }

  ghost predicate Distinct(todo: seq<Record>) {
    forall i, j :: 0 <= i < j < |todo| ==> todo[i].id != todo[j].id
  }

  /** `todo` lists exactly the rows of one status, in some order. */
  ghost predicate Enumerates(todo: seq<Record>, rows: map<JobId, Row>, st: Status) {
    && Distinct(todo)
    && (forall i :: 0 <= i < |todo| ==>
                      todo[i].id in rows && todo[i].row == rows[todo[i].id] && todo[i].row.status == st)
    && (forall id <- rows :: rows[id].status == st ==> exists i :: 0 <= i < |todo| && todo[i].id == id)
  }

  // The statuses counted before a trim, in order.
  const UNFINISHED: seq<Status> := [Queued, Running, Paused, Blocked, Waiting]

  // ---- Scheduler -------------------------------------------------------------------------

  function HasRoom(qs: Queues, kind: Kind): bool {
    |qs[QueueOf(kind)]| < Capacity(QueueOf(kind))
  }

  function Pushed(qs: Queues, job: Job): Queues {
    qs[QueueOf(job.kind) := qs[QueueOf(job.kind)] + [job]]
  }

  predicate Skipped(q: nat, mode: Mode) {
    q == EMBEDDING && (mode.UserActive? || mode.LowImpact?)
  }

  // The queue the next job comes from, at or after `q`.
  function NextQueue(qs: Queues, mode: Mode, q: nat): (r: Option<nat>)
    requires q <= QUEUES
    ensures r.Some? ==> q <= r.value < QUEUES && qs[r.value] != [] && !Skipped(r.value, mode)
    ensures r.Some? ==> forall k :: q <= k < r.value ==> qs[k] == [] || Skipped(k, mode)
    ensures r.None? ==> forall k :: q <= k < QUEUES ==> qs[k] == [] || Skipped(k, mode)
    decreases QUEUES - q
  {
    if q == QUEUES then None
    else if !Skipped(q, mode) && qs[q] != [] then Some(q)
    else NextQueue(qs, mode, q + 1)
  }

  function TickQueue(qs: Queues, mode: Mode): Option<nat> {
    if mode.Stopped? then None else NextQueue(qs, mode, 0)
  }

  function Popped1(qs: Queues, k: nat): Queues
    requires k < QUEUES && qs[k] != []
  {
    qs[k := Without(qs[k], Best(qs[k]))]
  }

  predicate AllEmpty(qs: Queues) {
    forall k :: 0 <= k < QUEUES ==> qs[k] == []
  }

  /** `attempt_count < MAX_JOB_ATTEMPTS` after this failure, and a category worth retrying. */
  predicate Retries(job: Job, terminal: bool) {
    job.attempts + 1 < MAX_JOB_ATTEMPTS && !terminal
  }

  predicate ReadsText(kind: Kind) {
    kind.Chunk? || kind.Keyword? || kind.Embedding?
  }

  // ---- The loop's steps ------------------------------------------------------------------

  ghost function DoTick(s: Host): Host
    requires s.pc.Top? || s.pc.Second?
  {
    match TickQueue(s.queues, s.mode)
    case Some(k) =>
      s.(queues := Popped1(s.queues, k), pc := Popped(s.queues[k][Best(s.queues[k])]),
         trimmed := false, trims := 0)
    case None =>
      if s.pc.Top? then s.(pc := Listing)
      else if !s.trimmed && AllEmpty(s.queues) then s.(pc := Counting(0, {}))
      else s.(pc := Top)
  }

  // A copy of the row waits in its queue from now on.
  ghost function Loaded(s: Host, job: Job): Host {
    s.(queues := Pushed(s.queues, job), known := s.known + {job.id}, copies := s.copies + multiset{job.id})
  }

  ghost function DoLoad(s: Host, ok: bool): Host
    requires s.pc.Loading? && s.pc.todo != []
  {
    var r := s.pc.todo[0];
    var s1 := s.(pc := Loading(s.pc.todo[1..]));
    var job := JobFromRecord(r);
    if r.id in s.known || job.None? then s1
    else if HasRoom(s.queues, r.row.kind) then Loaded(s1, job.value)
    else s1.(rows := if ok then SetStatus(s.rows, r.id, Blocked) else s.rows)
  }

  // The write after a blocked row was loaded.
  ghost function Unblocked(s: Host, ok: bool, id: JobId): Host {
    if ok then s.(rows := SetStatus(s.rows, id, Queued))
    else if id in s.rows && s.rows[id].status == Blocked then s.(lostUnblock := s.lostUnblock + multiset{id})
    else s
  }

  ghost function DoUnblock(s: Host, ok: bool): Host
    requires s.pc.Unblocking? && s.pc.todo != []
  {
    var r := s.pc.todo[0];
    var s1 := s.(pc := Unblocking(s.pc.todo[1..]));
    var job := JobFromRecord(r);
    if job.None? || !HasRoom(s.queues, r.row.kind) then s1
    else Unblocked(Loaded(s1, job.value), ok, r.id)
  }

  ghost function DoCount(s: Host, ok: bool): Host
    requires s.pc.Counting? && s.pc.i < |UNFINISHED|
  {
    var base := if s.pc.i == 0 then s.rows.Keys else s.pc.base;
    if ok && forall id <- s.rows :: s.rows[id].status != UNFINISHED[s.pc.i]
    then s.(pc := Counting(s.pc.i + 1, base))
    else s.(pc := Top)
  }

  ghost function DoCheck(s: Host, ok: bool): Host
    requires s.pc.Popped?
  {
    var id := s.pc.job.id;
    if ok && id in s.rows && s.rows[id].status == Queued then s.(pc := Working(s.pc.job))
    else s.(pc := Top, known := s.known - {id}, copies := s.copies - multiset{id},
            misreads := if ok then s.misreads else s.misreads + multiset{id})
  }

  ghost function DoWork(s: Host, rows: map<JobId, Row>, outcome: Outcome): Host
    requires s.pc.Working?
  {
    var id := s.pc.job.id;
    Changed(s, rows).(pc := Reporting(s.pc.job, outcome),
       execs := s.execs + multiset{id},
       wins := if outcome.Done? then s.wins + multiset{id} else s.wins)
  }

  ghost function DoComplete(s: Host, ok: bool): Host
    requires s.pc.Reporting?
  {
    var job := s.pc.job;
    var read := ReadsText(job.kind) && job.file.Some?;
    var s1 := s.(pc := Top, copies := s.copies - multiset{job.id},
                 guard := if read then s.guard - {job.file.value} else s.guard,
                 repairs := if read then s.repairs[job.file.value := 0] else s.repairs);
    if ok then s1.(rows := SetStatus(s.rows, job.id, Succeeded), known := s.known - {job.id})
    else s1.(unrecorded := s.unrecorded + {job.id})
  }

  // The guard holds the file from now on; its extraction may have been queued again.
  ghost function Repaired(s: Host, repair: Option<Record>, file: FileId): Host {
    var s1 := s.(guard := s.guard + {file});
    match repair
    case None => s1
    case Some(r) => Changed(s1, s.rows[r.id := r.row]).(repairs := s.repairs + multiset{file})
  }

  ghost function DoClassify(s: Host, repair: Option<Record>): Host
    requires s.pc.Reporting? && !s.pc.outcome.Done?
  {
    var job := s.pc.job;
    if s.pc.outcome.Error? then s.(pc := Failing(job, s.pc.outcome.terminal))
    else if job.file.None? then s.(pc := Failing(job, false))
    else if job.file.value in s.guard then s.(pc := Failing(job, true))
    else Repaired(s, repair, job.file.value).(pc := Failing(job, true))
  }

  /** Whether the repair of a miss may insert `r`: an extraction of that file under a new id, when
      no other unfinished extract or chunk job of the file exists. */
  ghost predicate RepairAllowed(s: Host, r: Record) {
    && s.pc.Reporting? && s.pc.job.file.Some?
    && r.id !in s.issued
    && r.row.status == Queued && r.row.kind == Extract && r.row.file == s.pc.job.file && r.row.source.Some?
    && forall id <- s.rows ::
         id != s.pc.job.id && s.rows[id].file == s.pc.job.file && (s.rows[id].kind.Extract? || s.rows[id].kind.Chunk?)
         ==> Finished(s.rows[id].status)
  }

  // A failed job is tried again if there is room, and is blocked if there is none.
  ghost function DoRetry(s: Host, ok: bool): Host
    requires s.pc.Failing?
  {
    var job := s.pc.job.(attempts := s.pc.job.attempts + 1);
    if HasRoom(s.queues, job.kind) then
      s.(pc := Top, queues := Pushed(s.queues, job),
         rows := if ok then SetStatus(s.rows, job.id, Queued) else s.rows)
    else
      s.(pc := Top, copies := s.copies - multiset{job.id},
         rows := if ok then SetStatus(s.rows, job.id, Blocked) else s.rows)
  }

  ghost function DoGiveUp(s: Host, ok: bool): Host
    requires s.pc.Failing?
  {
    var id := s.pc.job.id;
    s.(pc := Top, copies := s.copies - multiset{id},
       rows := if ok then SetStatus(s.rows, id, Failed) else s.rows,
       unrecorded := if ok then s.unrecorded else s.unrecorded + {id})
  }

  ghost function DoSettle(s: Host, ok: bool): Host
    requires s.pc.Failing?
  {
    if Retries(s.pc.job, s.pc.terminal) then DoRetry(s, ok) else DoGiveUp(s, ok)
  }

  ghost predicate Enabled(s: Host, a: Action) {
    match a
    case Others(rows) => Interference(s.rows, s.issued, rows)
    case Observe(mode) => s.pc.Top? && (s.mode.Stopped? <==> mode.Stopped?)
    case Tick => s.pc.Top? || s.pc.Second?
    case List(ok, todo) => s.pc.Listing? && (ok ==> Enumerates(todo, s.rows, Queued))
    case Load(ok) => s.pc.Loading? && s.pc.todo != []
    case Relist(ok, todo) => s.pc.Loading? && s.pc.todo == [] && (ok ==> Enumerates(todo, s.rows, Blocked))
    case Unblock(ok) => s.pc.Unblocking?
    case CountRows(ok) => s.pc.Counting? && s.pc.i < |UNFINISHED|
    case Trim => s.pc.Counting? && s.pc.i == |UNFINISHED|
    case Check(ok) => s.pc.Popped?
    case Work(rows, outcome) => s.pc.Working? && Interference(s.rows, s.issued, rows)
    case Complete(ok) => s.pc.Reporting? && s.pc.outcome.Done?
    case Classify(repair) => s.pc.Reporting? && !s.pc.outcome.Done? && (repair.Some? ==> RepairAllowed(s, repair.value))
    case Settle(ok) => s.pc.Failing?
  }

  ghost function Apply(s: Host, a: Action): Host
    requires Enabled(s, a)
  {
    match a
    case Others(rows) => Changed(s, rows)
    case Observe(mode) => s.(mode := mode)
    case Tick => DoTick(s)
    case List(ok, todo) => s.(pc := if ok then Loading(todo) else Second)
    case Load(ok) => DoLoad(s, ok)
    case Relist(ok, todo) => s.(pc := if ok then Unblocking(todo) else Second)
    case Unblock(ok) => if s.pc.todo == [] then s.(pc := Second) else DoUnblock(s, ok)
    case CountRows(ok) => DoCount(s, ok)
    case Trim => s.(pc := Top, trimmed := true, trims := s.trims + 1)
    case Check(ok) => DoCheck(s, ok)
    case Work(rows, outcome) => DoWork(s, rows, outcome)
    case Complete(ok) => DoComplete(s, ok)
    case Classify(repair) => DoClassify(s, repair)
    case Settle(ok) => DoSettle(s, ok)
  }

  ghost predicate Step(s: Host, s': Host) {
    exists a :: Enabled(s, a) && s' == Apply(s, a)
  }

  /** The loop as it enters its `loop`: any catalog, nothing in memory, no history. */
  ghost predicate Start(s: Host) {
    && AllEmpty(s.queues) && s.known == {} && s.guard == {} && !s.trimmed && s.pc.Top?
    && s.issued == s.rows.Keys && s.embeddings == EmbeddingIds(s.rows) && s.copies == multiset{}
    && s.execs == multiset{} && s.wins == multiset{}
    && s.misreads == multiset{} && s.unrecorded == {} && s.lostUnblock == multiset{}
    && s.repairs == multiset{} && s.trims == 0
  }

  ghost predicate StepAt(run: seq<Host>, i: nat)
    requires i + 1 < |run|
  {
    Step(run[i], run[i + 1])
  }

  /** A finite run: from any start, by any steps. */
  ghost predicate Run(run: seq<Host>) {
    && run != [] && Start(run[0])
    && forall i: nat :: i + 1 < |run| ==> StepAt(run, i)
  }

  ghost predicate Reachable(s: Host) {
    exists run :: Run(run) && run[|run| - 1] == s
  }
}
