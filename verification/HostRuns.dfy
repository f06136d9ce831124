/**
 What holds in every reachable state of the indexing host loop, and runs that show where the
 guarantees end.
 */
module HostRuns {
  import opened Common
  import opened Jobs
  import opened BoundedQueues
  import opened HostModel
  import opened HostSafety
  import opened HostTracking
  import opened HostBudgets

  // ---- The idle check and the cache-miss guard --------------------------------------------

  ghost predicate Trimming(s: Host) {
    && s.trims <= 1 && (s.trims == 1 ==> s.trimmed)
    && (s.pc.Counting? ==> !s.trimmed && AllEmpty(s.queues) && s.pc.i <= |UNFINISHED| && s.pc.base <= s.issued)
  }

  /** The rows of the first count that are still there have none of the statuses counted so far; any
      other row was queued since. */
  ghost predicate CountedNone(s: Host) {
    s.pc.Counting? && s.pc.i <= |UNFINISHED| ==>
      forall id <- s.rows ::
        if id in s.pc.base then s.rows[id].status !in UNFINISHED[..s.pc.i]
        else s.pc.i > 0 ==> s.rows[id].status.Queued? || Finished(s.rows[id].status)
  }

  ghost predicate GuardInv(s: Host) {
    forall f :: s.repairs[f] <= 1 && (s.repairs[f] > 0 ==> f in s.guard)
  }

  lemma TickTrimming(s: Host)
    requires Trimming(s) && (s.pc.Top? || s.pc.Second?)
    ensures Trimming(DoTick(s)) && CountedNone(DoTick(s))
  {
  }

  lemma CountTrimming(s: Host, ok: bool)
    requires Shape(s) && Trimming(s) && CountedNone(s) && s.pc.Counting? && s.pc.i < |UNFINISHED|
    ensures Trimming(DoCount(s, ok)) && CountedNone(DoCount(s, ok))
  {
    assert UNFINISHED[..s.pc.i + 1] == UNFINISHED[..s.pc.i] + [UNFINISHED[s.pc.i]];
  }

  // No other step enters the idle check; other threads finish rows or insert new ones.
  lemma OtherTrimming(s: Host, a: Action)
    requires Shape(s) && Trimming(s) && CountedNone(s) && Enabled(s, a)
    requires !a.Tick? && !a.CountRows?
    ensures Trimming(Apply(s, a)) && CountedNone(Apply(s, a))
  {
    match a
    case Others(rows) => InsertedTrimming(s, rows);
    case Load(ok) => PassTrimming(s, ok);
    case Unblock(ok) => PassTrimming(s, ok);
    case Check(ok) => PassTrimming(s, ok);
    case Work(rows, outcome) => assert Untrimmed(s, DoWork(s, rows, outcome));
    case Complete(ok) => JobTrimming(s, ok, None);
    case Classify(repair) => JobTrimming(s, true, repair);
    case Settle(ok) => JobTrimming(s, ok, None);
    case Observe(_) =>
    case List(_, _) =>
    case Relist(_, _) =>
    case Trim =>
  }

  lemma InsertedTrimming(s: Host, rows: map<JobId, Row>)
    requires Trimming(s) && CountedNone(s) && Interference(s.rows, s.issued, rows)
    ensures Trimming(Changed(s, rows)) && CountedNone(Changed(s, rows))
  {
    assert UNFINISHED[..|UNFINISHED|] == UNFINISHED;
  }

  // A step that leaves the trims alone and ends outside the idle check.
  ghost predicate Untrimmed(s: Host, s': Host) {
    s'.trims == s.trims && s'.trimmed == s.trimmed && !s'.pc.Counting?
  }

  lemma PassTrimming(s: Host, ok: bool)
    ensures s.pc.Loading? && s.pc.todo != [] ==> Untrimmed(s, DoLoad(s, ok))
    ensures s.pc.Unblocking? && s.pc.todo != [] ==> Untrimmed(s, DoUnblock(s, ok))
    ensures s.pc.Popped? ==> Untrimmed(s, DoCheck(s, ok))
  {
  }

  lemma JobTrimming(s: Host, ok: bool, repair: Option<Record>)
    ensures s.pc.Reporting? ==> Untrimmed(s, DoComplete(s, ok))
    ensures s.pc.Reporting? && !s.pc.outcome.Done? ==> Untrimmed(s, DoClassify(s, repair))
    ensures s.pc.Failing? ==> Untrimmed(s, DoSettle(s, ok))
  {
  }

  lemma KeepsTrimming(s: Host, a: Action)
    requires Shape(s) && Trimming(s) && CountedNone(s) && Enabled(s, a)
    ensures Trimming(Apply(s, a)) && CountedNone(Apply(s, a))
  {
    if a.Tick? {
      TickTrimming(s);
    } else if a.CountRows? {
      CountTrimming(s, a.ok);
    } else {
      OtherTrimming(s, a);
    }
  }

  lemma CompleteGuard(s: Host, ok: bool)
    requires GuardInv(s) && s.pc.Reporting?
    ensures GuardInv(DoComplete(s, ok))
  {
  }

  lemma ClassifyGuard(s: Host, repair: Option<Record>)
    requires GuardInv(s) && s.pc.Reporting? && !s.pc.outcome.Done?
    ensures GuardInv(DoClassify(s, repair))
  {
  }

  lemma PassGuard(s: Host, ok: bool)
    requires GuardInv(s)
    ensures s.pc.Top? || s.pc.Second? ==> GuardInv(DoTick(s))
    ensures s.pc.Loading? && s.pc.todo != [] ==> GuardInv(DoLoad(s, ok))
    ensures s.pc.Unblocking? && s.pc.todo != [] ==> GuardInv(DoUnblock(s, ok))
  {
  }

  lemma JobGuard(s: Host, ok: bool, rows: map<JobId, Row>, outcome: Outcome)
    requires GuardInv(s)
    ensures s.pc.Counting? && s.pc.i < |UNFINISHED| ==> GuardInv(DoCount(s, ok))
    ensures s.pc.Popped? ==> GuardInv(DoCheck(s, ok))
    ensures s.pc.Working? ==> GuardInv(DoWork(s, rows, outcome))
    ensures s.pc.Failing? ==> GuardInv(DoSettle(s, ok))
  {
  }

  lemma KeepsGuard(s: Host, a: Action)
    requires GuardInv(s) && Enabled(s, a)
    ensures GuardInv(Apply(s, a))
  {
    match a
    case Complete(ok) => CompleteGuard(s, ok);
    case Classify(repair) => ClassifyGuard(s, repair);
    case Tick => PassGuard(s, true);
    case Load(ok) => PassGuard(s, ok);
    case Unblock(ok) => PassGuard(s, ok);
    case CountRows(ok) => JobGuard(s, ok, s.rows, Done);
    case Check(ok) => JobGuard(s, ok, s.rows, Done);
    case Work(rows, outcome) => JobGuard(s, true, rows, outcome);
    case Settle(ok) => JobGuard(s, ok, s.rows, Done);
    case Others(_) =>
    case Observe(_) =>
    case List(_, _) =>
    case Relist(_, _) =>
    case Trim =>
  }

  // ---- The lists of a pass ----------------------------------------------------------------

  lemma RestDistinct(todo: seq<Record>)
    requires Distinct(todo) && todo != []
    ensures Distinct(todo[1..])
  {
  }

  lemma ListShortens(s: Host, ok: bool)
    ensures s.pc.Loading? && s.pc.todo != [] ==> DoLoad(s, ok).pc == Loading(s.pc.todo[1..])
    ensures s.pc.Unblocking? && s.pc.todo != [] ==> DoUnblock(s, ok).pc == Unblocking(s.pc.todo[1..])
  {
  }

  lemma ListEnds(s: Host, a: Action)
    requires Enabled(s, a) && (a.Tick? || a.CountRows? || a.Check? || a.Work? || a.Complete? || a.Classify? || a.Settle?)
    ensures Todo(Apply(s, a)) == []
  {
    match a
    case Tick =>
    case CountRows(_) =>
    case Check(ok) =>
    case Work(rows, outcome) =>
    case Complete(ok) =>
    case Classify(repair) =>
    case Settle(ok) =>
  }

  lemma KeepsDistinct(s: Host, a: Action)
    requires Distinct(Todo(s)) && Enabled(s, a)
    ensures Distinct(Todo(Apply(s, a)))
  {
    match a
    case Others(rows) => assert Todo(Changed(s, rows)) == Todo(s);
    case Load(ok) =>
      ListShortens(s, ok);
      RestDistinct(s.pc.todo);
    case Unblock(ok) =>
      if s.pc.todo != [] {
        ListShortens(s, ok);
        RestDistinct(s.pc.todo);
      }
    case List(ok, todo) =>
    case Relist(ok, todo) =>
    case Observe(_) =>
    case Trim =>
    case Tick => ListEnds(s, a);
    case CountRows(_) => ListEnds(s, a);
    case Check(_) => ListEnds(s, a);
    case Work(_, _) => ListEnds(s, a);
    case Complete(_) => ListEnds(s, a);
    case Classify(_) => ListEnds(s, a);
    case Settle(_) => ListEnds(s, a);
  }

  // ---- Every reachable state --------------------------------------------------------------

  ghost predicate Inv(s: Host) {
    && Shape(s) && Distinct(Todo(s)) && Trimming(s) && CountedNone(s) && GuardInv(s)
    && forall id :: IdInv(s, id) && BoundedInv(s, id) && Budget(s, id)
  }

  lemma StartInv(s: Host)
    requires Start(s)
    ensures Inv(s)
  {
    forall id ensures IdInv(s, id) && BoundedInv(s, id) && Budget(s, id) {
      MemNone(s.queues, id, QUEUES);
      NoneWeigh(s.queues, id, QUEUES);
    }
  }

  lemma {:induction false} MemNone(qs: Queues, id: JobId, n: nat)
    requires AllEmpty(qs) && n <= QUEUES
    ensures Mem(qs, id, n) == 0
  {
    if n > 0 { MemNone(qs, id, n - 1); }
  }

  lemma StepInv(s: Host, s': Host)
    requires Inv(s) && Step(s, s')
    ensures Inv(s')
  {
    var a :| Enabled(s, a) && s' == Apply(s, a);
    KeepsShape(s, a);
    KeepsDistinct(s, a);
    KeepsTrimming(s, a);
    KeepsGuard(s, a);
    forall id ensures IdInv(s', id) && BoundedInv(s', id) && Budget(s', id) {
      KeepsIdInv(s, a, id);
      KeepsBounded(s, a, id);
      KeepsBudget(s, a, id);
    }
  }

  lemma {:induction false} RunInv(run: seq<Host>, n: nat)
    requires Run(run) && n < |run|
    ensures Inv(run[n])
  {
    if n == 0 {
      StartInv(run[0]);
    } else {
      RunInv(run, n - 1);
      assert StepAt(run, n - 1);
      StepInv(run[n - 1], run[n]);
    }
  }

  lemma StartReachable(s: Host)
    requires Start(s)
    ensures Reachable(s)
  {
    var run := [s];
    assert Run(run) && run[|run| - 1] == s;
  }

  lemma Go(s: Host, a: Action)
    requires Reachable(s) && Enabled(s, a)
    ensures Reachable(Apply(s, a))
  {
    var run :| Run(run) && run[|run| - 1] == s;
    var run' := run + [Apply(s, a)];
    forall i: nat | i + 1 < |run'| ensures StepAt(run', i) {
      if i + 1 < |run| {
        assert StepAt(run, i);
      } else {
        assert Enabled(s, a) && run'[i + 1] == Apply(s, a);
      }
    }
    assert Run(run') && run'[|run'| - 1] == Apply(s, a);
  }

  lemma StepReached(s: Host, s': Host)
    requires Reachable(s) && Step(s, s')
    ensures Reachable(s')
  {
    var a :| Enabled(s, a) && s' == Apply(s, a);
    Go(s, a);
  }

  lemma UnblockReach(s: Host, record: Record, rest: seq<Record>, job: Job, ok: bool)
    requires Reachable(s) && s.pc == Unblocking([record] + rest)
    requires JobFromRecord(record) == Some(job) && HasRoom(s.queues, job.kind)
    ensures Reachable(Unblocked(Loaded(s.(pc := Unblocking(rest)), job), ok, job.id))
  {
    assert s.pc.todo[1..] == rest;
    Go(s, Unblock(ok));
  }

  lemma ReachableInv(s: Host)
    requires Reachable(s)
    ensures Inv(s)
  {
    var run :| Run(run) && run[|run| - 1] == s;
    RunInv(run, |run| - 1);
  }

  ghost predicate Waiting1(s: Host, id: JobId) {
    exists k, i :: 0 <= k < QUEUES && 0 <= i < |s.queues[k]| && s.queues[k][i].id == id
  }

  lemma {:induction false} CountedWaits(items: seq<Job>, id: JobId) returns (i: nat)
    requires Count(items, id) > 0
    ensures i < |items| && items[i].id == id
  {
    i := |items| - 1;
    if items[i].id != id { i := CountedWaits(items[..i], id); }
  }

  lemma {:induction false} MemWaits(s: Host, id: JobId, n: nat)
    requires n <= QUEUES && Mem(s.queues, id, n) > 0
    ensures Waiting1(s, id)
  {
    if Count(s.queues[n - 1], id) > 0 {
      var i := CountedWaits(s.queues[n - 1], id);
    } else {
      MemWaits(s, id, n - 1);
    }
  }

  lemma WaitsCopies(s: Host, id: JobId)
    requires Counted(s, id) && s.pc.Top?
    ensures Waiting1(s, id) <==> s.copies[id] > 0
  {
    if s.copies[id] > 0 { MemWaits(s, id, QUEUES); }
    if Waiting1(s, id) {
      var k, i :| 0 <= k < QUEUES && 0 <= i < |s.queues[k]| && s.queues[k][i].id == id;
      CountMember(s.queues[k], i);
      MemAtLeast(s.queues, id, k, QUEUES);
    }
  }

  // A row that a rehydration pass with room for it loads, or has loaded already.
  ghost predicate Reloadable(s: Host, id: JobId) {
    Open(s, id) && id in s.rows && s.rows[id].source.Some?
  }

  /** Between iterations no row is forgotten, whatever failed and whatever others did: a queued row
      waits in memory, or a later pass loads it, or it is settled work whose record could not be
      written. The last excuse is exact: such a row neither waits nor is loaded again. */
  lemma NothingForgotten(s: Host, id: JobId)
    requires Reachable(s) && s.pc.Top? && id in s.rows && s.rows[id].source.Some?
    ensures RowIs(s, id, Blocked) ==> Reloadable(s, id)
    ensures RowIs(s, id, Queued) && id !in s.unrecorded ==> Waiting1(s, id) || Reloadable(s, id)
    ensures id in s.unrecorded && !Doubtful(s, id) ==> !Waiting1(s, id) && !Reloadable(s, id)
  {
    ReachableInv(s);
    assert IdInv(s, id);
    WaitsCopies(s, id);
  }

  // What is listed of the id says that it has no source.
  ghost predicate Sourceless(todo: seq<Record>, id: JobId) {
    forall i :: 0 <= i < |todo| && todo[i].id == id ==> todo[i].row.source.None?
  }

  // Nothing was ever made of the id's row.
  ghost predicate Untouched(s: Host, id: JobId) {
    Sourceless(Todo(s), id) && s.copies[id] == 0 && s.execs[id] == 0
  }

  lemma PassUntouched(s: Host, ok: bool, id: JobId)
    requires Untouched(s, id)
    ensures s.pc.Loading? && s.pc.todo != [] ==> Untouched(DoLoad(s, ok), id)
    ensures s.pc.Unblocking? && s.pc.todo != [] ==> Untouched(DoUnblock(s, ok), id)
  {
    if Todo(s) != [] { assert forall i :: 0 <= i < |Todo(s)| - 1 ==> Todo(s)[1..][i] == Todo(s)[i + 1]; }
  }

  lemma JobUntouched(s: Host, ok: bool, rows: map<JobId, Row>, outcome: Outcome, id: JobId)
    requires Untouched(s, id) && !InHand(s, id)
    ensures s.pc.Popped? ==> Untouched(DoCheck(s, ok), id)
    ensures s.pc.Working? ==> Untouched(DoWork(s, rows, outcome), id)
  {
  }

  lemma ReportUntouched(s: Host, ok: bool, id: JobId)
    requires Untouched(s, id) && !InHand(s, id)
    ensures s.pc.Reporting? ==> Untouched(DoComplete(s, ok), id)
    ensures s.pc.Failing? ==> Untouched(DoRetry(s, ok), id) && Untouched(DoGiveUp(s, ok), id)
  {
  }

  lemma ClassifyUntouched(s: Host, repair: Option<Record>, id: JobId)
    requires Untouched(s, id) && s.pc.Reporting? && !s.pc.outcome.Done?
    ensures Untouched(DoClassify(s, repair), id)
  {
  }

  lemma StepUntouched(s: Host, a: Action, id: JobId)
    requires Untouched(s, id) && Counted(s, id) && Enabled(s, a) && (id in s.rows ==> s.rows[id].source.None?)
    ensures Untouched(Apply(s, a), id)
  {
    match a
    case Others(rows) => assert Todo(Changed(s, rows)) == Todo(s);
    case Load(ok) => PassUntouched(s, ok, id);
    case Unblock(ok) => if s.pc.todo != [] { PassUntouched(s, ok, id); }
    case Check(ok) => JobUntouched(s, ok, s.rows, Done, id);
    case Work(rows, outcome) => JobUntouched(s, true, rows, outcome, id);
    case Complete(ok) => ReportUntouched(s, ok, id);
    case Classify(repair) => ClassifyUntouched(s, repair, id);
    case Settle(ok) => ReportUntouched(s, ok, id);
    case List(ok, todo) =>
    case Relist(ok, todo) =>
    case Tick =>
    case Observe(_) =>
    case CountRows(_) =>
    case Trim =>
  }

  /** A row without a source is never loaded and never run, however long it stays queued. */
  lemma {:induction false} SourcelessNeverRuns(run: seq<Host>, id: JobId, n: nat)
    requires Run(run) && n < |run|
    requires forall i :: 0 <= i < n && id in run[i].rows ==> run[i].rows[id].source.None?
    ensures Untouched(run[n], id)
  {
    if n > 0 {
      SourcelessNeverRuns(run, id, n - 1);
      RunInv(run, n - 1);
      assert IdInv(run[n - 1], id) && StepAt(run, n - 1);
      var a :| Enabled(run[n - 1], a) && run[n] == Apply(run[n - 1], a);
      StepUntouched(run[n - 1], a, id);
    }
  }

  /** No id has two in-memory copies, unless its own un-block write was lost and copies of its kind
      can outlast a rehydration pass: embeddings, and everything in a paused session. */
  lemma NoSecondCopy(s: Host, id: JobId)
    requires Reachable(s)
    requires id in s.lostUnblock ==> id !in s.embeddings && !s.mode.Stopped?
    ensures Mem(s.queues, id, QUEUES) + One(InHand(s, id)) <= 1
  {
    ReachableInv(s);
    assert IdInv(s, id);
  }

  /** Work that succeeded is never run again in the session, recorded or not; for an embedding, if
      its own un-block writes landed. */
  lemma NeverRedone(s: Host, id: JobId)
    requires Reachable(s) && !(id in s.embeddings && id in s.lostUnblock)
    ensures s.wins[id] <= 1
    ensures (s.pc.Popped? || s.pc.Working?) && InHand(s, id) ==> s.wins[id] == 0
    ensures s.wins[id] > 0 && s.pc.Top? ==> !Waiting1(s, id) && !Reloadable(s, id)
  {
    ReachableInv(s);
    assert IdInv(s, id);
    if s.pc.Top? { WaitsCopies(s, id); }
  }

  /** A job runs at most three times, plus three for each status read that failed at its check and for
      each of its un-block writes that was lost; the latter count only for an embedding. */
  lemma BoundedRetries(s: Host, id: JobId)
    requires Reachable(s)
    ensures s.execs[id] <= MAX_JOB_ATTEMPTS * (1 + s.misreads[id] + s.lostUnblock[id])
    ensures id !in s.embeddings ==> s.execs[id] <= MAX_JOB_ATTEMPTS * (1 + s.misreads[id])
  {
    ReachableInv(s);
    assert IdInv(s, id) && BoundedInv(s, id) && Budget(s, id);
  }

  /** With background indexing switched off nothing is handed out, let alone run. */
  lemma PausedRunsNothing(s: Host, id: JobId)
    requires Reachable(s) && s.mode.Stopped?
    ensures !InHand(s, id) && s.execs[id] == 0 && s.wins[id] == 0
  {
    ReachableInv(s);
    assert IdInv(s, id);
  }

  /** A retry always finds room, so a failed job is never marked blocked. */
  lemma RetryFindsRoom(s: Host)
    requires Reachable(s) && s.pc.Failing?
    ensures HasRoom(s.queues, s.pc.job.kind)
    ensures forall ok :: !RowIs(s, s.pc.job.id, Blocked) ==> !RowIs(DoSettle(s, ok), s.pc.job.id, Blocked)
  {
    ReachableInv(s);
  }

  /** When the cache is trimmed nothing waits in memory, and the rows still unfinished are exactly the
      queued ones that another thread inserted after the idle check began counting. */
  lemma TrimIsSafe(s: Host, id: JobId)
    requires Reachable(s) && Enabled(s, Trim) && id in s.rows
    ensures AllEmpty(s.queues)
    ensures !Finished(s.rows[id].status) <==> s.rows[id].status.Queued? && id !in s.pc.base
  {
    ReachableInv(s);
    assert UNFINISHED[..|UNFINISHED|] == UNFINISHED;
    UnfinishedAreCounted(s.rows[id].status);
  }

  lemma UnfinishedAreCounted(st: Status)
    ensures Finished(st) || st in UNFINISHED
  {
    assert UNFINISHED[0] == Queued && UNFINISHED[1] == Running && UNFINISHED[2] == Paused
      && UNFINISHED[3] == Blocked && UNFINISHED[4] == Waiting;
  }

  /** One trim per idle stretch: none more until a job is handed out. */
  lemma OneTrimPerStretch(s: Host)
    requires Reachable(s)
    ensures s.trims <= 1
    ensures s.trims == 1 ==> !Enabled(s, Trim)
  {
    ReachableInv(s);
  }

  /** Between two successful reads of a file's text, its extraction is re-queued at most once. */
  lemma OneRepairPerRead(s: Host, f: FileId)
    requires Reachable(s)
    ensures s.repairs[f] <= 1
    ensures s.repairs[f] == 1 && s.pc.Reporting? && s.pc.outcome.CacheMiss? && s.pc.job.file == Some(f)
            ==> forall r :: DoClassify(s, r).rows == s.rows && DoClassify(s, r).pc == Failing(s.pc.job, true)
  {
    ReachableInv(s);
  }

  // ---- From pop to execution --------------------------------------------------------------

  ghost predicate OthersAt(run: seq<Host>, k: nat)
    requires k + 1 < |run|
  {
    run[k + 1] == Changed(run[k], run[k + 1].rows)
  }

  // From `i` to `j` only other threads took steps.
  ghost predicate OnlyOthers(run: seq<Host>, i: nat, j: nat)
    requires j < |run|
  {
    forall k: nat :: i <= k < j ==> OthersAt(run, k)
  }

  // Where the job was checked and found queued.
  ghost predicate Passed(run: seq<Host>, c: nat, job: Job)
    requires c + 1 < |run|
  {
    && run[c].pc == Popped(job) && RowIs(run[c], job.id, Queued)
    && run[c + 1] == run[c].(pc := Working(job))
  }

  lemma OtherwiseNotWorking(s: Host, a: Action)
    requires Enabled(s, a) && !a.Others? && !a.Check?
    ensures !Apply(s, a).pc.Working?
  {
    match a
    case Observe(_) =>
    case Tick =>
    case List(_, _) =>
    case Load(ok) =>
    case Relist(_, _) =>
    case Unblock(ok) =>
    case CountRows(ok) =>
    case Trim =>
    case Work(rows, outcome) =>
    case Complete(ok) =>
    case Classify(repair) =>
    case Settle(ok) =>
  }

  lemma StepDispatch(s: Host, a: Action)
    requires Enabled(s, a) && Apply(s, a).pc.Working?
    ensures var s' := Apply(s, a);
            || s' == Changed(s, s'.rows)
            || (s.pc == Popped(s'.pc.job) && RowIs(s, s'.pc.job.id, Queued) && s' == s.(pc := s'.pc))
  {
    if !a.Others? && !a.Check? { OtherwiseNotWorking(s, a); }
  }

  lemma DispatchedAt(run: seq<Host>, j: nat)
    requires Run(run) && j + 1 < |run| && run[j + 1].pc.Working?
    ensures (OthersAt(run, j) && run[j].pc == run[j + 1].pc) || Passed(run, j, run[j + 1].pc.job)
  {
    assert StepAt(run, j);
    var a :| Enabled(run[j], a) && run[j + 1] == Apply(run[j], a);
    StepDispatch(run[j], a);
  }

  lemma {:induction false} WorkingSince(run: seq<Host>, j: nat) returns (c: nat)
    requires Run(run) && j < |run| && run[j].pc.Working?
    ensures c < j && Passed(run, c, run[j].pc.job) && OnlyOthers(run, c + 1, j)
    decreases j
  {
    assert j > 0;
    DispatchedAt(run, j - 1);
    if Passed(run, j - 1, run[j].pc.job) {
      c := j - 1;
    } else {
      c := WorkingSince(run, j - 1);
    }
  }

  lemma StepExecutes(s: Host, a: Action, id: JobId)
    requires Enabled(s, a)
    ensures Apply(s, a).execs[id] > s.execs[id] ==> s.pc.Working? && s.pc.job.id == id && a.Work?
    ensures a.Others? ==> Apply(s, a) == Changed(s, a.rows)
  {
    match a
    case Work(rows, outcome) =>
    case Others(rows) =>
    case Check(ok) =>
    case Observe(_) =>
    case Tick =>
    case List(_, _) =>
    case Load(ok) =>
    case Relist(_, _) =>
    case Unblock(ok) =>
    case CountRows(ok) =>
    case Trim =>
    case Complete(ok) =>
    case Classify(repair) =>
    case Settle(ok) =>
  }

  /** Along every run, whenever a job is executed its row was read and found queued after the job was
      handed out, and between that reading and the end of the execution only other threads moved. */
  lemma DispatchChecksTheRow(run: seq<Host>, j: nat, id: JobId) returns (c: nat, job: Job)
    requires Run(run) && j + 1 < |run| && run[j + 1].execs[id] > run[j].execs[id]
    ensures job.id == id && c < j && Passed(run, c, job) && OnlyOthers(run, c + 1, j)
  {
    assert StepAt(run, j);
    var a :| Enabled(run[j], a) && run[j + 1] == Apply(run[j], a);
    StepExecutes(run[j], a, id);
    job := run[j].pc.job;
    c := WorkingSince(run, j);
  }

  /** Each execution has a reading of its own: a later one was checked after the earlier one ended. */
  lemma EachRunIsChecked(run: seq<Host>, i: nat, j: nat, id: JobId, other: JobId) returns (c: nat)
    requires Run(run) && i < j && j + 1 < |run|
    requires run[i + 1].execs[other] > run[i].execs[other] && run[j + 1].execs[id] > run[j].execs[id]
    ensures i < c < j && RowIs(run[c], id, Queued) && run[c].pc.Popped? && run[c].pc.job.id == id
  {
    var job;
    c, job := DispatchChecksTheRow(run, j, id);
    assert !OthersAt(run, i) && !Passed(run, i, job);
  }

  lemma StepFromPopped(s: Host, a: Action)
    requires Enabled(s, a) && s.pc.Popped?
    ensures var s', id := Apply(s, a), s.pc.job.id;
            && s'.execs == s.execs && s'.wins == s.wins
            && (s'.pc == s.pc || s'.rows == s.rows)
            && (s'.pc == s.pc
                || (s'.pc == Working(s.pc.job) && RowIs(s, id, Queued))
                || (s'.pc.Top? && id !in s'.known))
  {
    assert a.Others? || a.Check?;
  }

  lemma {:induction false} OthersRunNothing(run: seq<Host>, i: nat, j: nat, job: Job)
    requires Run(run) && i <= j < |run|
    requires forall k :: i <= k < j ==> run[k].pc == Popped(job)
    ensures run[j].execs == run[i].execs && run[j].wins == run[i].wins
  {
    if i < j {
      OthersRunNothing(run, i, j - 1, job);
      assert StepAt(run, j - 1) && run[j - 1].pc == Popped(job);
      OneFromPopped(run[j - 1], run[j]);
    }
  }

  lemma OneFromPopped(s: Host, s': Host)
    requires Step(s, s') && s.pc.Popped?
    ensures s'.execs == s.execs && s'.wins == s.wins
  {
    var a :| Enabled(s, a) && s' == Apply(s, a);
    StepFromPopped(s, a);
  }

  /** What becomes of a job that was handed out: it is worked on if its row is queued then, or else
      dropped without a write, and then it is not tracked any more. */
  lemma HandedOutEnds(run: seq<Host>, i: nat, j: nat, job: Job)
    requires Run(run) && i < j < |run| && run[j].pc != Popped(job)
    requires forall k :: i <= k < j ==> run[k].pc == Popped(job)
    ensures run[j].execs == run[i].execs && run[j].wins == run[i].wins && run[j].rows == run[j - 1].rows
    ensures run[j].pc == Working(job) ==> RowIs(run[j - 1], job.id, Queued)
    ensures run[j].pc != Working(job) ==> run[j].pc.Top? && job.id !in run[j].known
  {
    OthersRunNothing(run, i, j, job);
    assert StepAt(run, j - 1);
    var a :| Enabled(run[j - 1], a) && run[j] == Apply(run[j - 1], a);
    StepFromPopped(run[j - 1], a);
  }

  // ---- Canceled rows ----------------------------------------------------------------------

  // No write of the loop that is under way was decided on before the row was finished.
  ghost predicate Untouchable(s: Host, id: JobId) {
    && (id in s.rows ==> Finished(s.rows[id].status))
    && (InHand(s, id) ==> s.pc.Popped?) && Listed(Todo(s), id) == 0
  }

  // The id is still known to have existed, and has not been run.
  ghost predicate StillUntouchable(s: Host, s': Host, id: JobId) {
    Untouchable(s', id) && id in s'.issued && s'.execs[id] == s.execs[id]
  }

  lemma LoadUntouchable(s: Host, ok: bool, id: JobId)
    requires Untouchable(s, id) && id in s.issued && s.pc.Loading? && s.pc.todo != []
    ensures StillUntouchable(s, DoLoad(s, ok), id)
  {
    LoadOther(s, ok, id);
  }

  lemma UnblockUntouchable(s: Host, ok: bool, id: JobId)
    requires Untouchable(s, id) && id in s.issued && s.pc.Unblocking? && s.pc.todo != []
    ensures StillUntouchable(s, DoUnblock(s, ok), id)
  {
    UnblockOther(s, ok, id);
  }

  lemma OthersUntouchable(s: Host, rows: map<JobId, Row>, id: JobId)
    requires Untouchable(s, id) && id in s.issued && Interference(s.rows, s.issued, rows)
    ensures StillUntouchable(s, Changed(s, rows), id)
  {
    assert id in rows ==> id in s.rows;
  }

  lemma JobUntouchable(s: Host, ok: bool, rows: map<JobId, Row>, outcome: Outcome, id: JobId)
    requires Untouchable(s, id) && id in s.issued
    ensures s.pc.Popped? ==> StillUntouchable(s, DoCheck(s, ok), id)
    ensures s.pc.Working? && Interference(s.rows, s.issued, rows) ==> StillUntouchable(s, DoWork(s, rows, outcome), id)
  {
    if s.pc.Working? && Interference(s.rows, s.issued, rows) { OthersUntouchable(s, rows, id); }
  }

  lemma ReportUntouchable(s: Host, ok: bool, id: JobId)
    requires Untouchable(s, id) && id in s.issued
    ensures s.pc.Reporting? ==> StillUntouchable(s, DoComplete(s, ok), id)
  {
  }

  lemma SettleUntouchable(s: Host, ok: bool, id: JobId)
    requires Untouchable(s, id) && id in s.issued && s.pc.Failing?
    ensures StillUntouchable(s, DoRetry(s, ok), id) && StillUntouchable(s, DoGiveUp(s, ok), id)
  {
  }

  lemma ClassifyUntouchable(s: Host, repair: Option<Record>, id: JobId)
    requires Untouchable(s, id) && id in s.issued && Shape(s) && s.pc.Reporting? && !s.pc.outcome.Done?
    requires repair.Some? ==> RepairAllowed(s, repair.value)
    ensures StillUntouchable(s, DoClassify(s, repair), id)
  {
    RepairInterferes(s, repair);
    OthersUntouchable(s, DoClassify(s, repair).rows, id);
    ClassifyChanges(s, repair);
  }

  lemma TickUntouchable(s: Host, ok: bool, id: JobId)
    requires Untouchable(s, id) && id in s.issued
    ensures s.pc.Top? || s.pc.Second? ==> StillUntouchable(s, DoTick(s), id)
    ensures s.pc.Counting? && s.pc.i < |UNFINISHED| ==> StillUntouchable(s, DoCount(s, ok), id)
  {
  }

  lemma ListUntouchable(s: Host, todo: seq<Record>, id: JobId)
    requires Untouchable(s, id) && id in s.issued && Active(s).None?
    ensures Enumerates(todo, s.rows, Queued) ==> StillUntouchable(s, s.(pc := Loading(todo)), id)
    ensures Enumerates(todo, s.rows, Blocked) ==> StillUntouchable(s, s.(pc := Unblocking(todo)), id)
    ensures StillUntouchable(s, s.(pc := Second), id)
  {
    if Enumerates(todo, s.rows, Queued) { EnumeratesListed(todo, s.rows, Queued, id); }
    if Enumerates(todo, s.rows, Blocked) { EnumeratesListed(todo, s.rows, Blocked, id); }
  }

  lemma StepUntouchable(s: Host, a: Action, id: JobId)
    requires Untouchable(s, id) && id in s.issued && Shape(s) && Enabled(s, a)
    ensures StillUntouchable(s, Apply(s, a), id)
  {
    match a
    case Others(rows) => OthersUntouchable(s, rows, id);
    case Tick => TickUntouchable(s, true, id);
    case List(ok, todo) => ListUntouchable(s, todo, id);
    case Load(ok) => LoadUntouchable(s, ok, id);
    case Relist(ok, todo) => ListUntouchable(s, todo, id);
    case Unblock(ok) => if s.pc.todo != [] { UnblockUntouchable(s, ok, id); }
    case Check(ok) => JobUntouchable(s, ok, s.rows, Done, id);
    case Work(rows, outcome) => JobUntouchable(s, true, rows, outcome, id);
    case Complete(ok) => ReportUntouchable(s, ok, id);
    case Classify(repair) => ClassifyUntouchable(s, repair, id);
    case Settle(ok) => SettleUntouchable(s, ok, id);
    case CountRows(ok) => TickUntouchable(s, ok, id);
    case Observe(_) =>
    case Trim =>
  }

  lemma NextUntouchable(s: Host, s': Host, id: JobId)
    requires Untouchable(s, id) && id in s.issued && Shape(s) && Step(s, s')
    ensures StillUntouchable(s, s', id)
  {
    var a :| Enabled(s, a) && s' == Apply(s, a);
    StepUntouchable(s, a, id);
  }

  /** A row that was canceled (or finished otherwise, or deleted) stays so and its job is not run any
      more, unless the loop was just then running the job, or held the row on a list it had read. */
  lemma {:induction false} FinishedStays(run: seq<Host>, i: nat, j: nat, id: JobId)
    requires Run(run) && i <= j < |run| && id in run[i].issued && Untouchable(run[i], id)
    ensures id in run[j].issued && Untouchable(run[j], id) && run[j].execs[id] == run[i].execs[id]
    decreases j
  {
    if i < j {
      FinishedStays(run, i, j - 1, id);
      RunInv(run, j - 1);
      assert StepAt(run, j - 1);
      NextUntouchable(run[j - 1], run[j], id);
    }
  }
}
