/**
 One job of the host loop: which one is handed out, and what becomes of it once it has run, along every
 run: done, tried again, or over for good.
 */
module HostJobs {
  import opened Common
  import opened Jobs
  import opened BoundedQueues
  import opened HostModel
  import opened HostSafety
  import opened HostTracking
  import opened HostRuns

  // ---- Handing out ------------------------------------------------------------------------

  lemma FromTick(s: Host, s': Host)
    requires Step(s, s') && s'.pc.Popped? && s'.pc != s.pc
    ensures (s.pc.Top? || s.pc.Second?) && TickQueue(s.queues, s.mode).Some? && s' == DoTick(s)
  {
    var a :| Enabled(s, a) && s' == Apply(s, a);
    if !a.Tick? { NotPopped(s, a); }
  }

  lemma NotPopped(s: Host, a: Action)
    requires Enabled(s, a) && !a.Tick? && Apply(s, a).pc.Popped?
    ensures Apply(s, a).pc == s.pc
  {
    match a
    case Others(_) =>
    case Observe(_) =>
    case List(_, _) =>
    case Load(ok) => ListShortens(s, ok);
    case Relist(_, _) =>
    case Unblock(ok) => ListShortens(s, ok);
    case CountRows(_) =>
    case Trim =>
    case Check(_) =>
    case Work(_, _) =>
    case Complete(ok) => JobTrimming(s, ok, None);
    case Classify(_) =>
    case Settle(_) =>
  }

  // The job is the first of the greatest priority in its queue.
  ghost predicate FirstBest(items: seq<Job>, job: Job) {
    exists b :: 0 <= b < |items| && items[b] == job
      && (forall i :: 0 <= i < |items| ==> items[i].priority <= job.priority)
      && (forall i :: 0 <= i < b ==> items[i].priority < job.priority)
  }

  /** What is handed out: nothing in a paused session, an embedding only in normal mode, and only if
      no work of an earlier stage waits that the mode does not hold back; in its queue, the oldest of
      the most urgent. */
  lemma HandsOutInOrder(s: Host, s': Host)
    requires Reachable(s) && Step(s, s') && s'.pc.Popped? && s'.pc != s.pc
    ensures var job, q := s'.pc.job, QueueOf(s'.pc.job.kind);
            && !s.mode.Stopped? && (job.kind.Embedding? ==> s.mode.Normal?)
            && (forall k :: 0 <= k < q ==> s.queues[k] == [] || (k == QueueOf(Embedding) && !s.mode.Normal?))
            && FirstBest(s.queues[q], job) && s'.rows == s.rows && s'.known == s.known
  {
    FromTick(s, s');
    ReachableInv(s);
    var k := TickQueue(s.queues, s.mode).value;
    var b := Best(s.queues[k]);
    assert QueueOk(k, s.queues[k]);
    assert s.queues[k][b] == s'.pc.job;
  }

  // ---- One step on ------------------------------------------------------------------------

  // The job's own row is as it was written, or as it was.
  ghost predicate Wrote(s: Host, s': Host, id: JobId, st: Status) {
    && (forall x :: x in s'.rows <==> x in s.rows) && (forall x <- s.rows :: x != id ==> s'.rows[x] == s.rows[x])
    && (id in s.rows ==> s'.rows[id] == s.rows[id].(status := st))
  }

  /** Work that is done leaves no copy. Either that is recorded and the id no longer followed, or the
      record is lost and it still is. A file is open to repair again once its text was read. */
  lemma DoneStep(s: Host, s': Host)
    requires Step(s, s') && s.pc.Reporting? && s.pc.outcome.Done? && s'.pc != s.pc
    ensures s'.pc.Top? && s'.queues == s.queues && s'.copies == s.copies - multiset{s.pc.job.id}
    ensures || (Wrote(s, s', s.pc.job.id, Succeeded) && s'.known == s.known - {s.pc.job.id} && s'.unrecorded == s.unrecorded)
            || (s'.rows == s.rows && s'.known == s.known && s'.unrecorded == s.unrecorded + {s.pc.job.id})
    ensures s'.guard == if s.pc.job.file.Some? && (s.pc.job.kind.Chunk? || s.pc.job.kind.Keyword? || s.pc.job.kind.Embedding?)
                        then s.guard - {s.pc.job.file.value} else s.guard
  {
    var a :| Enabled(s, a) && s' == Apply(s, a);
    assert a.Others? || a.Complete?;
  }

  lemma ErrorStep(s: Host, s': Host)
    requires Step(s, s') && s.pc.Reporting? && s.pc.outcome.Error? && s'.pc != s.pc
    ensures s' == s.(pc := Failing(s.pc.job, s.pc.outcome.terminal))
  {
    var a :| Enabled(s, a) && s' == Apply(s, a);
    assert a.Others? || a.Classify?;
  }

  lemma FromFailing(s: Host, s': Host) returns (ok: bool)
    requires Step(s, s') && s.pc.Failing? && s'.pc != s.pc
    ensures s' == DoSettle(s, ok)
  {
    var a :| Enabled(s, a) && s' == Apply(s, a);
    assert a.Others? || a.Settle?;
    ok := a.ok;
  }

  /** A failure that is terminal, or the third, queues nothing: the row is failed, or its record lost. */
  lemma OverForGood(s: Host, s': Host)
    requires Step(s, s') && s.pc.Failing? && s'.pc != s.pc && (s.pc.terminal || s.pc.job.attempts >= 2)
    ensures s'.pc.Top? && s'.queues == s.queues && s'.execs == s.execs && s'.known == s.known
    ensures var id := s.pc.job.id;
            && s'.copies == s.copies - multiset{id}
            && (Wrote(s, s', id, Failed) || (s'.rows == s.rows && id in s'.unrecorded))
  {
    var ok := FromFailing(s, s');
  }

  // A waiting copy of the job that has used so many attempts.
  ghost predicate WaitsWith(s: Host, job: Job, attempts: nat) {
    exists k, i :: 0 <= k < QUEUES && 0 <= i < |s.queues[k]| && s.queues[k][i] == job.(attempts := attempts)
  }

  /** Any other failure is tried again: a copy with one attempt more waits, and its row is queued, or as
      it was if that could not be written. */
  lemma TriedAgain(s: Host, s': Host)
    requires Reachable(s) && Step(s, s') && s.pc.Failing? && s'.pc != s.pc && !s.pc.terminal && s.pc.job.attempts < 2
    ensures s'.pc.Top? && WaitsWith(s', s.pc.job, s.pc.job.attempts + 1)
    ensures s'.rows == s.rows || Wrote(s, s', s.pc.job.id, Queued)
  {
    RetryFindsRoom(s);
    var ok := FromFailing(s, s');
    var job := s.pc.job.(attempts := s.pc.job.attempts + 1);
    assert s' == DoRetry(s, ok);
    assert s'.queues[QueueOf(job.kind)][|s.queues[QueueOf(job.kind)]|] == job;
  }

  /** A miss of a file's text is over for good. The first since the text was last read queues the file's
      extraction again, unless another job that makes or reads the text is unfinished, or the file or its
      folder is gone; the next queues nothing. */
  lemma MissStep(s: Host, s': Host)
    requires Step(s, s') && s.pc.Reporting? && s.pc.outcome.CacheMiss? && s'.pc != s.pc
    ensures s'.pc == Failing(s.pc.job, s.pc.job.file.Some?) && s'.queues == s.queues && s'.execs == s.execs
    ensures s.pc.job.file.None? ==> s'.rows == s.rows && s'.guard == s.guard
    ensures s.pc.job.file.Some? ==> s'.guard == s.guard + {s.pc.job.file.value}
    ensures s.pc.job.file.Some? && s.pc.job.file.value in s.guard ==> s'.rows == s.rows
    ensures s'.rows != s.rows ==>
              && (exists id: JobId, source: SourceId :: id !in s.issued && s'.rows == s.rows[id := Row(Queued, Some(source), s.pc.job.file, Extract)])
              && forall id <- s.rows ::
                   id != s.pc.job.id && s.rows[id].file == s.pc.job.file && (s.rows[id].kind == Extract || s.rows[id].kind == Chunk)
                   ==> s.rows[id].status in {Succeeded, Failed, Canceled}
  {
    var a :| Enabled(s, a) && s' == Apply(s, a);
    assert a.Others? || a.Classify?;
    MissClassified(s, a.repair);
  }

  lemma MissClassified(s: Host, repair: Option<Record>)
    requires s.pc.Reporting? && s.pc.outcome.CacheMiss? && (repair.Some? ==> RepairAllowed(s, repair.value))
    ensures var s' := DoClassify(s, repair);
            && s'.pc == Failing(s.pc.job, s.pc.job.file.Some?) && s'.queues == s.queues && s'.execs == s.execs
            && s'.guard == (if s.pc.job.file.Some? then s.guard + {s.pc.job.file.value} else s.guard)
            && (s.pc.job.file.None? || s.pc.job.file.value in s.guard ==> s'.rows == s.rows)
            && (s'.rows != s.rows ==> repair.Some? && s'.rows == s.rows[repair.value.id := repair.value.row])
    ensures repair.Some? ==> repair.value.row == Row(Queued, Some(repair.value.row.source.value), s.pc.job.file, Extract)
  {
    if repair.Some? && s.pc.job.file.Some? { RepairedInserts(s, repair.value, s.pc.job.file.value); }
  }

  // ---- Over for good ----------------------------------------------------------------------

  ghost predicate Remembers(s: Host, s': Host, id: JobId) {
    && (id in s.unrecorded ==> id in s'.unrecorded)
    && (id in s.embeddings ==> id in s'.embeddings)
    && (id in s.lostUnblock ==> id in s'.lostUnblock)
  }

  lemma PassRemembers(s: Host, ok: bool, id: JobId)
    ensures s.pc.Top? || s.pc.Second? ==> Remembers(s, DoTick(s), id)
    ensures s.pc.Loading? && s.pc.todo != [] ==> Remembers(s, DoLoad(s, ok), id)
    ensures s.pc.Unblocking? && s.pc.todo != [] ==> Remembers(s, DoUnblock(s, ok), id)
    ensures s.pc.Counting? && s.pc.i < |UNFINISHED| ==> Remembers(s, DoCount(s, ok), id)
  {
  }

  lemma JobRemembers(s: Host, ok: bool, rows: map<JobId, Row>, outcome: Outcome, id: JobId)
    ensures s.pc.Popped? ==> Remembers(s, DoCheck(s, ok), id)
    ensures s.pc.Working? ==> Remembers(s, DoWork(s, rows, outcome), id)
    ensures s.pc.Reporting? ==> Remembers(s, DoComplete(s, ok), id)
    ensures s.pc.Failing? ==> Remembers(s, DoSettle(s, ok), id)
  {
  }

  lemma ClassifyRemembers(s: Host, repair: Option<Record>, id: JobId)
    requires s.pc.Reporting? && !s.pc.outcome.Done?
    ensures Remembers(s, DoClassify(s, repair), id)
  {
  }

  lemma StepRemembers(s: Host, a: Action, id: JobId)
    requires Enabled(s, a)
    ensures Remembers(s, Apply(s, a), id)
  {
    match a
    case Tick => PassRemembers(s, true, id);
    case Load(ok) => PassRemembers(s, ok, id);
    case Unblock(ok) => if s.pc.todo != [] { PassRemembers(s, ok, id); }
    case CountRows(ok) => PassRemembers(s, ok, id);
    case Check(ok) => JobRemembers(s, ok, s.rows, Done, id);
    case Work(rows, outcome) => JobRemembers(s, true, rows, outcome, id);
    case Complete(ok) => JobRemembers(s, ok, s.rows, Done, id);
    case Classify(repair) => ClassifyRemembers(s, repair, id);
    case Settle(ok) => JobRemembers(s, ok, s.rows, Done, id);
    case Others(_) =>
    case Observe(_) =>
    case List(_, _) =>
    case Relist(_, _) =>
    case Trim =>
  }

  // Neither an embedding nor anything else whose copies could have been doubled.
  ghost predicate Sound(s: Host, id: JobId) {
    !(id in s.embeddings && id in s.lostUnblock)
  }

  // Settled work whose record was lost is not run.
  lemma UnrecordedStep(s: Host, s': Host, id: JobId)
    requires IdInv(s, id) && Step(s, s') && id in s.unrecorded && Sound(s', id)
    ensures id in s'.unrecorded && Sound(s, id) && s'.execs[id] == s.execs[id]
  {
    var a :| Enabled(s, a) && s' == Apply(s, a);
    StepRemembers(s, a, id);
    OnlyWorkExecutes(s, a, id);
    NotWorkedOn(s, id);
  }

  lemma NotWorkedOn(s: Host, id: JobId)
    requires IdInv(s, id) && id in s.unrecorded && Sound(s, id)
    ensures !(s.pc.Working? && s.pc.job.id == id)
  {
    assert s.pc.Working? && s.pc.job.id == id ==> InHand(s, id);
  }

  lemma OnlyWorkExecutes(s: Host, a: Action, id: JobId)
    requires Enabled(s, a)
    ensures !(s.pc.Working? && s.pc.job.id == id) ==> Apply(s, a).execs[id] == s.execs[id]
  {
    match a
    case Others(rows) =>
    case Observe(_) =>
    case Tick =>
    case List(_, _) =>
    case Load(ok) =>
    case Relist(_, _) =>
    case Unblock(ok) =>
    case CountRows(ok) =>
    case Trim =>
    case Check(ok) =>
    case Work(rows, outcome) =>
    case Complete(ok) =>
    case Classify(repair) => ClassifyChangesExecs(s, repair);
    case Settle(ok) =>
  }

  lemma ClassifyChangesExecs(s: Host, repair: Option<Record>)
    requires s.pc.Reporting? && !s.pc.outcome.Done?
    ensures DoClassify(s, repair).execs == s.execs
  {
  }

  lemma {:induction false} UnrecordedStays(run: seq<Host>, i: nat, j: nat, id: JobId)
    requires Run(run) && i <= j < |run| && id in run[i].unrecorded && Sound(run[j], id)
    ensures id in run[j].unrecorded && Sound(run[i], id) && run[j].execs[id] == run[i].execs[id]
    decreases j - i
  {
    if i < j {
      RunInv(run, i);
      assert StepAt(run, i) && IdInv(run[i], id);
      UnrecordedRest(run, i, j, id);
    }
  }

  lemma {:induction false} UnrecordedRest(run: seq<Host>, i: nat, j: nat, id: JobId)
    requires Run(run) && i < j < |run| && id in run[i].unrecorded && Sound(run[j], id)
    requires IdInv(run[i], id) && Step(run[i], run[i + 1])
    ensures id in run[j].unrecorded && Sound(run[i], id) && run[j].execs[id] == run[i].execs[id]
    decreases j - i, 0
  {
    UnrecordedNext(run[i], run[i + 1], id);
    UnrecordedStays(run, i + 1, j, id);
    UnrecordedStep(run[i], run[i + 1], id);
  }

  lemma UnrecordedNext(s: Host, s': Host, id: JobId)
    requires Step(s, s') && id in s.unrecorded
    ensures id in s'.unrecorded
  {
    var a :| Enabled(s, a) && s' == Apply(s, a);
    StepRemembers(s, a, id);
  }

  lemma OverLeavesNothing(s: Host, s': Host)
    requires Inv(s) && Step(s, s') && s.pc.Failing? && s'.pc != s.pc && (s.pc.terminal || s.pc.job.attempts >= 2)
    ensures Sound(s, s.pc.job.id) ==> s'.copies[s.pc.job.id] == 0
    ensures s.pc.job.id !in s'.unrecorded ==> Untouchable(s', s.pc.job.id)
    ensures s.pc.job.id in s.issued ==> s.pc.job.id in s'.issued
  {
    var id := s.pc.job.id;
    OverForGood(s, s');
    assert IdInv(s, id) && InHand(s, id);
    var ok := FromFailing(s, s');
  }

  /** A job that failed for good is over. As soon as that is settled no copy waits; its row is failed, or
      gone, or its record was lost; and along every run it is not executed again (where the record was
      lost, for every job but an embedding that was reloaded twice). */
  lemma FailedForGood(run: seq<Host>, i: nat, j: nat, id: JobId)
    requires Run(run) && i < j < |run| && run[i].pc.Failing? && run[i].pc.job.id == id && run[i + 1].pc != run[i].pc
    requires run[i].pc.terminal || run[i].pc.job.attempts >= 2
    ensures run[i + 1].pc.Top? && (id in run[i + 1].unrecorded || id !in run[i + 1].rows || RowIs(run[i + 1], id, Failed))
    ensures Sound(run[i], id) ==> !Waiting1(run[i + 1], id)
    ensures id !in run[i + 1].unrecorded || Sound(run[j], id) ==> run[j].execs[id] == run[i].execs[id]
    ensures id !in run[i + 1].unrecorded && id in run[j].rows ==> Finished(run[j].rows[id].status)
  {
    RunInv(run, i);
    RunInv(run, i + 1);
    assert StepAt(run, i);
    OverForGood(run[i], run[i + 1]);
    OverLeavesNothing(run[i], run[i + 1]);
    assert IdInv(run[i], id) && IdInv(run[i + 1], id);
    WaitsCopies(run[i + 1], id);
    if id !in run[i + 1].unrecorded {
      FinishedStays(run, i + 1, j, id);
    } else if Sound(run[j], id) {
      UnrecordedStays(run, i + 1, j, id);
    }
  }
}
