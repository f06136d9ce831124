/** Runs of the indexing host loop that show which conditions its guarantees cannot do without. */
module HostLimits {
  import opened Common
  import opened Jobs
  import opened BoundedQueues
  import opened HostModel
  import opened HostSafety
  import opened HostTracking
  import opened HostRuns

  const EMPTY: Queues := [[], [], [], [], [], []]

  function Embeddings(jobs: seq<Job>): Queues {
    [[], [], [], [], jobs, []]
  }

  ghost function Begin(rows: map<JobId, Row>, mode: Mode): (s: Host)
    ensures Start(s)
  {
    Host(rows, EMPTY, {}, {}, mode, false, Top, rows.Keys, EmbeddingIds(rows),
         multiset{}, multiset{}, multiset{}, multiset{}, {}, multiset{}, multiset{}, 0)
  }

  // ---- A trim while a row is queued -------------------------------------------------------

  const LATE_ROW: Row := Row(Queued, Some(1), Some(1), Embedding)

  // A pass over an empty catalog finds nothing to load.
  lemma EmptyPass() returns (s: Host)
    ensures Reachable(s) && s == Begin(map[], Normal).(pc := Second)
  {
    s := Begin(map[], Normal);
    StartReachable(Begin(map[], Normal));
    OnlyEmbeddings([], Normal);
    Go(s, Tick);
    s := s.(pc := Listing);
    Go(s, List(true, []));
    s := s.(pc := Loading([]));
    Go(s, Relist(true, []));
    s := s.(pc := Unblocking([]));
    Go(s, Unblock(true));
    s := s.(pc := Second);
  }

  lemma IdleOnce() returns (s: Host)
    ensures Reachable(s) && s == Begin(map[], Normal).(pc := Counting(1, {}))
  {
    s := EmptyPass();
    OnlyEmbeddings([], Normal);
    Go(s, Tick);
    s := s.(pc := Counting(0, {}));
    Go(s, CountRows(true));
    assert s.rows.Keys == {};
    s := s.(pc := Counting(1, {}));
  }

  lemma NoneOfTheOthers(s: Host, i: nat) returns (s': Host)
    requires Reachable(s) && s.pc == Counting(i, {}) && 1 <= i < |UNFINISHED| && s.rows == map[1 := LATE_ROW]
    ensures Reachable(s') && s' == s.(pc := Counting(i + 1, {}))
  {
    assert UNFINISHED[i] != Queued;
    Go(s, CountRows(true));
    s' := s.(pc := Counting(i + 1, {}));
  }

  /** The five counts are separate reads: a row another thread queues between them is missed, so
      the trim itself does not see it. */
  lemma TrimCanMissANewRow() returns (s: Host)
    ensures Reachable(s) && Enabled(s, Trim) && RowIs(s, 1, Queued)
  {
    s := IdleOnce();
    var rows := map[1 := LATE_ROW];
    Go(s, Others(rows));
    s := Changed(s, rows);
    s := NoneOfTheOthers(s, 1);
    s := NoneOfTheOthers(s, 2);
    s := NoneOfTheOthers(s, 3);
    s := NoneOfTheOthers(s, 4);
  }

  // ---- A second copy, exactly when one can be made ----------------------------------------

  ghost predicate Steps(run: seq<Host>) {
    run != [] && forall i: nat :: i + 1 < |run| ==> StepAt(run, i)
  }

  // Some steps lead from `s` to `s'`.
  ghost predicate Leads(s: Host, s': Host) {
    exists run :: Steps(run) && run[0] == s && run[|run| - 1] == s'
  }

  lemma Here(s: Host)
    ensures Leads(s, s)
  {
    var run := [s];
    assert Steps(run) && run[0] == s && run[|run| - 1] == s;
  }

  lemma Onward(s0: Host, s: Host, a: Action)
    requires Leads(s0, s) && Enabled(s, a)
    ensures Leads(s0, Apply(s, a))
  {
    var run :| Steps(run) && run[0] == s0 && run[|run| - 1] == s;
    var run' := run + [Apply(s, a)];
    forall i: nat | i + 1 < |run'| ensures StepAt(run', i) {
      if i + 1 < |run| {
        assert StepAt(run, i);
      } else {
        assert Enabled(s, a) && run'[i + 1] == Apply(s, a);
      }
    }
    assert Steps(run') && run'[0] == s0 && run'[|run'| - 1] == Apply(s, a);
  }

  // Jobs waiting where a skipped embedding queue does not hold them back.
  function Served(qs: Queues): nat {
    |qs[SCAN]| + |qs[EXTRACT]| + |qs[CHUNK]| + |qs[KEYWORD]| + |qs[MAINTENANCE]|
  }

  lemma PopServes(s: Host)
    requires s.pc.Top? && s.mode.LowImpact? && TickQueue(s.queues, s.mode) != None
    ensures var s' := DoTick(s);
            && s'.pc.Popped? && s'.mode == s.mode && s'.rows == s.rows
            && s'.queues[EMBEDDING] == s.queues[EMBEDDING] && Served(s'.queues) < Served(s.queues)
  {
  }

  // The next job is handed out and dropped at its check.
  lemma DropNext(s0: Host, s: Host) returns (s': Host)
    requires Leads(s0, s) && s.pc.Top? && s.mode.LowImpact? && TickQueue(s.queues, s.mode) != None
    ensures Leads(s0, s') && s'.pc.Top? && s'.mode == s.mode && s'.rows == s.rows
    ensures s'.queues[EMBEDDING] == s.queues[EMBEDDING] && Served(s'.queues) < Served(s.queues)
  {
    PopServes(s);
    Onward(s0, s, Tick);
    s' := DoTick(s);
    Onward(s0, s', Check(false));
    s' := DoCheck(s', false);
  }

  lemma {:induction false} ServeTheRest(s0: Host, s: Host) returns (s': Host)
    requires Leads(s0, s) && s.pc.Top? && (s.mode.LowImpact? || s.mode.Stopped?)
    ensures Leads(s0, s') && s'.pc.Top? && s'.mode == s.mode && s'.rows == s.rows
    ensures s'.queues[EMBEDDING] == s.queues[EMBEDDING] && (s.mode.Stopped? ==> s'.queues == s.queues)
    ensures TickQueue(s'.queues, s'.mode) == None
    decreases Served(s.queues)
  {
    if TickQueue(s.queues, s.mode) == None {
      s' := s;
    } else {
      s' := DropNext(s0, s);
      s' := ServeTheRest(s0, s');
    }
  }

  // Every other row is gone when the pass lists what is queued...
  lemma ListNothing(s0: Host, s: Host, id: JobId) returns (s': Host)
    requires Leads(s0, s) && s.pc.Top? && TickQueue(s.queues, s.mode) == None && RowIs(s, id, Blocked)
    ensures Leads(s0, s') && s'.pc == Loading([]) && s'.mode == s.mode && s'.queues == s.queues && s'.rows == map[id := s.rows[id]]
  {
    var rows := map[id := s.rows[id]];
    Onward(s0, s, Tick);
    s' := s.(pc := Listing);
    Onward(s0, s', Others(rows));
    s' := Changed(s', rows);
    Onward(s0, s', List(true, []));
    s' := s'.(pc := Loading([]));
  }

  // ...so it finds the blocked row, and loads it whether or not a copy waits already.
  lemma ReloadBlocked(s0: Host, s: Host, id: JobId) returns (s': Host)
    requires Leads(s0, s) && s.pc.Top? && TickQueue(s.queues, s.mode) == None
    requires RowIs(s, id, Blocked) && s.rows[id].source.Some? && HasRoom(s.queues, s.rows[id].kind)
    ensures Leads(s0, s') && s'.pc == Unblocking([]) && s'.mode == s.mode && RowIs(s', id, Queued)
    ensures exists job: Job :: job.id == id && job.kind == s.rows[id].kind && s'.queues == Pushed(s.queues, job)
  {
    s' := ListNothing(s0, s, id);
    var todo := [Record(id, s.rows[id])];
    assert todo[0].id == id;
    Onward(s0, s', Relist(true, todo));
    s' := s'.(pc := Unblocking(todo));
    Onward(s0, s', Unblock(true));
    s' := DoUnblock(s', true);
    assert s'.queues == Pushed(s.queues, JobFromRecord(todo[0]).value);
  }

  // With the mode that holds the copy back, everything else is handed out first.
  lemma HoldBack(s: Host, q: nat) returns (s': Host)
    requires s.pc.Top? && q < QUEUES && (s.mode.Stopped? || q == EMBEDDING)
    ensures Leads(s, s') && s'.pc.Top? && s'.rows == s.rows && s'.queues[q] == s.queues[q]
    ensures TickQueue(s'.queues, s'.mode) == None && s'.mode == if s.mode.Stopped? then Stopped else LowImpact
  {
    Here(s);
    s' := s;
    if !s.mode.Stopped? {
      Onward(s, s, Observe(LowImpact));
      s' := s.(mode := LowImpact);
    }
    s' := ServeTheRest(s, s');
  }

  lemma PushedTwice(qs: Queues, job: Job)
    requires Count(qs[QueueOf(job.kind)], job.id) > 0
    ensures Mem(Pushed(qs, job), job.id, QUEUES) > 1
  {
    var q := QueueOf(job.kind);
    CountAppend(qs[q], job, job.id);
    MemAtLeast(Pushed(qs, job), job.id, q, QUEUES);
  }

  lemma SecondCopy(s: Host, id: JobId) returns (s': Host)
    requires s.pc.Top? && RowIs(s, id, Blocked) && s.rows[id].source.Some?
    requires HasRoom(s.queues, s.rows[id].kind) && Count(s.queues[QueueOf(s.rows[id].kind)], id) > 0
    requires s.mode.Stopped? || s.rows[id].kind.Embedding?
    ensures Leads(s, s') && Mem(s'.queues, id, QUEUES) > 1
    ensures s'.pc == Unblocking([]) && s'.mode == (if s.mode.Stopped? then Stopped else LowImpact) && RowIs(s', id, Queued)
    ensures s'.mode.LowImpact? ==> s'.queues == Embeddings(s'.queues[EMBEDDING])
  {
    var s1 := HoldBack(s, QueueOf(s.rows[id].kind));
    s' := ReloadBlocked(s, s1, id);
    var job: Job :| job.id == id && job.kind == s.rows[id].kind && s'.queues == Pushed(s1.queues, job);
    PushedTwice(s1.queues, job);
    if s'.mode.LowImpact? { OnlyOneQueue(s1.queues, job); }
  }

  lemma OnlyOneQueue(qs: Queues, job: Job)
    requires TickQueue(qs, LowImpact) == None && job.kind.Embedding?
    ensures Pushed(qs, job) == Embeddings(Pushed(qs, job)[EMBEDDING])
  {
  }

  lemma StepStaysServed(s: Host, a: Action, id: JobId)
    requires Inv(s) && Enabled(s, a) && id in s.issued && id !in s.embeddings && !s.mode.Stopped?
    ensures var s' := Apply(s, a); id in s'.issued && id !in s'.embeddings && !s'.mode.Stopped?
  {
    assert IdInv(s, id);
    match a
    case Others(rows) => ChangedKind(s, rows, id);
    case Work(rows, outcome) => ChangedKind(s, rows, id);
    case Classify(repair) =>
      RepairInterferes(s, repair);
      ChangedKind(s, DoClassify(s, repair).rows, id);
      ClassifyIds(s, repair);
    case Check(ok) =>
    case Observe(_) =>
    case Tick =>
    case List(_, _) =>
    case Load(ok) =>
    case Relist(_, _) =>
    case Unblock(ok) =>
    case CountRows(ok) =>
    case Trim =>
    case Complete(ok) =>
    case Settle(ok) =>
  }

  lemma ChangedKind(s: Host, rows: map<JobId, Row>, id: JobId)
    requires Interference(s.rows, s.issued, rows) && OfKind(s, id) && id in s.issued && id !in s.embeddings
    ensures id !in Changed(s, rows).embeddings
  {
  }

  lemma ClassifyIds(s: Host, repair: Option<Record>)
    requires s.pc.Reporting? && !s.pc.outcome.Done?
    ensures var s' := DoClassify(s, repair);
            && s.issued <= s'.issued && s'.mode == s.mode
            && s'.embeddings <= Changed(s, s'.rows).embeddings
  {
  }

  lemma {:induction false} StaysServed(run: seq<Host>, n: nat, id: JobId)
    requires Steps(run) && n < |run| && Inv(run[0])
    requires id in run[0].issued && id !in run[0].embeddings && !run[0].mode.Stopped?
    ensures Inv(run[n]) && id in run[n].issued && id !in run[n].embeddings && !run[n].mode.Stopped?
  {
    if n > 0 {
      StaysServed(run, n - 1, id);
      assert StepAt(run, n - 1);
      StepInv(run[n - 1], run[n]);
      var a :| Enabled(run[n - 1], a) && run[n] == Apply(run[n - 1], a);
      StepStaysServed(run[n - 1], a, id);
    }
  }

  lemma StaysSingle(s: Host, s': Host, id: JobId)
    requires Inv(s) && Leads(s, s') && id in s.issued && id !in s.embeddings && !s.mode.Stopped?
    ensures Mem(s'.queues, id, QUEUES) <= 1
  {
    var run :| Steps(run) && run[0] == s && run[|run| - 1] == s';
    StaysServed(run, |run| - 1, id);
    assert IdInv(s', id);
  }

  /** Where an un-block write was lost, so that the blocked row has a copy waiting: a second copy can
      follow exactly if the session is paused or the job is an embedding. For every other job the
      copy is dropped before the next pass, because a pass begins with all other queues empty. */
  lemma SecondCopyExactly(s: Host, id: JobId)
    requires Reachable(s) && s.pc.Top? && RowIs(s, id, Blocked) && s.rows[id].source.Some?
    requires HasRoom(s.queues, s.rows[id].kind) && Count(s.queues[QueueOf(s.rows[id].kind)], id) > 0
    ensures (exists s' :: Leads(s, s') && Mem(s'.queues, id, QUEUES) > 1) <==> s.mode.Stopped? || s.rows[id].kind.Embedding?
  {
    ReachableInv(s);
    assert IdInv(s, id);
    if s.mode.Stopped? || s.rows[id].kind.Embedding? {
      var s' := SecondCopy(s, id);
    } else {
      forall s' | Leads(s, s') ensures Mem(s'.queues, id, QUEUES) <= 1 { StaysSingle(s, s', id); }
    }
  }

  // ---- Work that succeeds twice, exactly when it can --------------------------------------

  lemma HandOutEmbedding(s0: Host, s: Host, jobs: seq<Job>) returns (s': Host, rest: seq<Job>, job: Job)
    requires Leads(s0, s) && s.pc.Top? && s.mode.Normal? && s.queues == Embeddings(jobs) && jobs != []
    ensures rest == Without(jobs, Best(jobs)) && job == jobs[Best(jobs)]
    ensures Leads(s0, s') && s' == s.(queues := Embeddings(rest), pc := Popped(job), trimmed := false, trims := 0)
  {
    rest, job := Without(jobs, Best(jobs)), jobs[Best(jobs)];
    OnlyEmbeddings(jobs, s.mode);
    assert Popped1(s.queues, EMBEDDING) == Embeddings(rest);
    Onward(s0, s, Tick);
    s' := s.(queues := Embeddings(rest), pc := Popped(job), trimmed := false, trims := 0);
  }

  lemma WinUnrecorded(s0: Host, s: Host) returns (s': Host)
    requires Leads(s0, s) && s.pc.Popped? && RowIs(s, s.pc.job.id, Queued)
    ensures Leads(s0, s') && s'.pc.Top? && s'.mode == s.mode && s'.rows == s.rows && s'.queues == s.queues
    ensures s'.wins == s.wins + multiset{s.pc.job.id}
  {
    Onward(s0, s, Check(true));
    s' := s.(pc := Working(s.pc.job));
    Onward(s0, s', Work(s.rows, Done));
    s' := DoWork(s', s.rows, Done);
    Onward(s0, s', Complete(false));
    s' := DoComplete(s', false);
  }

  // The next copy succeeds unrecorded if it is the id's, and is dropped if it is not.
  lemma WinNext(s0: Host, s: Host, jobs: seq<Job>, id: JobId) returns (s': Host)
    requires Leads(s0, s) && s.pc.Top? && s.mode.Normal? && RowIs(s, id, Queued) && s.queues == Embeddings(jobs) && jobs != []
    ensures Leads(s0, s') && s'.pc.Top? && s'.mode.Normal? && RowIs(s', id, Queued)
    ensures s'.queues == Embeddings(Without(jobs, Best(jobs))) && s'.wins[id] == s.wins[id] + One(jobs[Best(jobs)].id == id)
  {
    var rest, job;
    s', rest, job := HandOutEmbedding(s0, s, jobs);
    if job.id == id {
      s' := WinUnrecorded(s0, s');
    } else {
      Onward(s0, s', Check(false));
      s' := DoCheck(s', false);
    }
  }

  lemma {:induction false} WinAll(s0: Host, s: Host, jobs: seq<Job>, id: JobId) returns (s': Host)
    requires Leads(s0, s) && s.pc.Top? && s.mode.Normal? && RowIs(s, id, Queued) && s.queues == Embeddings(jobs)
    ensures Leads(s0, s') && s'.wins[id] == s.wins[id] + Count(jobs, id)
    decreases |jobs|
  {
    s' := s;
    if jobs != [] {
      CountWithout(jobs, Best(jobs), id);
      s' := WinNext(s0, s, jobs, id);
      s' := WinAll(s0, s', Without(jobs, Best(jobs)), id);
    }
  }

  // The pass ends with the embeddings still held back, and then they are not any more.
  lemma LetGo(s0: Host, s: Host) returns (s': Host)
    requires Leads(s0, s) && s.pc == Unblocking([]) && s.mode.LowImpact?
    requires s.queues == Embeddings(s.queues[EMBEDDING]) && s.queues[EMBEDDING] != []
    ensures Leads(s0, s') && s'.pc.Top? && s'.mode.Normal? && s'.rows == s.rows && s'.queues == s.queues
  {
    Onward(s0, s, Unblock(true));
    s' := s.(pc := Second);
    OnlyEmbeddings(s.queues[EMBEDDING], s.mode);
    Onward(s0, s', Tick);
    s' := s'.(pc := Top);
    Onward(s0, s', Observe(Normal));
    s' := s'.(mode := Normal);
  }

  lemma {:induction false} StaysPaused(run: seq<Host>, n: nat)
    requires Steps(run) && n < |run| && Inv(run[0]) && run[0].mode.Stopped?
    ensures Inv(run[n]) && run[n].mode.Stopped?
  {
    if n > 0 {
      StaysPaused(run, n - 1);
      assert StepAt(run, n - 1);
      StepInv(run[n - 1], run[n]);
      PauseStays(run[n - 1], run[n]);
    }
  }

  lemma PauseStays(s: Host, s': Host)
    requires Step(s, s')
    ensures s'.mode.Stopped? <==> s.mode.Stopped?
  {
    var a :| Enabled(s, a) && s' == Apply(s, a);
    KeepsPause(s, a);
  }

  lemma KeepsPause(s: Host, a: Action)
    requires Enabled(s, a)
    ensures Apply(s, a).mode.Stopped? <==> s.mode.Stopped?
  {
    match a
    case Others(rows) =>
    case Observe(_) =>
    case Tick =>
    case List(_, _) =>
    case Load(ok) =>
    case Relist(_, _) =>
    case Unblock(ok) =>
    case CountRows(ok) =>
    case Trim =>
    case Check(ok) =>
    case Work(rows, outcome) =>
    case Complete(ok) =>
    case Classify(repair) =>
    case Settle(ok) =>
  }

  lemma WinsOnce(s: Host, s': Host, id: JobId)
    requires Inv(s) && Leads(s, s') && id in s.issued && (id !in s.embeddings || s.mode.Stopped?)
    ensures s'.wins[id] <= 1
  {
    var run :| Steps(run) && run[0] == s && run[|run| - 1] == s';
    if s.mode.Stopped? { StaysPaused(run, |run| - 1); } else { StaysServed(run, |run| - 1, id); }
    assert IdInv(s', id);
  }

  /** Where an un-block write was lost, so that the blocked row has a copy waiting: its work can come to
      succeed twice in the session exactly if the job is an embedding and the session is not paused. */
  lemma RedoneExactly(s: Host, id: JobId)
    requires Reachable(s) && s.pc.Top? && RowIs(s, id, Blocked) && s.rows[id].source.Some?
    requires HasRoom(s.queues, s.rows[id].kind) && Count(s.queues[QueueOf(s.rows[id].kind)], id) > 0
    ensures (exists s' :: Leads(s, s') && s'.wins[id] > 1) <==> !s.mode.Stopped? && s.rows[id].kind.Embedding?
  {
    ReachableInv(s);
    assert IdInv(s, id);
    if !s.mode.Stopped? && s.rows[id].kind.Embedding? {
      var s1 := SecondCopy(s, id);
      OnlyThere(s1.queues, s1.queues[EMBEDDING], id);
      var s2 := LetGo(s, s1);
      var s3 := WinAll(s, s2, s2.queues[EMBEDDING], id);
      assert Leads(s, s3) && s3.wins[id] > 1;
    } else {
      forall s' | Leads(s, s') ensures s'.wins[id] <= 1 { WinsOnce(s, s', id); }
    }
  }

  lemma OnlyThere(qs: Queues, jobs: seq<Job>, id: JobId)
    requires qs == Embeddings(jobs)
    ensures Mem(qs, id, QUEUES) == Count(jobs, id)
  {
    assert Mem(qs, id, EMBEDDING) == 0 by { NoneBefore(qs, id, EMBEDDING); }
    assert Mem(qs, id, MAINTENANCE) == Mem(qs, id, EMBEDDING) + Count(qs[EMBEDDING], id);
  }

  lemma {:induction false} NoneBefore(qs: Queues, id: JobId, n: nat)
    requires n <= QUEUES && forall k :: 0 <= k < n ==> qs[k] == []
    ensures Mem(qs, id, n) == 0
  {
    if n > 0 { NoneBefore(qs, id, n - 1); }
  }

  // ---- A lost un-block write lets finished work run twice ---------------------------------

  const BLOCKED_ROW: Row := Row(Blocked, Some(1), Some(1), Embedding)
  const QUEUED_ROW: Row := Row(Queued, Some(1), Some(1), Embedding)
  const COPY: Job := Job(1, 1, Some(1), Embedding, 1, 0)

  lemma OnlyEmbeddings(jobs: seq<Job>, mode: Mode)
    ensures TickQueue(Embeddings(jobs), mode) ==
            if mode.Stopped? || jobs == [] || Skipped(EMBEDDING, mode) then None else Some(EMBEDDING)
  {
  }

  // One pass on battery, down to the un-block write...
  lemma ReachUnblock(s: Host) returns (s': Host)
    requires Reachable(s) && s.pc.Top? && s.mode.LowImpact? && s.rows == map[1 := BLOCKED_ROW]
    requires s.queues == Embeddings(s.queues[EMBEDDING])
    ensures Reachable(s') && s' == s.(pc := Unblocking([Record(1, BLOCKED_ROW)]))
  {
    OnlyEmbeddings(s.queues[EMBEDDING], s.mode);
    Go(s, Tick);
    s' := s.(pc := Listing);
    Go(s', List(true, []));
    s' := s'.(pc := Loading([]));
    var todo := [Record(1, BLOCKED_ROW)];
    assert todo[0].id == 1;
    Go(s', Relist(true, todo));
    s' := s'.(pc := Unblocking(todo));
  }

  // ...and through it: the embedding is loaded, and not handed out.
  lemma PassOnBattery(s: Host, jobs: seq<Job>, ok: bool) returns (s': Host)
    requires Reachable(s) && s.pc.Top? && s.mode.LowImpact? && s.rows == map[1 := BLOCKED_ROW]
    requires s.queues == Embeddings(jobs) && |jobs| <= 1
    ensures Reachable(s') && s'.pc.Top? && s'.mode.LowImpact? && s'.wins == s.wins && s'.execs == s.execs
    ensures s'.misreads == s.misreads && s'.lostUnblock[1] == s.lostUnblock[1] + One(!ok)
    ensures s'.queues == Embeddings(jobs + [COPY])
    ensures s'.rows == map[1 := if ok then QUEUED_ROW else BLOCKED_ROW]
  {
    s' := ReachUnblock(s);
    s' := UnblockOne(s', jobs, ok);
    EndPass(s', jobs + [COPY]);
    s' := s'.(pc := Top);
  }

  lemma UnblockOne(s: Host, jobs: seq<Job>, ok: bool) returns (s': Host)
    requires Reachable(s) && s.pc == Unblocking([Record(1, BLOCKED_ROW)]) && s.rows == map[1 := BLOCKED_ROW]
    requires s.queues == Embeddings(jobs) && |jobs| <= 1
    ensures Reachable(s') && s'.pc == Unblocking([]) && s'.mode == s.mode && s'.wins == s.wins && s'.execs == s.execs
    ensures s'.misreads == s.misreads && s'.lostUnblock[1] == s.lostUnblock[1] + One(!ok)
    ensures s'.queues == Embeddings(jobs + [COPY])
    ensures s'.rows == map[1 := if ok then QUEUED_ROW else BLOCKED_ROW]
  {
    PushCopy(s.queues, jobs);
    UnblockReach(s, Record(1, BLOCKED_ROW), [], COPY, ok);
    s' := Unblocked(Loaded(s.(pc := Unblocking([])), COPY), ok, 1);
    assert Loaded(s.(pc := Unblocking([])), COPY).rows == s.rows;
  }

  lemma PushCopy(qs: Queues, jobs: seq<Job>)
    requires qs == Embeddings(jobs) && |jobs| <= 1
    ensures HasRoom(qs, Embedding) && Pushed(qs, COPY) == Embeddings(jobs + [COPY])
  {
  }

  lemma EndPass(s: Host, jobs: seq<Job>)
    requires Reachable(s) && s.pc == Unblocking([]) && s.mode.LowImpact?
    requires s.queues == Embeddings(jobs) && jobs != []
    ensures Reachable(s.(pc := Top))
  {
    Go(s, Unblock(true));
    var s' := s.(pc := Second);
    OnlyEmbeddings(jobs, s.mode);
    assert s'.queues[EMBEDDING] != [];
    Go(s', Tick);
  }

  lemma TwoCopies() returns (s: Host)
    ensures Reachable(s) && s.pc.Top? && s.mode.LowImpact? && s.rows == map[1 := QUEUED_ROW]
    ensures s.queues == Embeddings([COPY, COPY]) && s.wins == multiset{} && s.execs == multiset{}
    ensures s.misreads == multiset{} && s.lostUnblock[1] == 1
  {
    var rows := map[1 := BLOCKED_ROW];
    StartReachable(Begin(rows, LowImpact));
    s := PassOnBattery(Begin(rows, LowImpact), [], false);
    assert [] + [COPY] == [COPY];
    s := PassOnBattery(s, [COPY], true);
    assert [COPY] + [COPY] == [COPY, COPY];
  }

  // Off battery both copies can run.
  lemma OffBattery() returns (s0: Host, s: Host)
    ensures Reachable(s0) && Leads(s0, s) && s0 == s.(mode := s0.mode)
    ensures s.pc.Top? && s.mode.Normal? && RowIs(s, 1, Queued) && s.queues == Embeddings([COPY, COPY])
    ensures s.wins == multiset{} && s.execs == multiset{} && s.misreads == multiset{} && s.lostUnblock[1] == 1
  {
    s0 := TwoCopies();
    Here(s0);
    Onward(s0, s0, Observe(Normal));
    s := s0.(mode := Normal);
  }

  /** Without its condition the guarantee fails: after one lost un-block write and one lost
      completion, the same work succeeds twice. */
  lemma LostUnblockRepeatsWork() returns (s: Host)
    ensures Reachable(s) && s.wins[1] == 2
  {
    var s0, s1 := OffBattery();
    CountAppend([COPY], COPY, 1);
    CountAppend([], COPY, 1);
    assert [COPY, COPY] == [COPY] + [COPY] && [] + [COPY] == [COPY];
    s := WinAll(s0, s1, [COPY, COPY], 1);
    LedReachable(s0, s);
  }

  // ---- A failure that could not be recorded strands its row -------------------------------

  lemma ListOne() returns (s: Host)
    ensures Reachable(s) && s == Begin(map[1 := QUEUED_ROW], Normal).(pc := Loading([Record(1, QUEUED_ROW)]))
  {
    var rows := map[1 := QUEUED_ROW];
    s := Begin(rows, Normal);
    StartReachable(Begin(rows, Normal));
    OnlyEmbeddings([], Normal);
    Go(s, Tick);
    s := s.(pc := Listing);
    var todo := [Record(1, QUEUED_ROW)];
    assert todo[0].id == 1;
    Go(s, List(true, todo));
    s := s.(pc := Loading(todo));
  }

  lemma LoadOne() returns (s: Host)
    ensures Reachable(s) && s.pc == Loading([]) && s.mode.Normal? && s.rows == map[1 := QUEUED_ROW]
    ensures s.queues == Embeddings([COPY]) && s.known == {1} && s.wins == multiset{}
  {
    s := ListOne();
    Go(s, Load(true));
    var s' := DoLoad(s, true);
    assert EMPTY[EMBEDDING] + [COPY] == [COPY];
    assert s'.queues == EMPTY[EMBEDDING := [COPY]];
    assert s.pc.todo[1..] == [];
    s := s';
  }

  lemma WorkOne() returns (s: Host)
    ensures Reachable(s) && s.pc == Working(COPY) && s.rows == map[1 := QUEUED_ROW]
    ensures s.queues == Embeddings([]) && s.known == {1} && s.wins == multiset{}
  {
    s := LoadOne();
    Go(s, Relist(false, []));
    s := s.(pc := Second);
    OnlyEmbeddings([COPY], Normal);
    assert Without([COPY], 0) == [];
    Go(s, Tick);
    s := s.(queues := Embeddings([]), pc := Popped(COPY), trimmed := false, trims := 0);
    Go(s, Check(true));
    s := s.(pc := Working(COPY));
  }

  lemma FailOne() returns (s: Host)
    ensures Reachable(s) && s.pc == Failing(COPY, true) && s.rows == map[1 := QUEUED_ROW]
    ensures s.queues == Embeddings([]) && s.known == {1} && s.wins == multiset{}
  {
    s := WorkOne();
    Go(s, Work(s.rows, Error(true)));
    s := DoWork(s, s.rows, Error(true));
    Go(s, Classify(None));
    s := s.(pc := Failing(COPY, true));
  }

  /** The row of a job that failed for good stays queued when that write is lost, and is not looked
      at again this session: not only recorded successes can be left behind. */
  lemma LostFailureStrandsARow() returns (s: Host)
    ensures Reachable(s) && s.pc.Top? && RowIs(s, 1, Queued) && s.wins[1] == 0
    ensures AllEmpty(s.queues) && !Reloadable(s, 1) && 1 in s.unrecorded
  {
    s := FailOne();
    Go(s, Settle(false));
    s := DoSettle(s, false);
  }

  // ---- As many attempts as that allows ----------------------------------------------------

  // Rounds until a job is tried no more.
  function Rounds(job: Job): nat {
    if job.attempts < MAX_JOB_ATTEMPTS then MAX_JOB_ATTEMPTS - job.attempts else 0
  }

  ghost function AllRounds(): Job -> nat {
    (j: Job) => Rounds(j)
  }

  ghost predicate OwnEmbeddings(jobs: seq<Job>, id: JobId) {
    |jobs| <= Capacity(EMBEDDING)
    && forall i :: 0 <= i < |jobs| ==> jobs[i].id == id && jobs[i].kind.Embedding? && jobs[i].attempts < MAX_JOB_ATTEMPTS
  }

  // Its row still queued, and only embeddings waiting.
  ghost predicate Retrying(s: Host, jobs: seq<Job>, id: JobId) {
    s.pc.Top? && s.mode.Normal? && RowIs(s, id, Queued) && s.queues == Embeddings(jobs)
  }

  lemma FailWork(s0: Host, s: Host) returns (s': Host)
    requires Leads(s0, s) && s.pc.Working?
    ensures Leads(s0, s') && s' == s.(pc := Failing(s.pc.job, false), execs := s.execs + multiset{s.pc.job.id},
                                      issued := s'.issued, embeddings := s'.embeddings)
  {
    Onward(s0, s, Work(s.rows, Error(false)));
    s' := DoWork(s, s.rows, Error(false));
    Onward(s0, s', Classify(None));
    s' := s'.(pc := Failing(s.pc.job, false));
  }

  lemma FailInHand(s0: Host, s: Host) returns (s': Host)
    requires Leads(s0, s) && s.pc.Popped? && RowIs(s, s.pc.job.id, Queued)
    ensures Leads(s0, s') && s' == s.(pc := Failing(s.pc.job, false), execs := s.execs + multiset{s.pc.job.id},
                                      issued := s'.issued, embeddings := s'.embeddings)
  {
    Onward(s0, s, Check(true));
    s' := FailWork(s0, s.(pc := Working(s.pc.job)));
  }

  lemma PushedEmbedding(jobs: seq<Job>, job: Job)
    requires job.kind.Embedding? && |jobs| < Capacity(EMBEDDING)
    ensures HasRoom(Embeddings(jobs), Embedding) && Pushed(Embeddings(jobs), job) == Embeddings(jobs + [job])
  {
  }

  // What waits after one more attempt of `job`.
  function TriedOnce(rest: seq<Job>, job: Job): seq<Job> {
    if job.attempts + 1 < MAX_JOB_ATTEMPTS then rest + [job.(attempts := job.attempts + 1)] else rest
  }

  lemma TriedOnceOwn(jobs: seq<Job>, rest: seq<Job>, job: Job, id: JobId)
    requires jobs != [] && OwnEmbeddings(jobs, id) && rest == Without(jobs, Best(jobs)) && job == jobs[Best(jobs)]
    ensures OwnEmbeddings(TriedOnce(rest, job), id) && Sum(TriedOnce(rest, job), AllRounds()) + 1 == Sum(jobs, AllRounds())
  {
    SumWithout(jobs, Best(jobs), AllRounds());
    SumAppend(rest, job.(attempts := job.attempts + 1), AllRounds());
  }

  // The last failure is not recorded, so that the row stays queued.
  lemma FailPopped(s0: Host, s: Host, rest: seq<Job>, job: Job) returns (s': Host)
    requires Leads(s0, s) && s.pc == Popped(job) && job.kind.Embedding? && RowIs(s, job.id, Queued)
    requires s.queues == Embeddings(rest) && |rest| < Capacity(EMBEDDING)
    ensures Leads(s0, s') && s'.pc.Top? && s'.mode == s.mode && RowIs(s', job.id, Queued)
    ensures s'.execs == s.execs + multiset{job.id} && s'.misreads == s.misreads && s'.lostUnblock == s.lostUnblock
    ensures s'.queues == Embeddings(TriedOnce(rest, job))
  {
    s' := FailInHand(s0, s);
    var again := job.attempts + 1 < MAX_JOB_ATTEMPTS;
    Onward(s0, s', Settle(again));
    SettledEmbedding(s', rest, again);
    s' := DoSettle(s', again);
  }

  // One more attempt.
  lemma FailNext(s0: Host, s: Host, jobs: seq<Job>) returns (s': Host, rest: seq<Job>, job: Job)
    requires Leads(s0, s) && s.mode.Normal? && s.pc.Top? && s.queues == Embeddings(jobs) && jobs != []
    requires RowIs(s, jobs[Best(jobs)].id, Queued) && jobs[Best(jobs)].kind.Embedding? && |jobs| <= Capacity(EMBEDDING)
    ensures rest == Without(jobs, Best(jobs)) && job == jobs[Best(jobs)]
    ensures Leads(s0, s') && s'.pc.Top? && s'.mode.Normal? && RowIs(s', job.id, Queued)
    ensures s'.execs == s.execs + multiset{job.id} && s'.misreads == s.misreads && s'.lostUnblock == s.lostUnblock
    ensures s'.queues == Embeddings(TriedOnce(rest, job))
  {
    s', rest, job := HandOutEmbedding(s0, s, jobs);
    s' := FailPopped(s0, s', rest, job);
  }

  lemma SettledEmbedding(s: Host, rest: seq<Job>, again: bool)
    requires s.pc.Failing? && !s.pc.terminal && s.pc.job.kind.Embedding? && s.queues == Embeddings(rest)
    requires |rest| < Capacity(EMBEDDING) && again == (s.pc.job.attempts + 1 < MAX_JOB_ATTEMPTS) && RowIs(s, s.pc.job.id, Queued)
    ensures var s', next := DoSettle(s, again), s.pc.job.(attempts := s.pc.job.attempts + 1);
            && s'.pc.Top? && s'.mode == s.mode && s'.execs == s.execs && RowIs(s', s.pc.job.id, Queued)
            && s'.misreads == s.misreads && s'.lostUnblock == s.lostUnblock
            && s'.queues == Embeddings(if again then rest + [next] else rest)
  {
    PushedEmbedding(rest, s.pc.job.(attempts := s.pc.job.attempts + 1));
  }

  lemma {:induction false} FailAll(s0: Host, s: Host, jobs: seq<Job>, id: JobId) returns (s': Host)
    requires Leads(s0, s) && Retrying(s, jobs, id) && OwnEmbeddings(jobs, id)
    ensures Leads(s0, s') && s'.execs[id] == s.execs[id] + Sum(jobs, AllRounds())
    ensures s'.misreads == s.misreads && s'.lostUnblock == s.lostUnblock
    decreases Sum(jobs, AllRounds())
  {
    s' := s;
    if jobs != [] {
      var rest, job;
      s', rest, job := FailNext(s0, s, jobs);
      TriedOnceOwn(jobs, rest, job, id);
      s' := FailAll(s0, s', TriedOnce(rest, job), id);
    }
  }

  lemma TwoRounds(job: Job)
    requires job == COPY
    ensures Sum([job, job], AllRounds()) == 6
  {
    OneRound([job], job);
    OneRound([], job);
    assert [job] + [job] == [job, job] && [] + [job] == [job];
  }

  lemma OneRound(jobs: seq<Job>, job: Job)
    requires job == COPY
    ensures Sum(jobs + [job], AllRounds()) == Sum(jobs, AllRounds()) + 3
  {
    SumAppend(jobs, job, AllRounds());
  }

  /** The bound on attempts is reached: after one lost un-block write, with every read answered, an
      embedding is executed six times. */
  lemma LostUnblockDoublesAttempts() returns (s: Host)
    ensures Reachable(s) && s.misreads[1] == 0 && s.lostUnblock[1] == 1 && s.execs[1] == 6
  {
    var s0, s1 := OffBattery();
    TwoRounds(COPY);
    s := FailAll(s0, s1, [COPY, COPY], 1);
    LedReachable(s0, s);
  }

  lemma LedReachable(s0: Host, s: Host)
    requires Reachable(s0) && Leads(s0, s)
    ensures Reachable(s)
  {
    var run :| Steps(run) && run[0] == s0 && run[|run| - 1] == s;
    LedAlong(run, |run| - 1);
  }

  lemma {:induction false} LedAlong(run: seq<Host>, n: nat)
    requires Steps(run) && n < |run| && Reachable(run[0])
    ensures Reachable(run[n])
  {
    if n > 0 {
      LedAlong(run, n - 1);
      LedNext(run, n - 1);
    }
  }

  lemma LedNext(run: seq<Host>, n: nat)
    requires Steps(run) && n + 1 < |run| && Reachable(run[n])
    ensures Reachable(run[n + 1])
  {
    assert StepAt(run, n);
    StepReached(run[n], run[n + 1]);
  }

  // ---- What other threads may do ----------------------------------------------------------

  /** At any moment another thread may queue new work of any kind, delete a row, move it to another folder
      or file, or end it in any way, and nothing keeps the mode from following what is observed. */
  lemma OthersMay(s: Host, id: JobId, st: Status, source: Option<SourceId>, file: Option<FileId>, kind: Kind)
    ensures id !in s.issued && id !in s.rows ==> Step(s, Changed(s, s.rows[id := Row(Queued, source, file, kind)]))
    ensures Step(s, Changed(s, s.rows - {id}))
    ensures id in s.rows ==> Step(s, Changed(s, s.rows[id := s.rows[id].(source := source, file := file)]))
    ensures id in s.rows && st in {Succeeded, Failed, Canceled} ==> Step(s, Changed(s, s.rows[id := s.rows[id].(status := st)]))
    ensures s.pc.Top? && !s.mode.Stopped? ==> Step(s, s.(mode := Normal)) && Step(s, s.(mode := UserActive)) && Step(s, s.(mode := LowImpact))
  {
    if id !in s.issued && id !in s.rows { OtherStep(s, s.rows[id := Row(Queued, source, file, kind)]); }
    OtherStep(s, s.rows - {id});
    if id in s.rows {
      OtherStep(s, s.rows[id := s.rows[id].(source := source, file := file)]);
      if st in {Succeeded, Failed, Canceled} { OtherStep(s, s.rows[id := s.rows[id].(status := st)]); }
    }
    if s.pc.Top? && !s.mode.Stopped? {
      assert Enabled(s, Observe(Normal)) && Enabled(s, Observe(UserActive)) && Enabled(s, Observe(LowImpact));
      assert Apply(s, Observe(Normal)) == s.(mode := Normal);
      assert Apply(s, Observe(UserActive)) == s.(mode := UserActive);
      assert Apply(s, Observe(LowImpact)) == s.(mode := LowImpact);
    }
  }

  lemma OtherStep(s: Host, rows: map<JobId, Row>)
    requires Interference(s.rows, s.issued, rows)
    ensures Step(s, Changed(s, rows))
  {
    assert Enabled(s, Others(rows)) && Apply(s, Others(rows)) == Changed(s, rows);
  }

  // ---- A canceled row that is queued again ------------------------------------------------

  /** A row canceled while its job runs is queued again, with a copy waiting, if the job then fails and
      has attempts left: the failure is written whatever the row says. */
  lemma CanceledIsRevived(s: Host) returns (s': Host)
    requires Reachable(s) && s.pc.Working? && RowIs(s, s.pc.job.id, Canceled) && s.pc.job.attempts + 1 < MAX_JOB_ATTEMPTS
    ensures Leads(s, s') && s'.pc.Top? && RowIs(s', s.pc.job.id, Queued)
    ensures s'.execs[s.pc.job.id] == s.execs[s.pc.job.id] + 1 && Waiting1(s', s.pc.job.id)
  {
    Here(s);
    var job := s.pc.job;
    s' := FailWork(s, s);
    assert HasRoom(s'.queues, job.kind) by {
      ReachableInv(s);
      assert Active(s).value == job;
    }
    RetriedWaits(s');
    Onward(s, s', Settle(true));
    s' := DoRetry(s', true);
  }

  lemma RetriedWaits(s: Host)
    requires s.pc.Failing? && HasRoom(s.queues, s.pc.job.kind)
    ensures var s' := DoRetry(s, true);
            s'.pc.Top? && s'.execs == s.execs && Waiting1(s', s.pc.job.id) && (s.pc.job.id in s.rows ==> RowIs(s', s.pc.job.id, Queued))
  {
    var q, s' := QueueOf(s.pc.job.kind), DoRetry(s, true);
    assert s'.queues[q][|s'.queues[q]| - 1].id == s.pc.job.id;
  }
}
