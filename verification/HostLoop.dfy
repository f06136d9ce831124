/**
 The indexing host loop as the program runs it, on the scheduler, the catalog and its own local
 state. `State()` reads off a state of `HostModel`; every method takes steps of that model, so
 everything proved of reachable states holds of this loop between any two catalog accesses.
 */
module HostLoops {
  import opened Common
  import opened Jobs
  import opened HostModel
  import opened HostSafety
  import opened HostTracking
  import opened HostRuns
  import opened BoundedQueues
  import opened Schedulers

  // ---- Each step leads to a reachable state -----------------------------------------------

  lemma OthersReach(s: Host, rows: map<JobId, Row>)
    requires Reachable(s) && Interference(s.rows, s.issued, rows)
    ensures Reachable(Changed(s, rows))
  {
    Go(s, Others(rows));
  }

  lemma ObserveReach(s: Host, mode: Mode)
    requires Reachable(s) && s.pc.Top? && (s.mode.Stopped? <==> mode.Stopped?)
    ensures Reachable(s.(mode := mode))
  {
    Go(s, Observe(mode));
  }

  ghost function HandedOut(s: Host, queues: Queues, job: Job): Host {
    s.(queues := queues, pc := Popped(job), trimmed := false, trims := 0)
  }

  lemma PopReach(s: Host, k: nat, queues: Queues, job: Job)
    requires Reachable(s) && (s.pc.Top? || s.pc.Second?) && TickQueue(s.queues, s.mode) == Some(k)
    requires queues == Popped1(s.queues, k) && job == s.queues[k][Best(s.queues[k])]
    ensures Reachable(HandedOut(s, queues, job))
  {
    Go(s, Tick);
  }

  // Where a tick that hands out nothing leads.
  ghost function AfterNone(s: Host): Pc {
    if s.pc.Top? then Listing else if !s.trimmed && AllEmpty(s.queues) then Counting(0, {}) else Top
  }

  lemma NoneReach(s: Host)
    requires Reachable(s) && (s.pc.Top? || s.pc.Second?) && TickQueue(s.queues, s.mode) == None
    ensures Reachable(s.(pc := AfterNone(s)))
  {
    Go(s, Tick);
  }

  lemma ListReach(s: Host, ok: bool, todo: seq<Record>)
    requires Reachable(s) && s.pc.Listing? && (ok ==> Enumerates(todo, s.rows, Queued))
    ensures Reachable(s.(pc := if ok then Loading(todo) else Second))
  {
    Go(s, List(ok, todo));
  }

  // A record that is tracked, or has no source, is passed over.
  lemma SkipReach(s: Host, record: Record, rest: seq<Record>)
    requires Reachable(s) && s.pc == Loading([record] + rest)
    requires record.id in s.known || JobFromRecord(record).None?
    ensures Reachable(s.(pc := Loading(rest)))
  {
    assert s.pc.todo[1..] == rest;
    Go(s, Load(true));
  }

  lemma LoadReach(s: Host, record: Record, rest: seq<Record>, job: Job)
    requires Reachable(s) && s.pc == Loading([record] + rest) && record.id !in s.known
    requires JobFromRecord(record) == Some(job) && HasRoom(s.queues, job.kind)
    ensures Reachable(Loaded(s.(pc := Loading(rest)), job))
  {
    assert s.pc.todo[1..] == rest;
    Go(s, Load(true));
  }

  lemma BlockReach(s: Host, record: Record, rest: seq<Record>, job: Job, ok: bool)
    requires Reachable(s) && s.pc == Loading([record] + rest) && record.id !in s.known
    requires JobFromRecord(record) == Some(job) && !HasRoom(s.queues, job.kind)
    ensures Reachable(s.(pc := Loading(rest), rows := if ok then HostModel.SetStatus(s.rows, job.id, Blocked) else s.rows))
  {
    assert s.pc.todo[1..] == rest;
    Go(s, Load(ok));
  }

  lemma RelistReach(s: Host, ok: bool, todo: seq<Record>)
    requires Reachable(s) && s.pc == Loading([]) && (ok ==> Enumerates(todo, s.rows, Blocked))
    ensures Reachable(s.(pc := if ok then Unblocking(todo) else Second))
  {
    Go(s, Relist(ok, todo));
  }

  lemma EndPassReach(s: Host)
    requires Reachable(s) && s.pc == Unblocking([])
    ensures Reachable(s.(pc := Second))
  {
    Go(s, Unblock(true));
  }

  lemma StayReach(s: Host, record: Record, rest: seq<Record>)
    requires Reachable(s) && s.pc == Unblocking([record] + rest)
    requires JobFromRecord(record).None? || !HasRoom(s.queues, record.row.kind)
    ensures Reachable(s.(pc := Unblocking(rest)))
  {
    assert s.pc.todo[1..] == rest;
    Go(s, Unblock(true));
  }

  lemma CountReach(s: Host, ok: bool)
    requires Reachable(s) && s.pc.Counting? && s.pc.i < |UNFINISHED|
    ensures Reachable(DoCount(s, ok))
  {
    Go(s, CountRows(ok));
  }

  lemma TrimReach(s: Host)
    requires Reachable(s) && s.pc.Counting? && s.pc.i == |UNFINISHED|
    ensures Reachable(s.(pc := Top, trimmed := true, trims := s.trims + 1))
  {
    Go(s, Trim);
  }

  lemma CheckReach(s: Host, ok: bool)
    requires Reachable(s) && s.pc.Popped?
    ensures Reachable(DoCheck(s, ok))
  {
    Go(s, Check(ok));
  }

  lemma WorkReach(s: Host, outcome: Outcome)
    requires Reachable(s) && s.pc.Working?
    ensures Reachable(DoWork(s, s.rows, outcome))
  {
    Go(s, Work(s.rows, outcome));
  }

  lemma CompleteReach(s: Host, ok: bool)
    requires Reachable(s) && s.pc.Reporting? && s.pc.outcome.Done?
    ensures Reachable(DoComplete(s, ok))
  {
    Go(s, Complete(ok));
  }

  lemma ClassifyReach(s: Host, repair: Option<Record>)
    requires Reachable(s) && s.pc.Reporting? && !s.pc.outcome.Done?
    requires repair.Some? ==> RepairAllowed(s, repair.value)
    ensures Reachable(DoClassify(s, repair))
  {
    Go(s, Classify(repair));
  }

  // A retry always finds its slot free (`RetryFindsRoom`).
  lemma RetryReach(s: Host, job: Job, ok: bool)
    requires Reachable(s) && s.pc.Failing? && Retries(s.pc.job, s.pc.terminal)
    requires job == s.pc.job.(attempts := s.pc.job.attempts + 1)
    ensures HasRoom(s.queues, job.kind)
    ensures Reachable(s.(pc := Top, queues := Pushed(s.queues, job),
                         rows := if ok then HostModel.SetStatus(s.rows, job.id, Queued) else s.rows))
  {
    RetryFindsRoom(s);
    Go(s, Settle(ok));
  }

  lemma GiveUpReach(s: Host, ok: bool)
    requires Reachable(s) && s.pc.Failing? && !Retries(s.pc.job, s.pc.terminal)
    ensures Reachable(DoGiveUp(s, ok))
  {
    Go(s, Settle(ok));
  }

  // ---- The loop ---------------------------------------------------------------------------

  ghost function Begun(rows: map<JobId, Row>, queues: Queues, mode: Mode): (s: Host)
    ensures AllEmpty(queues) ==> Start(s)
  {
    Host(rows, queues, {}, {}, mode, false, Top, rows.Keys, EmbeddingIds(rows),
         multiset{}, multiset{}, multiset{}, multiset{}, {}, multiset{}, multiset{}, 0)
  }

  // The queued rows were listed and, if that succeeded, the blocked ones too.
  ghost predicate BothListed(before: seq<Access>, after: seq<Access>) {
    && before < after && after[|before|].Listed? && after[|before|].st == Queued
    && (after[|before|].ok ==> exists i :: |before| < i < |after| && after[i].Listed? && after[i].st == Blocked)
  }

  lemma ListedBoth(before: seq<Access>, first: seq<Access>, loaded: seq<Access>, second: seq<Access>, after: seq<Access>, a: bool, b: bool)
    requires first == before + [Listed(Queued, a)] && first <= loaded
    requires second == loaded + [Listed(Blocked, b)] && second <= after
    ensures BothListed(before, after)
  {
    assert after[|loaded|] == Listed(Blocked, b) && after[|before|] == Listed(Queued, a);
  }

  lemma ListedMore(before: seq<Access>, mid: seq<Access>, after: seq<Access>)
    requires BothListed(before, mid) && mid <= after
    ensures BothListed(before, after)
  {
    assert after[|before|] == mid[|before|];
    if i :| |before| < i < |mid| && mid[i].Listed? && mid[i].st == Blocked { assert after[i] == mid[i]; }
  }

  // After a search for other jobs of the file, if any, one write of this job's row.
  ghost predicate Recorded(before: seq<Access>, after: seq<Access>, id: JobId) {
    && before < after && after[|after| - 1].Wrote? && after[|after| - 1].id == id
    && forall i :: |before| <= i < |after| - 1 ==> after[i].Searched?
  }

  lemma RecordedAfter(before: seq<Access>, searched: seq<Access>, id: JobId, st: Status, ok: bool)
    requires searched == before || exists f, found :: searched == before + [Searched(f, found)]
    ensures Recorded(before, searched + [Wrote(id, st, ok)], id)
  {
  }

  // Each status of unfinished work counted, successfully.
  ghost const ALL_COUNTED: seq<Access> :=
    [Counted(Queued, true), Counted(Running, true), Counted(Paused, true), Counted(Blocked, true), Counted(Waiting, true)]

  // The first `n` of them.
  ghost predicate CountedSoFar(before: seq<Access>, after: seq<Access>, n: nat) {
    n <= |ALL_COUNTED| && after == before + ALL_COUNTED[..n]
  }

  lemma NextCounted(before: seq<Access>, after: seq<Access>, n: nat)
    requires CountedSoFar(before, after, n) && n < |UNFINISHED|
    ensures CountedSoFar(before, after + [Counted(UNFINISHED[n], true)], n + 1)
  {
    assert ALL_COUNTED[..n + 1] == ALL_COUNTED[..n] + [Counted(UNFINISHED[n], true)];
  }

  lemma EndsCounted(before: seq<Access>, after: seq<Access>)
    ensures CountedSoFar(before, before, 0)
    ensures CountedSoFar(before, after, |UNFINISHED|) ==> after == before + ALL_COUNTED
  {
  }

  // Scanning, reading and keyword work first, embeddings next, upkeep last.
  function UsualPriority(kind: Kind): nat {
    if kind.Embedding? then 1 else if kind.Cleanup? || kind.Repair? then 0 else 2
  }

  // What a record puts in memory, if anything: the job of its row, with all its attempts left.
  ghost predicate OnlyItsCopy(before: Queues, after: Queues, r: Record) {
    after != before ==>
      && r.row.source.Some?
      && after == Pushed(before, Job(r.id, r.row.source.value, r.row.file, r.row.kind, UsualPriority(r.row.kind), 0))
  }

  lemma ItsCopy(before: Queues, r: Record)
    requires JobFromRecord(r).Some?
    ensures OnlyItsCopy(before, Pushed(before, JobFromRecord(r).value), r)
  {
  }

  // What is known of one job between two iterations.
  lemma SoFar(s: Host, id: JobId)
    requires Reachable(s) && s.pc.Top?
    ensures RowIs(s, id, Queued) && s.rows[id].source.Some? ==> id !in s.known || id in s.unrecorded || Waiting1(s, id)
    ensures (id in s.embeddings && id in s.lostUnblock) || s.wins[id] <= 1
    ensures s.execs[id] <= MAX_JOB_ATTEMPTS * (1 + s.misreads[id] + s.lostUnblock[id])
    ensures s.mode.Stopped? ==> s.execs[id] == 0
  {
    if RowIs(s, id, Queued) && s.rows[id].source.Some? { NothingForgotten(s, id); }
    if !(id in s.embeddings && id in s.lostUnblock) { NeverRedone(s, id); }
    BoundedRetries(s, id);
    if s.mode.Stopped? { PausedRunsNothing(s, id); }
  }

  // Rows may have been inserted, and nothing else happened.
  ghost predicate Aged(was: Host, now: Host) {
    now == was.(issued := now.issued, embeddings := now.embeddings)
  }

  class HostLoop {
    const scheduler: Scheduler
    const catalog: Catalog
    var known: set<JobId>
    var requeuedForCacheMiss: set<FileId>
    var trimmedSinceIdle: bool
    ghost var past: Host  // where the loop is and what has happened; the rest is in the real fields
    ghost var turns: nat  // how often an iteration began

    ghost function State(): (s: Host)
      reads this, scheduler, catalog
    {
      past.(rows := catalog.rows, queues := scheduler.waiting, mode := scheduler.mode,
            known := known, guard := requeuedForCacheMiss, trimmed := trimmedSinceIdle)
    }

    ghost predicate Valid()
      reads this, scheduler, scheduler.queues, catalog
    {
      scheduler.Valid() && catalog.Valid() && past.issued <= Generated(catalog.nextId) && Reachable(State())
    }

    // The stored setting decides whether this session indexes at all; the catalog is told, and may
    // not be able to record it.
    constructor (catalog: Catalog, backgroundIndexing: bool)
      requires catalog.Valid()
      modifies catalog`rows, catalog`asked
      ensures Valid() && this.catalog == catalog && fresh(scheduler) && fresh(scheduler.queues)
      ensures past.pc.Top? && turns == 0 && scheduler.mode == if backgroundIndexing then Normal else Stopped
      ensures catalog.rows == old(catalog.rows)
              || catalog.rows == if backgroundIndexing then AllMoved(old(catalog.rows), Paused, Queued)
                                 else AllMoved(old(catalog.rows), Queued, Paused)
      // Nothing but queued and parked rows is touched, and with indexing on nothing queued is parked.
      ensures catalog.rows.Keys == old(catalog.rows).Keys
      ensures forall id <- catalog.rows :: catalog.rows[id] == old(catalog.rows)[id]
                || old(catalog.rows)[id].status == if backgroundIndexing then Paused else Queued
      ensures catalog.rows != old(catalog.rows) ==> forall id <- catalog.rows ::
                catalog.rows[id].status == (if backgroundIndexing then Queued else Paused)
                <==> old(catalog.rows)[id].status == Queued || old(catalog.rows)[id].status == Paused
    {
      var made := new Scheduler();
      if backgroundIndexing {
        var _ := made.Resume(catalog);
      } else {
        var _ := made.Pause(catalog);
      }
      scheduler := made;
      this.catalog := catalog;
      known := {};
      requeuedForCacheMiss := {};
      trimmedSinceIdle := false;
      turns := 0;
      past := Begun(catalog.rows, made.waiting, made.mode);
      new;
      StartReachable(State());
    }

    // Other threads, between two catalog accesses.
    method Meanwhile()
      requires Valid()
      modifies `past, catalog`rows, catalog`nextId
      ensures Valid() && Aged(old(past), past)
    {
      var n: nat := *;
      while n > 0
        invariant Valid() && Aged(old(past), past)
      {
        OneOther();
        n := n - 1;
      }
    }

    method OneOther()
      requires Valid()
      modifies `past, catalog`rows, catalog`nextId
      ensures Valid() && Aged(old(past), past)
    {
      ghost var s := State();
      catalog.Others();
      OthersReach(s, catalog.rows);
      past := past.(issued := past.issued + catalog.rows.Keys, embeddings := past.embeddings + EmbeddingIds(catalog.rows));
      assert State() == Changed(s, catalog.rows);
    }

    // ---- Rehydration ----------------------------------------------------------------------

    method LoadRecord(record: Record, ghost rest: seq<Record>)
      requires Valid() && past.pc == Loading([record] + rest)
      modifies `past, `known, catalog`rows, catalog`asked, scheduler`waiting, scheduler.queues
      ensures Valid() && past.pc == Loading(rest) && past.execs == old(past.execs) && old(catalog.asked) <= catalog.asked
      ensures OnlyItsCopy(old(scheduler.waiting), scheduler.waiting, record)
      ensures record.id in old(known) ==> scheduler.waiting == old(scheduler.waiting)
    {
      var job := JobFromRecord(record);
      if record.id in known || job.None? {
        PassOver(record, rest);
      } else {
        ItsCopy(scheduler.waiting, record);
        ghost var _ := LoadOrBlock(job.value, record, rest);
      }
    }

    ghost method PassOver(record: Record, rest: seq<Record>)
      requires Valid() && past.pc == Loading([record] + rest)
      requires record.id in known || JobFromRecord(record).None?
      modifies `past
      ensures Valid() && past == old(past).(pc := Loading(rest))
    {
      SkipReach(State(), record, rest);
      past := past.(pc := Loading(rest));
      assert State() == old(State()).(pc := Loading(rest));
    }

    // The scheduler takes the job if there is room, and is left alone if there is none.
    method TryLoad(job: Job, ghost s: Host) returns (loaded: bool)
      requires Valid() && s == State()
      modifies scheduler`waiting, scheduler.queues
      ensures scheduler.Valid() && catalog.Valid() && s.issued <= Generated(catalog.nextId) && Reachable(s)
      ensures loaded == HasRoom(s.queues, job.kind)
      ensures State() == if loaded then s.(queues := Pushed(s.queues, job)) else s
    {
      loaded := scheduler.LoadPersisted(job);
      assert State() == s.(queues := scheduler.waiting);
    }

    method LoadOrBlock(job: Job, ghost record: Record, ghost rest: seq<Record>) returns (ghost landed: bool)
      requires Valid() && past.pc == Loading([record] + rest)
      requires record.id !in known && JobFromRecord(record) == Some(job)
      modifies `past, `known, catalog`rows, catalog`asked, scheduler`waiting, scheduler.queues
      ensures Valid() && past.pc == Loading(rest) && past.execs == old(past.execs)
      ensures if HasRoom(old(scheduler.waiting), job.kind)
              then known == old(known) + {job.id} && catalog.asked == old(catalog.asked)
              else known == old(known) && catalog.asked == old(catalog.asked) + [Wrote(job.id, Blocked, landed)]
      ensures scheduler.waiting == if HasRoom(old(scheduler.waiting), job.kind) then Pushed(old(scheduler.waiting), job) else old(scheduler.waiting)
    {
      ghost var s := State();
      var loaded := TryLoad(job, s);
      if loaded {
        landed := true;
        NoteLoaded(job, s, record, rest);
      } else {
        landed := MarkBlocked(job, record, rest);
      }
    }

    // The copy is in the queue already.
    method NoteLoaded(job: Job, ghost s: Host, ghost record: Record, ghost rest: seq<Record>)
      requires scheduler.Valid() && catalog.Valid() && s.issued <= Generated(catalog.nextId) && Reachable(s)
      requires s.pc == Loading([record] + rest) && record.id !in s.known
      requires JobFromRecord(record) == Some(job) && HasRoom(s.queues, job.kind)
      requires State() == s.(queues := Pushed(s.queues, job))
      modifies `past, `known
      ensures Valid() && past.pc == Loading(rest) && past.execs == s.execs
      ensures known == old(known) + {job.id}
    {
      known := known + {job.id};
      LoadReach(s, record, rest, job);
      past := Loaded(s.(pc := Loading(rest)), job);
      assert State() == past;
    }

    method MarkBlocked(job: Job, ghost record: Record, ghost rest: seq<Record>) returns (ghost landed: bool)
      requires Valid() && past.pc == Loading([record] + rest) && !HasRoom(scheduler.waiting, job.kind)
      requires record.id !in known && JobFromRecord(record) == Some(job)
      modifies `past, catalog`rows, catalog`asked
      ensures Valid() && past == old(past).(pc := Loading(rest))
      ensures catalog.asked == old(catalog.asked) + [Wrote(job.id, Blocked, landed)]
    {
      ghost var s := State();
      var recorded := catalog.SetStatus(job.id, Blocked);
      landed := recorded;
      BlockReach(s, record, rest, job, landed);
      past := past.(pc := Loading(rest));
      assert State() == s.(pc := Loading(rest), rows := catalog.rows);
    }

    method LoadNext(todo: seq<Record>, i: nat)
      requires Valid() && i < |todo| && past.pc == Loading(todo[i..])
      modifies `past, `known, catalog, scheduler`waiting, scheduler.queues
      ensures Valid() && past.pc == Loading(todo[i + 1..]) && past.execs == old(past.execs) && old(catalog.asked) <= catalog.asked
    {
      assert todo[i..] == [todo[i]] + todo[i + 1..];
      Meanwhile();
      LoadRecord(todo[i], todo[i + 1..]);
    }

    method LoadQueued(todo: seq<Record>)
      requires Valid() && past.pc == Loading(todo)
      modifies `past, `known, catalog, scheduler`waiting, scheduler.queues
      ensures Valid() && past.pc == Loading([]) && past.execs == old(past.execs) && old(catalog.asked) <= catalog.asked
    {
      var i := 0;
      while i < |todo|
        invariant 0 <= i <= |todo|
        invariant Valid() && past.pc == Loading(todo[i..]) && past.execs == old(past.execs) && old(catalog.asked) <= catalog.asked
      {
        LoadNext(todo, i);
        i := i + 1;
      }
      assert todo[i..] == [];
    }

    method UnblockRecord(record: Record, ghost rest: seq<Record>)
      requires Valid() && past.pc == Unblocking([record] + rest)
      modifies `past, `known, catalog`rows, catalog`asked, scheduler`waiting, scheduler.queues
      ensures Valid() && past.pc == Unblocking(rest) && past.execs == old(past.execs) && old(catalog.asked) <= catalog.asked
      ensures OnlyItsCopy(old(scheduler.waiting), scheduler.waiting, record)
    {
      var job := JobFromRecord(record);
      if job.None? {
        Stay(record, rest);
      } else {
        ItsCopy(scheduler.waiting, record);
        ghost var _ := LoadOrStay(job.value, record, rest);
      }
    }

    method LoadOrStay(job: Job, ghost record: Record, ghost rest: seq<Record>) returns (ghost landed: bool)
      requires Valid() && past.pc == Unblocking([record] + rest) && JobFromRecord(record) == Some(job)
      modifies `past, `known, catalog`rows, catalog`asked, scheduler`waiting, scheduler.queues
      ensures Valid() && past.pc == Unblocking(rest) && past.execs == old(past.execs)
      ensures HasRoom(old(scheduler.waiting), job.kind) ==>
                known == old(known) + {job.id} && catalog.asked == old(catalog.asked) + [Wrote(job.id, Queued, landed)]
      ensures !HasRoom(old(scheduler.waiting), job.kind) ==> known == old(known) && catalog.asked == old(catalog.asked)
      ensures scheduler.waiting == if HasRoom(old(scheduler.waiting), job.kind) then Pushed(old(scheduler.waiting), job) else old(scheduler.waiting)
    {
      ghost var s := State();
      var loaded := TryLoad(job, s);
      if loaded {
        landed := MarkQueued(job, s, record, rest);
      } else {
        landed := true;
        Stay(record, rest);
      }
    }

    // No room still, or no source: the row stays blocked.
    ghost method Stay(record: Record, rest: seq<Record>)
      requires Valid() && past.pc == Unblocking([record] + rest)
      requires JobFromRecord(record).None? || !HasRoom(scheduler.waiting, record.row.kind)
      modifies `past
      ensures Valid() && past == old(past).(pc := Unblocking(rest))
    {
      StayReach(State(), record, rest);
      past := past.(pc := Unblocking(rest));
      assert State() == old(State()).(pc := Unblocking(rest));
    }

    // The copy is in the queue already.
    method MarkQueued(job: Job, ghost s: Host, ghost record: Record, ghost rest: seq<Record>) returns (ghost landed: bool)
      requires scheduler.Valid() && catalog.Valid() && s.issued <= Generated(catalog.nextId) && Reachable(s)
      requires s.pc == Unblocking([record] + rest) && JobFromRecord(record) == Some(job) && HasRoom(s.queues, job.kind)
      requires State() == s.(queues := Pushed(s.queues, job))
      modifies `past, `known, catalog`rows, catalog`asked
      ensures Valid() && past.pc == Unblocking(rest) && past.execs == s.execs
      ensures known == old(known) + {job.id}
      ensures catalog.asked == old(catalog.asked) + [Wrote(job.id, Queued, landed)]
    {
      known := known + {job.id};
      var recorded := catalog.SetStatus(job.id, Queued);
      landed := recorded;
      NoteUnblocked(job, landed, s, record, rest);
    }

    ghost method NoteUnblocked(job: Job, landed: bool, s: Host, record: Record, rest: seq<Record>)
      requires scheduler.Valid() && catalog.Valid() && s.issued <= Generated(catalog.nextId) && Reachable(s)
      requires s.pc == Unblocking([record] + rest) && JobFromRecord(record) == Some(job) && HasRoom(s.queues, job.kind)
      requires State() == s.(queues := Pushed(s.queues, job), known := s.known + {job.id},
                             rows := if landed then HostModel.SetStatus(s.rows, job.id, Queued) else s.rows)
      modifies `past
      ensures Valid() && past.pc == Unblocking(rest) && past.execs == s.execs
    {
      UnblockReach(s, record, rest, job, landed);
      past := Unblocked(Loaded(s.(pc := Unblocking(rest)), job), landed, job.id);
      assert State() == past;
    }

    method UnblockNext(todo: seq<Record>, i: nat)
      requires Valid() && i < |todo| && past.pc == Unblocking(todo[i..])
      modifies `past, `known, catalog, scheduler`waiting, scheduler.queues
      ensures Valid() && past.pc == Unblocking(todo[i + 1..]) && past.execs == old(past.execs) && old(catalog.asked) <= catalog.asked
    {
      assert todo[i..] == [todo[i]] + todo[i + 1..];
      Meanwhile();
      UnblockRecord(todo[i], todo[i + 1..]);
    }

    method LoadBlocked(todo: seq<Record>)
      requires Valid() && past.pc == Unblocking(todo)
      modifies `past, `known, catalog, scheduler`waiting, scheduler.queues
      ensures Valid() && past.pc == Unblocking([]) && past.execs == old(past.execs) && old(catalog.asked) <= catalog.asked
    {
      var i := 0;
      while i < |todo|
        invariant 0 <= i <= |todo|
        invariant Valid() && past.pc == Unblocking(todo[i..]) && past.execs == old(past.execs) && old(catalog.asked) <= catalog.asked
      {
        UnblockNext(todo, i);
        i := i + 1;
      }
      assert todo[i..] == [];
    }

    method ListQueued() returns (ok: bool, todo: seq<Record>)
      requires Valid() && past.pc.Listing?
      modifies `past, catalog`asked
      ensures Valid() && past == old(past).(pc := if ok then Loading(todo) else Second)
      ensures catalog.asked == old(catalog.asked) + [Listed(Queued, ok)]
      ensures ok ==> Enumerates(todo, catalog.rows, Queued)
    {
      ghost var s := State();
      ok, todo := catalog.ListByStatus(Queued);
      ListReach(s, ok, todo);
      past := past.(pc := if ok then Loading(todo) else Second);
      assert State() == s.(pc := past.pc);
    }

    method ListBlocked() returns (ok: bool, todo: seq<Record>)
      requires Valid() && past.pc == Loading([])
      modifies `past, catalog`asked
      ensures Valid() && past == old(past).(pc := if ok then Unblocking(todo) else Second)
      ensures catalog.asked == old(catalog.asked) + [Listed(Blocked, ok)]
      ensures ok ==> Enumerates(todo, catalog.rows, Blocked)
    {
      ghost var s := State();
      ok, todo := catalog.ListByStatus(Blocked);
      RelistReach(s, ok, todo);
      past := past.(pc := if ok then Unblocking(todo) else Second);
      assert State() == s.(pc := past.pc);
    }

    method Rehydrate()
      requires Valid() && past.pc.Listing?
      modifies `past, `known, catalog, scheduler`waiting, scheduler.queues
      ensures Valid() && past.pc.Second? && past.execs == old(past.execs)
      ensures BothListed(old(catalog.asked), catalog.asked)
    {
      Meanwhile();
      var ok, todo := ListQueued();
      ghost var first, a := catalog.asked, ok;
      if !ok { return; }
      LoadQueued(todo);
      Meanwhile();
      ghost var loaded := catalog.asked;
      ok, todo := ListBlocked();
      ghost var second, b := catalog.asked, ok;
      if !ok {
        ListedBoth(old(catalog.asked), first, loaded, second, second, a, b);
        return;
      }
      LoadBlocked(todo);
      EndPass();
      ListedBoth(old(catalog.asked), first, loaded, second, catalog.asked, a, b);
    }

    ghost method EndPass()
      requires Valid() && past.pc == Unblocking([])
      modifies `past
      ensures Valid() && past == old(past).(pc := Second)
    {
      EndPassReach(State());
      past := past.(pc := Second);
      assert State() == old(State()).(pc := Second);
    }

    // ---- The idle check -------------------------------------------------------------------

    // A count that failed, or found a row.
    ghost predicate NotNone(access: Access)
      reads catalog
    {
      access.Counted? && (access.ok ==> exists id <- catalog.rows :: catalog.rows[id].status == access.st)
    }

    method CountNone(st: Status) returns (none: bool)
      requires Valid() && past.pc.Counting? && past.pc.i < |UNFINISHED| && UNFINISHED[past.pc.i] == st
      modifies `past, catalog`asked
      ensures Valid() && past == old(past).(pc := past.pc)
      ensures none ==> catalog.asked == old(catalog.asked) + [Counted(st, true)] && forall id <- catalog.rows :: catalog.rows[id].status != st
      ensures !none ==> exists ok :: catalog.asked == old(catalog.asked) + [Counted(st, ok)]
                                     && (ok ==> exists id <- catalog.rows :: catalog.rows[id].status == st)
      ensures if none then past.pc.Counting? && past.pc.i == old(past.pc.i) + 1 else past.pc.Top?
    {
      ghost var s := State();
      var ok, n := catalog.CountWithStatus(st);
      none := ok && n == 0;
      CountReach(s, ok);
      past := past.(pc := DoCount(s, ok).pc);
      assert State() == DoCount(s, ok);
    }

    method CountNext(st: Status) returns (none: bool)
      requires Valid() && past.pc.Counting? && past.pc.i < |UNFINISHED| && UNFINISHED[past.pc.i] == st
      modifies `past, catalog
      ensures Valid() && past.execs == old(past.execs) && past.trims == old(past.trims)
      ensures if none then past.pc.Counting? && past.pc.i == old(past.pc.i) + 1 else past.pc.Top?
      ensures old(catalog.asked) <= catalog.asked
      ensures none ==> catalog.asked == old(catalog.asked) + [Counted(st, true)]
      ensures !none ==> catalog.asked != old(catalog.asked) && NotNone(catalog.asked[|catalog.asked| - 1])
    {
      Meanwhile();
      none := CountNone(st);
    }

    method IndexingIsIdle() returns (idle: bool)
      requires Valid() && past.pc == Counting(0, {})
      modifies `past, catalog
      ensures Valid() && past.execs == old(past.execs) && past.trims == old(past.trims)
      ensures if idle then past.pc.Counting? && past.pc.i == |UNFINISHED| else past.pc.Top?
      ensures idle ==> catalog.asked == old(catalog.asked) + ALL_COUNTED
      ensures old(catalog.asked) <= catalog.asked
      // It is not idle for a reason: the last count failed or found something.
      ensures !idle ==> catalog.asked != old(catalog.asked) && NotNone(catalog.asked[|catalog.asked| - 1])
    {
      idle := true;
      var i := 0;
      EndsCounted(catalog.asked, catalog.asked);
      while i < |UNFINISHED| && idle
        invariant 0 <= i <= |UNFINISHED|
        invariant Valid() && past.execs == old(past.execs) && past.trims == old(past.trims)
        invariant if idle then past.pc.Counting? && past.pc.i == i else past.pc.Top?
        invariant idle ==> CountedSoFar(old(catalog.asked), catalog.asked, i)
        invariant old(catalog.asked) <= catalog.asked
        invariant !idle ==> catalog.asked != old(catalog.asked) && NotNone(catalog.asked[|catalog.asked| - 1])
        decreases |UNFINISHED| - i
      {
        NextCounted(old(catalog.asked), catalog.asked, i);
        idle := CountNext(UNFINISHED[i]);
        i := i + 1;
      }
      EndsCounted(old(catalog.asked), catalog.asked);
    }

    method Trim()
      requires Valid() && past.pc.Counting? && past.pc.i == |UNFINISHED|
      modifies `past, `trimmedSinceIdle
      ensures Valid() && past == old(past).(pc := Top, trims := old(past.trims) + 1) && trimmedSinceIdle
    {
      ghost var s := State();
      trimmedSinceIdle := true;
      TrimReach(s);
      past := past.(pc := Top, trims := past.trims + 1);
      assert State() == s.(pc := Top, trimmed := true, trims := s.trims + 1);
    }

    method TrimWhenIdle()
      requires Valid() && (past.pc.Top? || past.pc == Counting(0, {}))
      requires past.pc.Counting? <==> !trimmedSinceIdle && AllEmpty(scheduler.waiting)
      modifies `past, `trimmedSinceIdle, catalog
      ensures Valid() && past.pc.Top? && past.execs == old(past.execs)
      ensures past.trims != old(past.trims) ==> catalog.asked == old(catalog.asked) + ALL_COUNTED
      ensures trimmedSinceIdle == (old(trimmedSinceIdle) || past.trims != old(past.trims))
      ensures old(past.pc.Top?) ==> catalog.asked == old(catalog.asked) && past == old(past)
      ensures old(catalog.asked) <= catalog.asked
      // The trim is left out only when something waits, or after a count that failed or found a row.
      ensures !trimmedSinceIdle && AllEmpty(scheduler.waiting) ==>
                catalog.asked != old(catalog.asked) && NotNone(catalog.asked[|catalog.asked| - 1])
    {
      if !trimmedSinceIdle {
        var idle := scheduler.IsIdle();
        if idle {
          idle := IndexingIsIdle();
        }
        if idle {
          Trim();
        }
      }
    }

    // ---- One job --------------------------------------------------------------------------

    method JobIsStillQueued(job: Job) returns (still: bool)
      requires Valid() && past.pc == Popped(job)
      modifies `past, `known, catalog`asked
      ensures Valid() && past.execs == old(past.execs)
      ensures past.pc == if still then Working(job) else Top
      ensures known == if still then old(known) else old(known) - {job.id}
      ensures exists ok :: catalog.asked == old(catalog.asked) + [ReadOf(job.id, ok)]
                           && (still <==> ok && job.id in catalog.rows && catalog.rows[job.id].status == Queued)
    {
      ghost var s := State();
      var ok, status := catalog.StatusOf(job.id);
      still := ok && status == Some(Queued);
      if !still {
        known := known - {job.id};
      }
      CheckReach(s, ok);
      past := DoCheck(s, ok);
      assert State() == past;
    }

    method Work(job: Job) returns (outcome: Outcome)
      requires Valid() && past.pc == Working(job)
      modifies `past, catalog`rows, catalog`nextId
      ensures Valid() && past.pc == Reporting(job, outcome) && past.execs == old(past.execs) + multiset{job.id}
    {
      // What the worker writes is among what others may write while it runs.
      Meanwhile();
      outcome := *;
      ghost var s := State();
      WorkReach(s, outcome);
      past := DoWork(s, s.rows, outcome);
      assert State() == past;
      Meanwhile();
    }

    method Succeed(job: Job) returns (ghost landed: bool)
      requires Valid() && past.pc == Reporting(job, Done)
      modifies `past, `known, `requeuedForCacheMiss, catalog`rows, catalog`asked
      ensures Valid() && State() == DoComplete(old(State()), landed)
      ensures catalog.asked == old(catalog.asked) + [Wrote(job.id, Succeeded, landed)]
      // The text was read if the job reads it, and the job is followed until its end is recorded.
      ensures requeuedForCacheMiss == old(requeuedForCacheMiss) -
                (if job.file.Some? && (job.kind.Chunk? || job.kind.Keyword? || job.kind.Embedding?) then {job.file.value} else {})
      ensures known == if landed then old(known) - {job.id} else old(known)
      ensures landed && job.id in catalog.rows ==> catalog.rows[job.id].status == Succeeded
    {
      ghost var s := State();
      if ReadsText(job.kind) && job.file.Some? {
        requeuedForCacheMiss := requeuedForCacheMiss - {job.file.value};
      }
      var recorded := catalog.SetStatus(job.id, Succeeded);
      if recorded {
        known := known - {job.id};
      }
      landed := recorded;
      CompleteReach(s, landed);
      past := DoComplete(s, landed);
      assert State() == past;
    }

    // Queue the file's extraction again, unless some other job will rebuild its text anyway.
    method RequeueExtraction(job: Job, file: FileId) returns (ghost repair: Option<Record>)
      requires Valid() && past.pc == Reporting(job, CacheMiss) && job.file == Some(file)
      modifies catalog
      ensures catalog.Valid() && Generated(old(catalog.nextId)) <= Generated(catalog.nextId)
      ensures exists ok :: catalog.asked == old(catalog.asked) + [Searched(file, ok)]
      ensures repair.None? ==> catalog.rows == old(catalog.rows)
      ensures repair.Some? ==>
                && RepairAllowed(old(State()), repair.value)
                && catalog.rows == old(catalog.rows)[repair.value.id := repair.value.row]
                && repair.value.id in Generated(catalog.nextId)
      ensures repair.Some? ==>
                && repair.value.row.status == Queued && repair.value.row.kind == Extract
                && repair.value.row.file == Some(file) && repair.value.row.source.Some?
                && forall id <- old(catalog.rows) ::
                     id != job.id && old(catalog.rows)[id].file == Some(file)
                     && (old(catalog.rows)[id].kind == Extract || old(catalog.rows)[id].kind == Chunk)
                     ==> old(catalog.rows)[id].status in {Succeeded, Failed, Canceled}
    {
      repair := None;
      var ok, pending := catalog.PendingText(file, job.id);
      var source: Option<SourceId> := *;
      if ok && !pending && source.Some? {
        var row := Row(Queued, source, job.file, Extract);
        var id := catalog.Insert(row);
        repair := Some(Record(id, row));
      }
    }

    method ExtractionCacheMiss(job: Job) returns (terminal: bool)
      requires Valid() && past.pc == Reporting(job, CacheMiss)
      modifies `past, `requeuedForCacheMiss, catalog
      ensures Valid() && past.pc == Failing(job, terminal) && past.execs == old(past.execs)
      ensures terminal <==> job.file.Some?
      ensures requeuedForCacheMiss == if job.file.Some? then old(requeuedForCacheMiss) + {job.file.value} else old(requeuedForCacheMiss)
      ensures job.file.None? || job.file.value in old(requeuedForCacheMiss) ==>
                catalog.rows == old(catalog.rows) && catalog.asked == old(catalog.asked)
      ensures job.file.Some? && job.file.value !in old(requeuedForCacheMiss) ==>
                exists ok :: catalog.asked == old(catalog.asked) + [Searched(job.file.value, ok)]
    {
      terminal := job.file.Some?;
      if job.file.Some? && job.file.value !in requeuedForCacheMiss {
        Repair(job, job.file.value);
      } else {
        NoteMiss(job);
      }
    }

    // The first miss of the file since its text was last read.
    method Repair(job: Job, file: FileId)
      requires Valid() && past.pc == Reporting(job, CacheMiss) && job.file == Some(file) && file !in requeuedForCacheMiss
      modifies `past, `requeuedForCacheMiss, catalog
      ensures Valid() && past.pc == Failing(job, true) && past.execs == old(past.execs)
      ensures requeuedForCacheMiss == old(requeuedForCacheMiss) + {file}
      ensures exists ok :: catalog.asked == old(catalog.asked) + [Searched(file, ok)]
    {
      ghost var s := State();
      ghost var repair := RequeueExtraction(job, file);
      requeuedForCacheMiss := requeuedForCacheMiss + {file};
      ClassifyReach(s, repair);
      past := DoClassify(s, repair);
      assert State() == past;
    }

    // No file, or a second miss in a row.
    ghost method NoteMiss(job: Job)
      requires Valid() && past.pc == Reporting(job, CacheMiss)
      requires job.file.None? || job.file.value in requeuedForCacheMiss
      modifies `past
      ensures Valid() && past.pc == Failing(job, job.file.Some?) && past.execs == old(past.execs)
    {
      ClassifyReach(State(), None);
      past := DoClassify(State(), None);
      assert State() == past;
    }

    method Retry(job: Job) returns (ghost landed: bool)
      requires Valid() && past.pc.Failing? && Retries(past.pc.job, past.pc.terminal)
      requires job == past.pc.job.(attempts := past.pc.job.attempts + 1)
      modifies `past, catalog`rows, catalog`asked, scheduler`waiting, scheduler.queues
      ensures Valid() && past == old(past).(pc := Top) && scheduler.waiting == Pushed(old(scheduler.waiting), job)
      ensures catalog.asked == old(catalog.asked) + [Wrote(job.id, Queued, landed)]
      ensures landed && job.id in catalog.rows ==> catalog.rows[job.id].status == Queued
    {
      ghost var s := State();
      RetryFindsRoom(s);
      var pushed := TryLoad(job, s);
      landed := WriteRetry(job, pushed, s);
    }

    // The copy is in the queue again, if there was room.
    method WriteRetry(job: Job, pushed: bool, ghost s: Host) returns (ghost landed: bool)
      requires scheduler.Valid() && catalog.Valid() && s.issued <= Generated(catalog.nextId) && Reachable(s)
      requires s.pc.Failing? && Retries(s.pc.job, s.pc.terminal) && job == s.pc.job.(attempts := s.pc.job.attempts + 1)
      requires pushed && State() == s.(queues := Pushed(s.queues, job))
      modifies `past, catalog`rows, catalog`asked
      ensures Valid() && past == old(past).(pc := Top)
      ensures catalog.asked == old(catalog.asked) + [Wrote(job.id, Queued, landed)]
      ensures landed && job.id in catalog.rows ==> catalog.rows[job.id].status == Queued
    {
      var recorded := catalog.SetStatus(job.id, if pushed then Queued else Blocked);
      landed := recorded;
      RetryReach(s, job, landed);
      past := past.(pc := Top);
      assert State() == s.(pc := Top, queues := Pushed(s.queues, job), rows := catalog.rows);
    }

    method GiveUp(job: Job) returns (ghost landed: bool)
      requires Valid() && past.pc.Failing? && !Retries(past.pc.job, past.pc.terminal) && past.pc.job == job
      modifies `past, catalog`rows, catalog`asked
      ensures Valid() && State() == DoGiveUp(old(State()), landed)
      ensures catalog.asked == old(catalog.asked) + [Wrote(job.id, Failed, landed)]
      ensures landed && job.id in catalog.rows ==> catalog.rows[job.id].status == Failed
    {
      ghost var s := State();
      var recorded := catalog.SetStatus(job.id, Failed);
      landed := recorded;
      GiveUpReach(s, landed);
      past := DoGiveUp(s, landed);
      assert State() == past;
    }

    method Fail(job: Job, terminal: bool) returns (ghost landed: bool)
      requires Valid() && past.pc == Failing(job, terminal)
      modifies `past, catalog`rows, catalog`asked, scheduler`waiting, scheduler.queues
      ensures Valid() && past.pc.Top? && past.execs == old(past.execs)
      ensures var again := Retries(job, terminal);
              && scheduler.waiting == (if again then Pushed(old(scheduler.waiting), job.(attempts := job.attempts + 1))
                                       else old(scheduler.waiting))
              && catalog.asked == old(catalog.asked) + [Wrote(job.id, if again then Queued else Failed, landed)]
      // A failure for good leaves no copy and no queued row, nor does the third; any other is tried again.
      ensures terminal || job.attempts >= 2 ==>
                && scheduler.waiting == old(scheduler.waiting)
                && catalog.asked == old(catalog.asked) + [Wrote(job.id, Failed, landed)]
                && (landed && job.id in catalog.rows ==> catalog.rows[job.id].status == Failed)
      ensures !terminal && job.attempts < 2 ==>
                && scheduler.waiting == Pushed(old(scheduler.waiting), job.(attempts := job.attempts + 1))
                && catalog.asked == old(catalog.asked) + [Wrote(job.id, Queued, landed)]
                && (landed && job.id in catalog.rows ==> catalog.rows[job.id].status == Queued)
    {
      var again := job.(attempts := job.attempts + 1);
      if again.attempts < MAX_JOB_ATTEMPTS && !terminal {
        landed := Retry(again);
      } else {
        landed := GiveUp(job);
      }
    }

    ghost method NoteError(terminal: bool)
      requires Valid() && past.pc.Reporting? && past.pc.outcome == Error(terminal)
      modifies `past
      ensures Valid() && past == old(past).(pc := Failing(old(past.pc.job), terminal))
    {
      ClassifyReach(State(), None);
      past := past.(pc := Failing(past.pc.job, terminal));
      assert State() == DoClassify(old(State()), None);
    }

    method Report(job: Job, outcome: Outcome)
      requires Valid() && past.pc == Reporting(job, outcome)
      modifies `past, `known, `requeuedForCacheMiss, catalog, scheduler`waiting, scheduler.queues
      ensures Valid() && past.pc.Top? && past.execs == old(past.execs)
      ensures Recorded(old(catalog.asked), catalog.asked, job.id)
    {
      ghost var landed;
      match outcome
      case Done => landed := Succeed(job);
      case CacheMiss => ReportMiss(job);
      case Error(terminal) =>
        NoteError(terminal);
        landed := Fail(job, terminal);
    }

    method ReportMiss(job: Job)
      requires Valid() && past.pc == Reporting(job, CacheMiss)
      modifies `past, `requeuedForCacheMiss, catalog, scheduler`waiting, scheduler.queues
      ensures Valid() && past.pc.Top? && past.execs == old(past.execs)
      ensures Recorded(old(catalog.asked), catalog.asked, job.id)
    {
      ghost var landed;
      var terminal := ExtractionCacheMiss(job);
      ghost var searched := catalog.asked;
      Meanwhile();
      landed := Fail(job, terminal);
      RecordedAfter(old(catalog.asked), searched, job.id, if Retries(job, terminal) then Queued else Failed, landed);
    }

    method RunJob(job: Job)
      requires Valid() && past.pc == Popped(job)
      modifies `past, `known, `requeuedForCacheMiss, catalog, scheduler`waiting, scheduler.queues
      ensures Valid() && past.pc.Top?
      ensures past.execs == old(past.execs) || past.execs == old(past.execs) + multiset{job.id}
      // A job that is dropped writes nothing; one that ran has its end recorded, once and last.
      ensures past.execs == old(past.execs) ==> exists ok :: catalog.asked == old(catalog.asked) + [ReadOf(job.id, ok)]
      ensures past.execs != old(past.execs) ==> Recorded(old(catalog.asked) + [ReadOf(job.id, true)], catalog.asked, job.id)
    {
      Meanwhile();
      var still := JobIsStillQueued(job);
      if still {
        var outcome := Work(job);
        Report(job, outcome);
      }
    }

    // ---- Iterations -----------------------------------------------------------------------

    // Handing out a job ends the idle stretch.
    method Dispatch() returns (job: Option<Job>)
      requires Valid() && (past.pc.Top? || past.pc.Second?)
      modifies `past, `turns, `trimmedSinceIdle, scheduler`waiting, scheduler.queues
      ensures Valid() && turns == old(turns) + One(old(past.pc.Top?))
      ensures job.Some? ==> past.pc == Popped(job.value) && past.execs == old(past.execs)
      ensures job.None? ==> State() == old(State()).(pc := AfterNone(old(State())))
      ensures job.None? <==> TickQueue(old(scheduler.waiting), scheduler.mode) == None
      ensures trimmedSinceIdle <==> old(trimmedSinceIdle) && job.None?
    {
      ghost var s, from := State(), 0;
      turns := turns + One(past.pc.Top?);
      job, from := scheduler.Tick();
      if job.Some? {
        NoteJob(s, job.value, from);
      } else {
        NoteNone();
      }
    }

    method NoteJob(ghost s: Host, job: Job, ghost from: nat)
      requires scheduler.Valid() && catalog.Valid() && s.issued <= Generated(catalog.nextId) && Reachable(s)
      requires (s.pc.Top? || s.pc.Second?) && State() == s.(queues := scheduler.waiting)
      requires TickQueue(s.queues, s.mode) == Some(from) && job == s.queues[from][Best(s.queues[from])]
      requires scheduler.waiting == Popped1(s.queues, from)
      modifies `past, `trimmedSinceIdle
      ensures Valid() && past.pc == Popped(job) && past.execs == s.execs && !trimmedSinceIdle
    {
      PopReach(s, from, scheduler.waiting, job);
      trimmedSinceIdle := false;
      past := HandedOut(s, scheduler.waiting, job);
      assert State() == past;
    }

    ghost method NoteNone()
      requires Valid() && (past.pc.Top? || past.pc.Second?) && TickQueue(scheduler.waiting, scheduler.mode) == None
      modifies `past
      ensures Valid() && State() == old(State()).(pc := AfterNone(old(State())))
    {
      NoneReach(State());
      past := past.(pc := AfterNone(State()));
      assert State() == old(State()).(pc := AfterNone(old(State())));
    }

    method Observe(userActive: bool, onBattery: bool)
      requires Valid() && past.pc.Top?
      modifies scheduler`mode
      ensures Valid() && (scheduler.mode.Stopped? <==> old(scheduler.mode.Stopped?))
      ensures scheduler.mode == if old(scheduler.mode).Stopped? then Stopped else if userActive then UserActive
                                else if onBattery then LowImpact else Normal
    {
      ghost var s := State();
      scheduler.ApplyResourceObservation(userActive, onBattery);
      ObserveReach(s, scheduler.mode);
      assert State() == s.(mode := scheduler.mode);
    }

    // The next job, after a rehydration pass if none waits; idle if none waits after it either.
    method NextJob() returns (job: Option<Job>)
      requires Valid() && past.pc.Top?
      modifies `past, `turns, `known, `trimmedSinceIdle, catalog, scheduler`waiting, scheduler.queues
      ensures Valid() && turns == old(turns) + 1 && past.execs == old(past.execs)
      ensures past.pc == if job.Some? then Popped(job.value) else Top
      ensures TickQueue(old(scheduler.waiting), scheduler.mode) == None ==> BothListed(old(catalog.asked), catalog.asked)
      ensures TickQueue(old(scheduler.waiting), scheduler.mode) != None ==> job.Some? && catalog.asked == old(catalog.asked)
    {
      job := Dispatch();
      if job.None? {
        job := AfterPass();
      }
    }

    // Nothing waited: one pass, and once more.
    method AfterPass() returns (job: Option<Job>)
      requires Valid() && past.pc.Listing?
      modifies `past, `turns, `known, `trimmedSinceIdle, catalog, scheduler`waiting, scheduler.queues
      ensures Valid() && turns == old(turns) && past.execs == old(past.execs)
      ensures past.pc == if job.Some? then Popped(job.value) else Top
      ensures BothListed(old(catalog.asked), catalog.asked)
    {
      Rehydrate();
      ghost var listed := catalog.asked;
      job := Dispatch();
      if job.None? {
        TrimWhenIdle();
      }
      ListedMore(old(catalog.asked), listed, catalog.asked);
    }

    method Iterate(userActive: bool, onBattery: bool)
      requires Valid() && past.pc.Top?
      modifies this, catalog, scheduler, scheduler.queues
      ensures Valid() && past.pc.Top? && turns == old(turns) + 1
      ensures scheduler.mode == if old(scheduler.mode).Stopped? then Stopped else if userActive then UserActive
                                else if onBattery then LowImpact else Normal
      ensures past.execs == old(past.execs) || exists id :: past.execs == old(past.execs) + multiset{id}
    {
      Observe(userActive, onBattery);
      var job := NextJob();
      if job.Some? {
        RunJob(job.value);
      }
    }

    // Where a queued row that can be run is, between two iterations.
    ghost predicate Accounted(id: JobId)
      reads this, scheduler, catalog
    {
      id in catalog.rows && catalog.rows[id].status == Queued && catalog.rows[id].source.Some? ==>
        || id !in known
        || id in past.unrecorded
        || exists k, i :: 0 <= k < QUEUES && 0 <= i < |scheduler.waiting[k]| && scheduler.waiting[k][i].id == id
    }

    // What the session did with a job: its work succeeded at most once, unless it is an embedding whose
    // un-block write was lost, and its attempts are bounded in any case.
    ghost predicate WithinBounds(id: JobId)
      reads this
    {
      && ((id in past.embeddings && id in past.lostUnblock) || past.wins[id] <= 1)
      && past.execs[id] <= MAX_JOB_ATTEMPTS * (1 + past.misreads[id] + past.lostUnblock[id])
    }

    method Run(observed: seq<(bool, bool)>)
      requires Valid() && past.pc.Top?
      modifies this, catalog, scheduler, scheduler.queues
      ensures Valid() && past.pc.Top? && turns == old(turns) + |observed|
      ensures scheduler.mode.Stopped? <==> old(scheduler.mode.Stopped?)
      ensures forall id :: Accounted(id) && WithinBounds(id)
      ensures scheduler.mode.Stopped? ==> forall id :: past.execs[id] == 0
    {
      for i := 0 to |observed|
        invariant Valid() && past.pc.Top? && turns == old(turns) + i
        invariant scheduler.mode.Stopped? <==> old(scheduler.mode.Stopped?)
      {
        Iterate(observed[i].0, observed[i].1);
      }
      ghost var s := State();
      forall id ensures Accounted(id) && WithinBounds(id) && (scheduler.mode.Stopped? ==> past.execs[id] == 0) {
        SoFar(s, id);
      }
    }
  }
}
