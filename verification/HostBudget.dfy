/**
 How often a job can run at all, whatever fails and whatever other threads do: the attempts left in its
 copies, and a whole job for a row that may still be loaded, are paid for by what the catalog failed to
 answer or to record.
 */
module HostBudgets {
  import opened Common
  import opened Jobs
  import opened BoundedQueues
  import opened HostModel
  import opened HostSafety
  import opened HostTracking

  ghost function Tries(id: JobId): Job -> nat {
    (j: Job) => if j.id == id && j.attempts < MAX_JOB_ATTEMPTS then MAX_JOB_ATTEMPTS - j.attempts else 0
  }

  // The attempts left to the job in hand, the one that just ran not included.
  ghost function HandTries(s: Host, id: JobId): nat {
    if !InHand(s, id) then 0
    else
      var job := Active(s).value;
      Tries(id)(if s.pc.Reporting? || s.pc.Failing? then job.(attempts := job.attempts + 1) else job)
  }

  // The row may be loaded, or may be written queued while it is not tracked.
  ghost predicate Chance(s: Host, id: JobId) {
    Open(s, id) || (InHand(s, id) && !s.pc.Popped? && id !in s.known)
  }

  ghost function Ahead(s: Host, id: JobId): nat {
    Weigh(s.queues, Tries(id), QUEUES) + HandTries(s, id) + if Chance(s, id) then MAX_JOB_ATTEMPTS else 0
  }

  // Three attempts, and three more for each failed read and each lost un-block write of the id.
  ghost function Allowed(s: Host, id: JobId): nat {
    MAX_JOB_ATTEMPTS * (1 + s.misreads[id] + s.lostUnblock[id])
  }

  ghost predicate Budget(s: Host, id: JobId) {
    && s.execs[id] + Ahead(s, id) <= Allowed(s, id)
    && (s.pc.Loading? && Listed(s.pc.todo, id) > 0 ==> !RowIs(s, id, Blocked))
  }

  // A step that runs nothing, fails to read or record nothing, and opens no chance.
  lemma NoMoreAhead(s: Host, s': Host, id: JobId)
    requires Budget(s, id) && s'.execs[id] == s.execs[id] && Allowed(s', id) >= Allowed(s, id)
    requires Weigh(s'.queues, Tries(id), QUEUES) + HandTries(s', id) <= Weigh(s.queues, Tries(id), QUEUES) + HandTries(s, id)
    requires Chance(s', id) ==> Chance(s, id)
    requires s'.pc.Loading? && Listed(s'.pc.todo, id) > 0 ==> !RowIs(s', id, Blocked)
    ensures Budget(s', id)
  {
  }

  lemma TickBudget(s: Host, id: JobId)
    requires Budget(s, id) && (s.pc.Top? || s.pc.Second?)
    ensures Budget(DoTick(s), id)
  {
    var q := TickQueue(s.queues, s.mode);
    if q.Some? { WeighPopped(s.queues, q.value, Tries(id)); }
  }

  lemma ListBudget(s: Host, todo: seq<Record>, id: JobId)
    requires Budget(s, id)
    ensures s.pc.Listing? && Enumerates(todo, s.rows, Queued) ==> Budget(s.(pc := Loading(todo)), id)
    ensures s.pc == Loading([]) && Enumerates(todo, s.rows, Blocked) ==> Budget(s.(pc := Unblocking(todo)), id)
    ensures s.pc.Listing? || s.pc == Loading([]) ==> Budget(s.(pc := Second), id)
  {
    if s.pc.Listing? && Enumerates(todo, s.rows, Queued) { EnumeratesListed(todo, s.rows, Queued, id); }
    if s.pc == Loading([]) && Enumerates(todo, s.rows, Blocked) { EnumeratesListed(todo, s.rows, Blocked, id); }
  }

  lemma LoadWeighs(s: Host, ok: bool, id: JobId)
    requires s.pc.Loading? && s.pc.todo != []
    ensures var s', r := DoLoad(s, ok), s.pc.todo[0];
            && s'.execs == s.execs && s'.misreads == s.misreads && Active(s').None?
            && Weigh(s'.queues, Tries(id), QUEUES)
               == Weigh(s.queues, Tries(id), QUEUES) + if s'.queues != s.queues && r.id == id then MAX_JOB_ATTEMPTS else 0
  {
    var job := JobFromRecord(s.pc.todo[0]);
    if job.Some? { WeighPushed(s.queues, job.value, Tries(id)); }
  }

  // A loaded copy takes over the chance of its row.
  lemma LoadCloses(s: Host, ok: bool)
    requires s.pc.Loading? && s.pc.todo != [] && Listed(s.pc.todo, s.pc.todo[0].id) <= 1
    requires !RowIs(s, s.pc.todo[0].id, Blocked) && DoLoad(s, ok).queues != s.queues
    ensures Open(s, s.pc.todo[0].id) && !Chance(DoLoad(s, ok), s.pc.todo[0].id)
  {
    var id := s.pc.todo[0].id;
    assert Listed(s.pc.todo, id) == 1 + Listed(s.pc.todo[1..], id);
  }

  // What is listed further on is not blocked by this step.
  lemma LoadBlocksListed(s: Host, ok: bool, id: JobId)
    requires Budget(s, id) && s.pc.Loading? && s.pc.todo != [] && Listed(s.pc.todo, id) <= 1
    ensures DoLoad(s, ok).pc == Loading(s.pc.todo[1..]) && DoLoad(s, ok).lostUnblock == s.lostUnblock
    ensures Listed(s.pc.todo[1..], id) > 0 ==> !RowIs(DoLoad(s, ok), id, Blocked)
  {
    assert Listed(s.pc.todo, id) == One(s.pc.todo[0].id == id) + Listed(s.pc.todo[1..], id);
  }

  lemma LoadBudget(s: Host, ok: bool, id: JobId)
    requires Budget(s, id) && s.pc.Loading? && s.pc.todo != [] && Listed(s.pc.todo, id) <= 1
    ensures Budget(DoLoad(s, ok), id)
  {
    var s' := DoLoad(s, ok);
    LoadWeighs(s, ok, id);
    LoadBlocksListed(s, ok, id);
    LoadOpens(s, ok, id);
    assert Listed(s.pc.todo, s.pc.todo[0].id) == 1 + Listed(s.pc.todo[1..], s.pc.todo[0].id);
    if s'.queues != s.queues && s.pc.todo[0].id == id { LoadCloses(s, ok); } else { NoMoreAhead(s, s', id); }
  }

  lemma UnblockWeighs(s: Host, ok: bool, id: JobId)
    requires s.pc.Unblocking? && s.pc.todo != []
    ensures var s', r := DoUnblock(s, ok), s.pc.todo[0];
            && s'.execs == s.execs && s'.misreads == s.misreads && Active(s').None?
            && Weigh(s'.queues, Tries(id), QUEUES)
               == Weigh(s.queues, Tries(id), QUEUES) + if s'.queues != s.queues && r.id == id then MAX_JOB_ATTEMPTS else 0
  {
    var job := JobFromRecord(s.pc.todo[0]);
    if job.Some? { WeighPushed(s.queues, job.value, Tries(id)); }
  }

  // So does one of a blocked row, unless the write is lost and the row keeps its chance.
  lemma UnblockCloses(s: Host, ok: bool)
    requires s.pc.Unblocking? && s.pc.todo != [] && Listed(s.pc.todo, s.pc.todo[0].id) <= 1
    requires DoUnblock(s, ok).queues != s.queues
    ensures var s', id := DoUnblock(s, ok), s.pc.todo[0].id;
            Open(s, id) && (Chance(s', id) ==> s'.lostUnblock[id] == s.lostUnblock[id] + 1)
  {
    var id := s.pc.todo[0].id;
    assert Listed(s.pc.todo, id) == 1 + Listed(s.pc.todo[1..], id);
  }

  lemma UnblockAllows(s: Host, ok: bool, id: JobId)
    requires s.pc.Unblocking? && s.pc.todo != []
    ensures DoUnblock(s, ok).pc == Unblocking(s.pc.todo[1..]) && DoUnblock(s, ok).lostUnblock[id] >= s.lostUnblock[id]
  {
  }

  lemma UnblockBudget(s: Host, ok: bool, id: JobId)
    requires Budget(s, id) && s.pc.Unblocking? && s.pc.todo != [] && Listed(s.pc.todo, id) <= 1
    ensures Budget(DoUnblock(s, ok), id)
  {
    var s' := DoUnblock(s, ok);
    UnblockWeighs(s, ok, id);
    UnblockAllows(s, ok, id);
    UnblockOpens(s, ok, id);
    if s'.queues != s.queues && s.pc.todo[0].id == id { UnblockCloses(s, ok); } else { NoMoreAhead(s, s', id); }
  }

  lemma OthersBudget(s: Host, rows: map<JobId, Row>, id: JobId)
    requires Budget(s, id) && IdInv(s, id) && Interference(s.rows, s.issued, rows)
    ensures Budget(Changed(s, rows), id)
  {
    if id !in s.issued { FreshAhead(s, id); }
  }

  // Nothing is ahead of an id that nothing has used.
  lemma FreshAhead(s: Host, id: JobId)
    requires IdInv(s, id) && id !in s.issued
    ensures Weigh(s.queues, Tries(id), QUEUES) == 0 && HandTries(s, id) == 0 && s.execs[id] == 0 && !InHand(s, id)
  {
    NoneWeigh(s.queues, id, QUEUES);
  }

  lemma {:induction false} NoneWeigh(qs: Queues, id: JobId, n: nat)
    requires n <= QUEUES && Mem(qs, id, n) == 0
    ensures Weigh(qs, Tries(id), n) == 0
  {
    if n > 0 {
      NoneWeigh(qs, id, n - 1);
      NoneSum(qs[n - 1], id);
    }
  }

  lemma {:induction false} NoneSum(jobs: seq<Job>, id: JobId)
    requires Count(jobs, id) == 0
    ensures Sum(jobs, Tries(id)) == 0
  {
    if jobs != [] { NoneSum(jobs[..|jobs| - 1], id); }
  }

  lemma CheckBudget(s: Host, ok: bool, id: JobId)
    requires Budget(s, id) && s.pc.Popped?
    ensures Budget(DoCheck(s, ok), id)
  {
  }

  lemma WorkBudget(s: Host, rows: map<JobId, Row>, outcome: Outcome, id: JobId)
    requires Budget(s, id) && IdInv(s, id) && Shape(s) && s.pc.Working? && Interference(s.rows, s.issued, rows)
    ensures Budget(DoWork(s, rows, outcome), id)
  {
    OthersBudget(s, rows, id);
  }

  lemma CompleteBudget(s: Host, ok: bool, id: JobId)
    requires Budget(s, id) && s.pc.Reporting?
    ensures Budget(DoComplete(s, ok), id)
  {
  }

  lemma ClassifyBudget(s: Host, repair: Option<Record>, id: JobId)
    requires Budget(s, id) && IdInv(s, id) && Shape(s) && s.pc.Reporting? && !s.pc.outcome.Done?
    requires repair.Some? ==> RepairAllowed(s, repair.value)
    ensures Budget(DoClassify(s, repair), id)
  {
    RepairInterferes(s, repair);
    OthersBudget(s, DoClassify(s, repair).rows, id);
    ClassifyChanges(s, repair);
  }

  lemma RetryBudget(s: Host, ok: bool, id: JobId)
    requires Budget(s, id) && s.pc.Failing? && HasRoom(s.queues, s.pc.job.kind)
    ensures Budget(DoRetry(s, ok), id)
  {
    WeighPushed(s.queues, s.pc.job.(attempts := s.pc.job.attempts + 1), Tries(id));
  }

  lemma GiveUpBudget(s: Host, ok: bool, id: JobId)
    requires Budget(s, id) && s.pc.Failing?
    ensures Budget(DoGiveUp(s, ok), id)
  {
  }

  lemma KeepsBudget(s: Host, a: Action, id: JobId)
    requires Budget(s, id) && IdInv(s, id) && Shape(s) && Distinct(Todo(s)) && Enabled(s, a)
    ensures Budget(Apply(s, a), id)
  {
    ListedMember(Todo(s), id);
    match a
    case Others(rows) => OthersBudget(s, rows, id);
    case Tick => TickBudget(s, id);
    case List(ok, todo) => ListBudget(s, todo, id);
    case Load(ok) => LoadBudget(s, ok, id);
    case Relist(ok, todo) => ListBudget(s, todo, id);
    case Unblock(ok) => if s.pc.todo != [] { UnblockBudget(s, ok, id); }
    case Check(ok) => CheckBudget(s, ok, id);
    case Work(rows, outcome) => WorkBudget(s, rows, outcome, id);
    case Complete(ok) => CompleteBudget(s, ok, id);
    case Classify(repair) => ClassifyBudget(s, repair, id);
    case Settle(ok) =>
      if Retries(s.pc.job, s.pc.terminal) { RetryBudget(s, ok, id); } else { GiveUpBudget(s, ok, id); }
    case Observe(_) =>
    case CountRows(_) =>
    case Trim =>
  }
}
