/**
 What every step of the indexing host loop keeps, whatever other threads do and whatever catalog
 access fails. The invariants are stated for one job id at a time.
 */
module HostSafety {
  import opened Common
  import opened Jobs
  import opened BoundedQueues
  import opened HostModel

  function Active(s: Host): Option<Job> {
    match s.pc
    case Popped(job) => Some(job)
    case Working(job) => Some(job)
    case Reporting(job, _) => Some(job)
    case Failing(job, _) => Some(job)
    case _ => None
  }

  predicate InHand(s: Host, id: JobId) {
    Active(s).Some? && Active(s).value.id == id
  }

  function One(b: bool): nat {
    if b then 1 else 0
  }

  // ---- Queue bounds, attempts, and the slot a popped job left -----------------------------

  ghost predicate QueueOk(k: nat, items: seq<Job>)
    requires k < QUEUES
  {
    |items| <= Capacity(k) && forall i :: 0 <= i < |items| ==> QueueOf(items[i].kind) == k && items[i].attempts < MAX_JOB_ATTEMPTS
  }

  ghost predicate QueuesOk(qs: Queues) {
    forall k :: 0 <= k < QUEUES ==> QueueOk(k, qs[k])
  }

  /** Nothing is loaded between a pop and its failure, so a retry always finds its slot free. */
  ghost predicate Shape(s: Host) {
    && s.rows.Keys <= s.issued
    && QueuesOk(s.queues)
    && (Active(s).Some? ==> HasRoom(s.queues, Active(s).value.kind) && Active(s).value.attempts < MAX_JOB_ATTEMPTS)
  }

  lemma PushShape(qs: Queues, job: Job)
    requires QueuesOk(qs)
    requires HasRoom(qs, job.kind) && job.attempts < MAX_JOB_ATTEMPTS
    ensures QueuesOk(Pushed(qs, job))
  {
  }

  lemma PopShape(qs: Queues, k: nat)
    requires QueuesOk(qs) && k < QUEUES && qs[k] != []
    ensures QueuesOk(Popped1(qs, k))
    ensures var job := qs[k][Best(qs[k])];
            job.attempts < MAX_JOB_ATTEMPTS && HasRoom(Popped1(qs, k), job.kind)
  {
    assert QueueOk(k, qs[k]);
  }

  lemma TickShape(s: Host)
    requires Shape(s) && (s.pc.Top? || s.pc.Second?)
    ensures Shape(DoTick(s))
  {
    var q := TickQueue(s.queues, s.mode);
    if q.Some? { PopShape(s.queues, q.value); }
  }

  lemma LoadShape(s: Host, ok: bool)
    requires Shape(s) && s.pc.Loading? && s.pc.todo != []
    ensures Shape(DoLoad(s, ok))
  {
    var job := JobFromRecord(s.pc.todo[0]);
    if job.Some? && HasRoom(s.queues, job.value.kind) { PushShape(s.queues, job.value); }
  }

  lemma UnblockShape(s: Host, ok: bool)
    requires Shape(s) && s.pc.Unblocking? && s.pc.todo != []
    ensures Shape(DoUnblock(s, ok))
  {
    var job := JobFromRecord(s.pc.todo[0]);
    if job.Some? && HasRoom(s.queues, job.value.kind) { PushShape(s.queues, job.value); }
  }

  lemma SettleShape(s: Host, ok: bool)
    requires Shape(s) && s.pc.Failing?
    ensures Shape(DoSettle(s, ok))
  {
    if Retries(s.pc.job, s.pc.terminal) {
      PushShape(s.queues, s.pc.job.(attempts := s.pc.job.attempts + 1));
    }
  }

  lemma ReportShape(s: Host, ok: bool, repair: Option<Record>)
    requires Shape(s) && s.pc.Reporting?
    ensures Shape(DoComplete(s, ok))
    ensures !s.pc.outcome.Done? ==> Shape(DoClassify(s, repair))
  {
  }

  lemma KeepsShape(s: Host, a: Action)
    requires Shape(s) && Enabled(s, a)
    ensures Shape(Apply(s, a))
  {
    match a
    case Tick => TickShape(s);
    case Load(ok) => LoadShape(s, ok);
    case Unblock(ok) => if s.pc.todo != [] { UnblockShape(s, ok); }
    case Complete(ok) => ReportShape(s, ok, None);
    case Classify(repair) => ReportShape(s, true, repair);
    case Settle(ok) => SettleShape(s, ok);
    case _ =>
  }

  // ---- The counted copies are the real ones -----------------------------------------------

  ghost function Mem(qs: Queues, id: JobId, n: nat): nat
    requires n <= QUEUES
  {
    if n == 0 then 0 else Mem(qs, id, n - 1) + Count(qs[n - 1], id)
  }

  ghost predicate Counted(s: Host, id: JobId) {
    s.copies[id] == Mem(s.queues, id, QUEUES) + One(InHand(s, id))
  }

  lemma {:induction false} MemPut(qs: Queues, k: nat, items: seq<Job>, id: JobId, n: nat)
    requires k < QUEUES && n <= QUEUES
    ensures Mem(qs[k := items], id, n) ==
            Mem(qs, id, n) + if k < n then Count(items, id) - Count(qs[k], id) else 0
  {
    if n > 0 { MemPut(qs, k, items, id, n - 1); }
  }

  lemma MemPushed(qs: Queues, job: Job, id: JobId)
    ensures Mem(Pushed(qs, job), id, QUEUES) == Mem(qs, id, QUEUES) + One(job.id == id)
  {
    var k := QueueOf(job.kind);
    CountAppend(qs[k], job, id);
    MemPut(qs, k, qs[k] + [job], id, QUEUES);
  }

  lemma MemPopped(qs: Queues, k: nat, id: JobId)
    requires k < QUEUES && qs[k] != []
    ensures Mem(qs, id, QUEUES) == Mem(Popped1(qs, k), id, QUEUES) + One(qs[k][Best(qs[k])].id == id)
  {
    var b := Best(qs[k]);
    CountWithout(qs[k], b, id);
    MemPut(qs, k, Without(qs[k], b), id, QUEUES);
  }

  lemma TickCounted(s: Host, id: JobId)
    requires Counted(s, id) && (s.pc.Top? || s.pc.Second?)
    ensures Counted(DoTick(s), id)
  {
    var q := TickQueue(s.queues, s.mode);
    if q.Some? { MemPopped(s.queues, q.value, id); }
  }

  lemma LoadCounted(s: Host, ok: bool, id: JobId)
    requires Counted(s, id) && s.pc.Loading? && s.pc.todo != []
    ensures Counted(DoLoad(s, ok), id)
  {
    var job := JobFromRecord(s.pc.todo[0]);
    if job.Some? { MemPushed(s.queues, job.value, id); }
  }

  lemma UnblockCounted(s: Host, ok: bool, id: JobId)
    requires Counted(s, id) && s.pc.Unblocking? && s.pc.todo != []
    ensures Counted(DoUnblock(s, ok), id)
  {
    var job := JobFromRecord(s.pc.todo[0]);
    if job.Some? { MemPushed(s.queues, job.value, id); }
  }

  // One copy fewer of the job in hand, none fewer of any other.
  lemma DropInHand(s: Host, id: JobId)
    requires Counted(s, id) && Active(s).Some?
    ensures var left := s.copies - multiset{Active(s).value.id};
            left[id] == Mem(s.queues, id, QUEUES)
  {
  }

  lemma SettleCounted(s: Host, ok: bool, id: JobId)
    requires Counted(s, id) && s.pc.Failing?
    ensures Counted(DoSettle(s, ok), id)
  {
    DropInHand(s, id);
    MemPushed(s.queues, s.pc.job.(attempts := s.pc.job.attempts + 1), id);
    SettleCopies(s, ok);
  }

  // Either the retry is pushed and its copy kept, or the copy is gone and nothing is pushed.
  lemma SettleCopies(s: Host, ok: bool)
    requires s.pc.Failing?
    ensures var s', job := DoSettle(s, ok), s.pc.job;
            && s'.pc.Top?
            && ((s'.copies == s.copies && s'.queues == Pushed(s.queues, job.(attempts := job.attempts + 1)))
                || (s'.copies == s.copies - multiset{job.id} && s'.queues == s.queues))
  {
  }

  lemma CheckCounted(s: Host, ok: bool, id: JobId)
    requires Counted(s, id) && s.pc.Popped?
    ensures Counted(DoCheck(s, ok), id)
  {
    DropInHand(s, id);
  }

  lemma CompleteCounted(s: Host, ok: bool, id: JobId)
    requires Counted(s, id) && s.pc.Reporting?
    ensures Counted(DoComplete(s, ok), id)
  {
    DropInHand(s, id);
    assert DoComplete(s, ok).copies == s.copies - multiset{s.pc.job.id};
  }

  lemma ClassifyCounted(s: Host, repair: Option<Record>, id: JobId)
    requires Counted(s, id) && s.pc.Reporting? && !s.pc.outcome.Done?
    ensures Counted(DoClassify(s, repair), id)
  {
  }

  lemma WorkCounted(s: Host, rows: map<JobId, Row>, outcome: Outcome, id: JobId)
    requires Counted(s, id) && s.pc.Working?
    ensures Counted(DoWork(s, rows, outcome), id)
  {
  }

  lemma CountRowsCounted(s: Host, ok: bool, id: JobId)
    requires Counted(s, id) && s.pc.Counting? && s.pc.i < |UNFINISHED|
    ensures Counted(DoCount(s, ok), id)
  {
  }

  lemma KeepsCounted(s: Host, a: Action, id: JobId)
    requires Counted(s, id) && Enabled(s, a)
    ensures Counted(Apply(s, a), id)
  {
    match a
    case Tick => TickCounted(s, id);
    case Load(ok) => LoadCounted(s, ok, id);
    case Unblock(ok) => if s.pc.todo != [] { UnblockCounted(s, ok, id); }
    case Settle(ok) => SettleCounted(s, ok, id);
    case Check(ok) => CheckCounted(s, ok, id);
    case Complete(ok) => CompleteCounted(s, ok, id);
    case Classify(repair) => ClassifyCounted(s, repair, id);
    case Work(rows, outcome) => WorkCounted(s, rows, outcome, id);
    case CountRows(ok) => CountRowsCounted(s, ok, id);
    case Others(_) =>
    case Observe(_) =>
    case List(_, _) =>
    case Relist(_, _) =>
    case Trim =>
  }

  // ---- What all waiting jobs weigh --------------------------------------------------------

  ghost function Weigh(qs: Queues, weight: Job -> nat, n: nat): nat
    requires n <= QUEUES
  {
    if n == 0 then 0 else Weigh(qs, weight, n - 1) + Sum(qs[n - 1], weight)
  }

  lemma {:induction false} WeighPut(qs: Queues, k: nat, items: seq<Job>, weight: Job -> nat, n: nat)
    requires k < QUEUES && n <= QUEUES
    ensures Weigh(qs[k := items], weight, n) ==
            Weigh(qs, weight, n) + if k < n then Sum(items, weight) - Sum(qs[k], weight) else 0
  {
    if n > 0 { WeighPut(qs, k, items, weight, n - 1); }
  }

  lemma WeighPushed(qs: Queues, job: Job, weight: Job -> nat)
    ensures Weigh(Pushed(qs, job), weight, QUEUES) == Weigh(qs, weight, QUEUES) + weight(job)
  {
    var k := QueueOf(job.kind);
    SumAppend(qs[k], job, weight);
    WeighPut(qs, k, qs[k] + [job], weight, QUEUES);
  }

  lemma WeighPopped(qs: Queues, k: nat, weight: Job -> nat)
    requires k < QUEUES && qs[k] != []
    ensures Weigh(qs, weight, QUEUES) == Weigh(Popped1(qs, k), weight, QUEUES) + weight(qs[k][Best(qs[k])])
  {
    var b := Best(qs[k]);
    SumWithout(qs[k], b, weight);
    WeighPut(qs, k, Without(qs[k], b), weight, QUEUES);
  }
}
