/**
 The three views of one job id (catalog row, in-memory copies, `known`) and its history, through
 every step of the loop and of other threads.
 */
module HostTracking {
  import opened Common
  import opened Jobs
  import opened BoundedQueues
  import opened HostModel
  import opened HostSafety

  function Todo(s: Host): seq<Record> {
    match s.pc
    case Loading(todo) => todo
    case Unblocking(todo) => todo
    case _ => []
  }

  ghost function Listed(todo: seq<Record>, id: JobId): nat {
    if todo == [] then 0 else One(todo[0].id == id) + Listed(todo[1..], id)
  }

  ghost predicate RowIs(s: Host, id: JobId, st: Status) {
    id in s.rows && s.rows[id].status == st
  }

  // An id nothing has used yet has left no trace.
  ghost predicate Fresh(s: Host, id: JobId) {
    && (id in s.rows ==> id in s.issued)
    && (id in s.embeddings ==> id in s.issued && (id in s.rows ==> s.rows[id].kind.Embedding?))
    && (id !in s.issued ==>
          && id !in s.known && s.copies[id] == 0 && Listed(Todo(s), id) == 0
          && s.wins[id] == 0 && s.execs[id] == 0 && id !in s.unrecorded)
  }

  ghost predicate NotAsEmbedding(todo: seq<Record>, id: JobId) {
    forall i :: 0 <= i < |todo| && todo[i].id == id ==> !todo[i].row.kind.Embedding?
  }

  // An id that never belonged to an embedding job is nowhere used as one.
  ghost predicate OfKind(s: Host, id: JobId) {
    id !in s.embeddings ==>
      && (id in s.rows ==> !s.rows[id].kind.Embedding?)
      && Count(s.queues[EMBEDDING], id) == 0
      && (InHand(s, id) ==> !Active(s).value.kind.Embedding?)
      && NotAsEmbedding(Todo(s), id)
  }

  // While paused nothing is handed out.
  ghost predicate Quiescent(s: Host, id: JobId) {
    s.mode.Stopped? ==> Active(s).None? && s.execs[id] == 0 && s.wins[id] == 0
  }

  /** A queued row has a copy in memory, or may still be loaded, or is settled work whose record
      could not be written. */
  ghost predicate Tracked(s: Host, id: JobId) {
    RowIs(s, id, Queued) ==> s.copies[id] > 0 || id !in s.known || id in s.unrecorded
  }

  /** Only such an id can have a second copy: its un-block write was lost, and copies of its kind can
      wait through a whole rehydration pass. */
  ghost predicate Doubtful(s: Host, id: JobId) {
    id in s.lostUnblock && (id in s.embeddings || s.mode.Stopped?)
  }

  /** At most one copy, always known; of a blocked row only between its reload and its check. */
  ghost predicate Single(s: Host, id: JobId) {
    && s.copies[id] <= 1
    && (s.copies[id] > 0 ==> id in s.known)
    && (s.copies[id] > 0 && RowIs(s, id, Blocked) ==>
          id in s.lostUnblock && !s.pc.Listing? && !s.pc.Loading? && (InHand(s, id) ==> s.pc.Popped?))
    && Listed(Todo(s), id) <= 1
    && (Listed(Todo(s), id) > 0 && s.pc.Loading? ==> !RowIs(s, id, Blocked))
    && (Listed(Todo(s), id) > 0 && s.pc.Unblocking? ==> s.copies[id] == 0)
  }

  // A rehydration pass, this one or a later one, could still look at the id.
  ghost predicate Open(s: Host, id: JobId) {
    || RowIs(s, id, Blocked)
    || (RowIs(s, id, Queued) && id !in s.known)
    || (Listed(Todo(s), id) > 0 && (s.pc.Unblocking? || id !in s.known))
  }

  /** Settled work is neither in memory (except while being reported) nor looked at again. */
  ghost predicate Final(s: Host, id: JobId) {
    && s.wins[id] <= 1
    && (s.wins[id] > 0 ==>
          !Open(s, id) && (s.copies[id] == 0 || (s.pc.Reporting? && s.pc.outcome.Done? && InHand(s, id))))
    && (id in s.unrecorded ==> !Open(s, id) && s.copies[id] == 0)
  }

  ghost predicate IdInv(s: Host, id: JobId) {
    && Counted(s, id) && Fresh(s, id) && OfKind(s, id) && Quiescent(s, id) && Tracked(s, id)
    && (!Doubtful(s, id) ==> Single(s, id) && Final(s, id))
  }

  lemma {:induction false} ListedMember(todo: seq<Record>, id: JobId)
    ensures Listed(todo, id) > 0 <==> exists i :: 0 <= i < |todo| && todo[i].id == id
    ensures Distinct(todo) ==> Listed(todo, id) <= 1
  {
    if todo != [] {
      var rest := todo[1..];
      ListedMember(rest, id);
      if Listed(rest, id) > 0 {
        var i :| 0 <= i < |rest| && rest[i].id == id;
        assert todo[i + 1].id == id;
      }
      if i :| 0 < i < |todo| && todo[i].id == id { assert rest[i - 1].id == id; }
    }
  }

  lemma EnumeratesListed(todo: seq<Record>, rows: map<JobId, Row>, st: Status, id: JobId)
    requires Enumerates(todo, rows, st)
    ensures Listed(todo, id) <= 1
    ensures Listed(todo, id) > 0 <==> id in rows && rows[id].status == st
  {
    ListedMember(todo, id);
  }

  lemma OthersKeeps(s: Host, rows: map<JobId, Row>, id: JobId)
    requires IdInv(s, id) && Interference(s.rows, s.issued, rows)
    ensures IdInv(Changed(s, rows), id)
  {
    assert id in rows && id in s.rows ==> rows[id].kind == s.rows[id].kind;
    assert id in rows && rows[id].kind.Embedding? ==> id in EmbeddingIds(rows);
  }

  // Nothing the invariant reads changes when the loop moves on with the same job, or none.
  lemma SameJobKeeps(s: Host, s': Host, id: JobId)
    requires IdInv(s, id)
    requires s' == s.(pc := s'.pc, guard := s'.guard, repairs := s'.repairs, mode := s'.mode,
                      trimmed := s'.trimmed, trims := s'.trims)
    requires Active(s') == Active(s) && Todo(s) == Todo(s') == [] && (s.mode.Stopped? <==> s'.mode.Stopped?)
    requires s.pc.Reporting? && s.pc.outcome.Done? ==> s'.pc == s.pc
    requires !s'.pc.Listing? && (s'.pc.Popped? <==> s.pc.Popped?)
    requires s.pc.Loading? <==> s'.pc.Loading?
    ensures IdInv(s', id)
  {
  }

  // ---- Ticks ------------------------------------------------------------------------------

  // With every queue that is served empty, an id that is in none of the others has no copy.
  lemma {:induction false} ServedIsEmpty(qs: Queues, mode: Mode, id: JobId, n: nat)
    requires TickQueue(qs, mode) == None && !mode.Stopped? && Count(qs[EMBEDDING], id) == 0 && n <= QUEUES
    ensures Mem(qs, id, n) == 0
  {
    if n > 0 { ServedIsEmpty(qs, mode, id, n - 1); }
  }

  lemma PoppedKind(s: Host, k: nat, id: JobId)
    requires QueuesOk(s.queues) && k < QUEUES && s.queues[k] != [] && Count(s.queues[EMBEDDING], id) == 0
    ensures Count(Popped1(s.queues, k)[EMBEDDING], id) == 0
    ensures var job := s.queues[k][Best(s.queues[k])]; job.id == id ==> !job.kind.Embedding?
  {
    var b := Best(s.queues[k]);
    assert QueueOk(k, s.queues[k]);
    CountWithout(s.queues[k], b, id);
    CountMember(s.queues[k], b);
  }

  lemma PopKeeps(s: Host, k: nat, id: JobId)
    requires IdInv(s, id) && QueuesOk(s.queues) && (s.pc.Top? || s.pc.Second?) && TickQueue(s.queues, s.mode) == Some(k)
    ensures IdInv(DoTick(s), id)
  {
    TickCounted(s, id);
    if id !in s.embeddings { PoppedKind(s, k, id); }
  }

  lemma NoneKeeps(s: Host, id: JobId)
    requires IdInv(s, id) && (s.pc.Top? || s.pc.Second?) && TickQueue(s.queues, s.mode) == None
    ensures IdInv(DoTick(s), id)
  {
    var s' := DoTick(s);
    assert s' == s.(pc := s'.pc) && Active(s').None? && Todo(s') == [];
    if s.pc.Top? && id in s.lostUnblock && !Doubtful(s, id) { ServedIsEmpty(s.queues, s.mode, id, QUEUES); }
  }

  lemma TickKeeps(s: Host, id: JobId)
    requires IdInv(s, id) && QueuesOk(s.queues) && (s.pc.Top? || s.pc.Second?)
    ensures IdInv(DoTick(s), id)
  {
    match TickQueue(s.queues, s.mode)
    case Some(k) => PopKeeps(s, k, id);
    case None => NoneKeeps(s, id);
  }

  // ---- A rehydration pass -----------------------------------------------------------------

  lemma ListKeeps(s: Host, ok: bool, todo: seq<Record>, id: JobId)
    requires IdInv(s, id) && s.pc.Listing? && (ok ==> Enumerates(todo, s.rows, Queued))
    ensures IdInv(s.(pc := if ok then Loading(todo) else Second), id)
  {
    if ok { EnumeratesListed(todo, s.rows, Queued, id); }
  }

  lemma RelistKeeps(s: Host, ok: bool, todo: seq<Record>, id: JobId)
    requires IdInv(s, id) && s.pc.Loading? && s.pc.todo == [] && (ok ==> Enumerates(todo, s.rows, Blocked))
    ensures IdInv(s.(pc := if ok then Unblocking(todo) else Second), id)
  {
    if ok { EnumeratesListed(todo, s.rows, Blocked, id); }
  }

  // Pushing a job of another kind adds nothing to the embedding queue.
  lemma PushedKind(qs: Queues, job: Job, id: JobId)
    ensures job.id != id || !job.kind.Embedding? ==> Count(Pushed(qs, job)[EMBEDDING], id) == Count(qs[EMBEDDING], id)
  {
    CountAppend(qs[EMBEDDING], job, id);
  }

  lemma RestOfKind(todo: seq<Record>, id: JobId)
    requires todo != []
    ensures NotAsEmbedding(todo, id) ==> NotAsEmbedding(todo[1..], id)
  {
    assert forall i :: 0 <= i < |todo| - 1 ==> todo[1..][i] == todo[i + 1];
  }

  lemma LoadOfKind(s: Host, ok: bool, id: JobId)
    requires OfKind(s, id) && s.pc.Loading? && s.pc.todo != []
    ensures OfKind(DoLoad(s, ok), id)
  {
    var job := JobFromRecord(s.pc.todo[0]);
    if job.Some? { PushedKind(s.queues, job.value, id); }
    RestOfKind(s.pc.todo, id);
  }

  lemma UnblockOfKind(s: Host, ok: bool, id: JobId)
    requires OfKind(s, id) && s.pc.Unblocking? && s.pc.todo != []
    ensures OfKind(DoUnblock(s, ok), id)
  {
    var job := JobFromRecord(s.pc.todo[0]);
    if job.Some? { PushedKind(s.queues, job.value, id); }
    RestOfKind(s.pc.todo, id);
  }

  lemma LoadOther(s: Host, ok: bool, id: JobId)
    requires s.pc.Loading? && s.pc.todo != [] && s.pc.todo[0].id != id
    ensures var s' := DoLoad(s, ok);
            && s'.copies[id] == s.copies[id] && (id in s'.known <==> id in s.known)
            && (id in s'.rows <==> id in s.rows) && (id in s.rows ==> s'.rows[id] == s.rows[id])
  {
  }

  lemma LoadOtherKeeps(s: Host, ok: bool, id: JobId)
    requires IdInv(s, id) && s.pc.Loading? && s.pc.todo != [] && s.pc.todo[0].id != id
    requires Counted(DoLoad(s, ok), id) && OfKind(DoLoad(s, ok), id)
    ensures IdInv(DoLoad(s, ok), id)
  {
    LoadOther(s, ok, id);
    assert Listed(s.pc.todo, id) == Listed(s.pc.todo[1..], id);
  }

  lemma LoadKeeps(s: Host, ok: bool, id: JobId)
    requires IdInv(s, id) && s.pc.Loading? && s.pc.todo != []
    ensures IdInv(DoLoad(s, ok), id)
  {
    LoadCounted(s, ok, id);
    LoadOfKind(s, ok, id);
    if s.pc.todo[0].id != id { LoadOtherKeeps(s, ok, id); } else { LoadOwn(s, ok); }
  }

  lemma LoadSingle(s: Host, ok: bool)
    requires s.pc.Loading? && s.pc.todo != [] && IdInv(s, s.pc.todo[0].id) && !Doubtful(s, s.pc.todo[0].id)
    ensures Single(DoLoad(s, ok), s.pc.todo[0].id)
  {
    var r := s.pc.todo[0];
    assert Listed(s.pc.todo, r.id) == 1 + Listed(s.pc.todo[1..], r.id);
  }

  lemma LoadFinal(s: Host, ok: bool)
    requires s.pc.Loading? && s.pc.todo != [] && IdInv(s, s.pc.todo[0].id) && !Doubtful(s, s.pc.todo[0].id)
    ensures Final(DoLoad(s, ok), s.pc.todo[0].id)
  {
    var r := s.pc.todo[0];
    assert Listed(s.pc.todo, r.id) == 1 + Listed(s.pc.todo[1..], r.id);
  }

  lemma LoadOwn(s: Host, ok: bool)
    requires s.pc.Loading? && s.pc.todo != [] && IdInv(s, s.pc.todo[0].id)
    requires Counted(DoLoad(s, ok), s.pc.todo[0].id) && OfKind(DoLoad(s, ok), s.pc.todo[0].id)
    ensures IdInv(DoLoad(s, ok), s.pc.todo[0].id)
  {
    var r := s.pc.todo[0];
    assert Listed(s.pc.todo, r.id) == 1 + Listed(s.pc.todo[1..], r.id);
    if !Doubtful(s, r.id) {
      LoadSingle(s, ok);
      LoadFinal(s, ok);
    }
  }

  lemma UnblockOther(s: Host, ok: bool, id: JobId)
    requires s.pc.Unblocking? && s.pc.todo != [] && s.pc.todo[0].id != id
    ensures var s' := DoUnblock(s, ok);
            && s'.copies[id] == s.copies[id] && (id in s'.known <==> id in s.known)
            && (id in s'.rows <==> id in s.rows) && (id in s.rows ==> s'.rows[id] == s.rows[id])
            && (id in s'.lostUnblock <==> id in s.lostUnblock)
  {
  }

  lemma UnblockOtherSettled(s: Host, ok: bool, id: JobId)
    requires IdInv(s, id) && s.pc.Unblocking? && s.pc.todo != [] && s.pc.todo[0].id != id && !Doubtful(s, id)
    ensures Single(DoUnblock(s, ok), id) && Final(DoUnblock(s, ok), id)
  {
    UnblockOther(s, ok, id);
    assert Listed(s.pc.todo, id) == Listed(s.pc.todo[1..], id);
  }

  lemma UnblockOtherKeeps(s: Host, ok: bool, id: JobId)
    requires IdInv(s, id) && s.pc.Unblocking? && s.pc.todo != [] && s.pc.todo[0].id != id
    requires Counted(DoUnblock(s, ok), id) && OfKind(DoUnblock(s, ok), id)
    ensures IdInv(DoUnblock(s, ok), id)
  {
    UnblockOther(s, ok, id);
    assert Listed(s.pc.todo, id) == Listed(s.pc.todo[1..], id);
    if !Doubtful(s, id) { UnblockOtherSettled(s, ok, id); }
  }

  lemma UnblockKeeps(s: Host, ok: bool, id: JobId)
    requires IdInv(s, id) && s.pc.Unblocking? && s.pc.todo != []
    ensures IdInv(DoUnblock(s, ok), id)
  {
    UnblockCounted(s, ok, id);
    UnblockOfKind(s, ok, id);
    if s.pc.todo[0].id != id { UnblockOtherKeeps(s, ok, id); } else { UnblockOwn(s, ok); }
  }

  lemma UnblockSingle(s: Host, ok: bool)
    requires s.pc.Unblocking? && s.pc.todo != [] && IdInv(s, s.pc.todo[0].id) && !Doubtful(s, s.pc.todo[0].id)
    ensures Single(DoUnblock(s, ok), s.pc.todo[0].id)
  {
    var r := s.pc.todo[0];
    assert Listed(s.pc.todo, r.id) == 1 + Listed(s.pc.todo[1..], r.id);
  }

  lemma UnblockFinal(s: Host, ok: bool)
    requires s.pc.Unblocking? && s.pc.todo != [] && IdInv(s, s.pc.todo[0].id) && !Doubtful(s, s.pc.todo[0].id)
    ensures Final(DoUnblock(s, ok), s.pc.todo[0].id)
  {
    var r := s.pc.todo[0];
    assert Listed(s.pc.todo, r.id) == 1 + Listed(s.pc.todo[1..], r.id);
    assert Open(s, r.id);
  }

  lemma UnblockTracked(s: Host, ok: bool)
    requires s.pc.Unblocking? && s.pc.todo != [] && IdInv(s, s.pc.todo[0].id)
    ensures var s', id := DoUnblock(s, ok), s.pc.todo[0].id; Fresh(s', id) && Quiescent(s', id) && Tracked(s', id)
  {
    var r := s.pc.todo[0];
    assert Listed(s.pc.todo, r.id) == 1 + Listed(s.pc.todo[1..], r.id);
  }

  lemma UnblockOwn(s: Host, ok: bool)
    requires s.pc.Unblocking? && s.pc.todo != [] && IdInv(s, s.pc.todo[0].id)
    requires Counted(DoUnblock(s, ok), s.pc.todo[0].id) && OfKind(DoUnblock(s, ok), s.pc.todo[0].id)
    ensures IdInv(DoUnblock(s, ok), s.pc.todo[0].id)
  {
    UnblockTracked(s, ok);
    if !Doubtful(s, s.pc.todo[0].id) {
      UnblockSingle(s, ok);
      UnblockFinal(s, ok);
    }
  }

  // ---- A job ------------------------------------------------------------------------------

  lemma CheckKeeps(s: Host, ok: bool, id: JobId)
    requires IdInv(s, id) && s.pc.Popped?
    ensures IdInv(DoCheck(s, ok), id)
  {
    if DoCheck(s, ok).pc.Working? {
      assert DoCheck(s, ok) == s.(pc := Working(s.pc.job));
    } else {
      CheckCounted(s, ok, id);
      DropKeeps(s, ok, id);
    }
  }

  lemma DropKeeps(s: Host, ok: bool, id: JobId)
    requires IdInv(s, id) && s.pc.Popped? && DoCheck(s, ok).pc.Top? && Counted(DoCheck(s, ok), id)
    ensures IdInv(DoCheck(s, ok), id)
  {
    DropInHand(s, id);
  }

  lemma WorkKeeps(s: Host, rows: map<JobId, Row>, outcome: Outcome, id: JobId)
    requires IdInv(s, id) && s.pc.Working? && Interference(s.rows, s.issued, rows)
    ensures IdInv(DoWork(s, rows, outcome), id)
  {
    OthersKeeps(s, rows, id);
  }

  lemma CompleteKeeps(s: Host, ok: bool, id: JobId)
    requires IdInv(s, id) && s.pc.Reporting? && s.pc.outcome.Done?
    ensures IdInv(DoComplete(s, ok), id)
  {
    CompleteCounted(s, ok, id);
    if s.pc.job.id == id { CompleteOwn(s, ok); } else { CompleteOther(s, ok, id); }
  }

  // Completing concerns the row and the copies of the job in hand only.
  lemma CompleteOther(s: Host, ok: bool, id: JobId)
    requires s.pc.Reporting? && s.pc.job.id != id
    ensures var s' := DoComplete(s, ok);
            && s'.copies[id] == s.copies[id] && (id in s'.unrecorded <==> id in s.unrecorded)
            && (id in s'.known <==> id in s.known)
            && (id in s'.rows <==> id in s.rows) && (id in s.rows ==> s'.rows[id] == s.rows[id])
  {
  }

  lemma CompleteOwn(s: Host, ok: bool)
    requires s.pc.Reporting?
    ensures var s', id := DoComplete(s, ok), s.pc.job.id;
            && s'.copies == s.copies - multiset{id} && (id in s'.rows <==> id in s.rows)
            && (if ok then s'.known == s.known - {id} && s'.unrecorded == s.unrecorded && (id in s.rows ==> RowIs(s', id, Succeeded))
                else s'.known == s.known && s'.rows == s.rows && id in s'.unrecorded)
  {
  }

  lemma RepairKeeps(s: Host, rows: map<JobId, Row>, s': Host, id: JobId)
    requires IdInv(s, id) && s.pc.Reporting? && !s.pc.outcome.Done?
    requires Interference(s.rows, s.issued, rows)
    requires s'.pc.Failing? && s'.pc.job == s.pc.job
    requires s' == Changed(s, rows).(pc := s'.pc, guard := s'.guard, repairs := s'.repairs)
    ensures IdInv(s', id)
  {
    OthersKeeps(s, rows, id);
    SameJobKeeps(Changed(s, rows), s', id);
  }

  // Whether the classification inserts a row.
  predicate Requeues(s: Host, repair: Option<Record>) {
    && s.pc.Reporting? && s.pc.outcome.CacheMiss? && s.pc.job.file.Some? && s.pc.job.file.value !in s.guard
    && repair.Some?
  }

  lemma ClassifyKeeps(s: Host, repair: Option<Record>, id: JobId)
    requires IdInv(s, id) && Shape(s) && s.pc.Reporting? && !s.pc.outcome.Done?
    requires repair.Some? ==> RepairAllowed(s, repair.value)
    ensures IdInv(DoClassify(s, repair), id)
  {
    var s' := DoClassify(s, repair);
    if Requeues(s, repair) {
      RepairInterferes(s, repair);
      RequeueInserts(s, repair);
      RepairKeeps(s, s'.rows, s', id);
    } else {
      NothingRequeued(s, repair);
      SameJobKeeps(s, s', id);
    }
  }

  lemma NothingRequeued(s: Host, repair: Option<Record>)
    requires s.pc.Reporting? && !s.pc.outcome.Done? && !Requeues(s, repair)
    ensures var s' := DoClassify(s, repair);
            s' == s.(pc := s'.pc, guard := s'.guard) && s'.pc.Failing? && s'.pc.job == s.pc.job
  {
  }

  lemma RequeueInserts(s: Host, repair: Option<Record>)
    requires Requeues(s, repair)
    ensures var s' := DoClassify(s, repair);
            s' == Changed(s, s'.rows).(pc := s'.pc, guard := s'.guard, repairs := s'.repairs)
            && s'.pc.Failing? && s'.pc.job == s.pc.job
  {
    RepairedInserts(s, repair.value, s.pc.job.file.value);
  }

  lemma RepairedInserts(s: Host, r: Record, file: FileId)
    ensures var s' := Repaired(s, Some(r), file);
            s' == Changed(s, s'.rows).(guard := s'.guard, repairs := s'.repairs)
  {
  }

  // The inserted row, if any, is one another thread could have inserted.
  lemma RepairInterferes(s: Host, repair: Option<Record>)
    requires s.rows.Keys <= s.issued && s.pc.Reporting? && !s.pc.outcome.Done?
    requires repair.Some? ==> RepairAllowed(s, repair.value)
    ensures Interference(s.rows, s.issued, DoClassify(s, repair).rows)
  {
  }

  // A retry: the copy in hand goes back to its queue.
  lemma RetryKeeps(s: Host, ok: bool, id: JobId)
    requires IdInv(s, id) && s.pc.Failing? && HasRoom(s.queues, s.pc.job.kind) && Counted(DoRetry(s, ok), id)
    ensures IdInv(DoRetry(s, ok), id)
  {
    PushedKind(s.queues, s.pc.job.(attempts := s.pc.job.attempts + 1), id);
  }

  lemma GiveUpKeeps(s: Host, ok: bool, id: JobId)
    requires IdInv(s, id) && s.pc.Failing? && Counted(DoGiveUp(s, ok), id)
    ensures IdInv(DoGiveUp(s, ok), id)
  {
    DropInHand(s, id);
  }

  lemma SettleKeeps(s: Host, ok: bool, id: JobId)
    requires IdInv(s, id) && Shape(s) && s.pc.Failing?
    ensures IdInv(DoSettle(s, ok), id)
  {
    SettleCounted(s, ok, id);
    if Retries(s.pc.job, s.pc.terminal) { RetryKeeps(s, ok, id); } else { GiveUpKeeps(s, ok, id); }
  }

  // The steps that leave the job in hand, the lists and the catalog alone.
  lemma QuietKeeps(s: Host, a: Action, id: JobId)
    requires IdInv(s, id) && Enabled(s, a)
    requires a.Observe? || a.CountRows? || a.Trim? || (a.Unblock? && s.pc.todo == [])
    ensures IdInv(Apply(s, a), id)
  {
    SameJobKeeps(s, Apply(s, a), id);
  }

  lemma KeepsIdInv(s: Host, a: Action, id: JobId)
    requires IdInv(s, id) && Shape(s) && Enabled(s, a)
    ensures IdInv(Apply(s, a), id)
  {
    match a
    case Others(rows) => OthersKeeps(s, rows, id);
    case Tick => TickKeeps(s, id);
    case List(ok, todo) => ListKeeps(s, ok, todo, id);
    case Load(ok) => LoadKeeps(s, ok, id);
    case Relist(ok, todo) => RelistKeeps(s, ok, todo, id);
    case Unblock(ok) => if s.pc.todo == [] { QuietKeeps(s, a, id); } else { UnblockKeeps(s, ok, id); }
    case Check(ok) => CheckKeeps(s, ok, id);
    case Work(rows, outcome) => WorkKeeps(s, rows, outcome, id);
    case Complete(ok) => CompleteKeeps(s, ok, id);
    case Classify(repair) => ClassifyKeeps(s, repair, id);
    case Settle(ok) => SettleKeeps(s, ok, id);
    case Observe(_) => QuietKeeps(s, a, id);
    case CountRows(_) => QuietKeeps(s, a, id);
    case Trim => QuietKeeps(s, a, id);
  }

  // ---- Attempts ---------------------------------------------------------------------------

  /** Every waiting copy of the id has used at least `least` attempts. */
  ghost predicate AttemptsFrom(qs: Queues, id: JobId, least: int) {
    forall k, i :: 0 <= k < QUEUES && 0 <= i < |qs[k]| && qs[k][i].id == id ==> qs[k][i].attempts >= least
  }

  // How often the id may still run: three times, and three more for each status read that failed.
  function Left(s: Host, id: JobId): int {
    MAX_JOB_ATTEMPTS * (1 + s.misreads[id]) - s.execs[id]
  }

  /** A copy runs at most MAX_JOB_ATTEMPTS times: what it has run is in its attempt counter; and an id
      that can be loaded again has all its attempts left. */
  ghost predicate Bounded(s: Host, id: JobId) {
    var least := MAX_JOB_ATTEMPTS - Left(s, id);
    && Left(s, id) >= 0
    && (Open(s, id) ==> least <= 0)
    && AttemptsFrom(s.queues, id, least)
    && (InHand(s, id) ==> Active(s).value.attempts + One(s.pc.Reporting? || s.pc.Failing?) >= least)
  }

  ghost predicate BoundedInv(s: Host, id: JobId) {
    !Doubtful(s, id) ==> Bounded(s, id)
  }

  lemma NoneWaiting(qs: Queues, id: JobId, least: int)
    requires Mem(qs, id, QUEUES) == 0
    ensures AttemptsFrom(qs, id, least)
  {
    forall k, i | 0 <= k < QUEUES && 0 <= i < |qs[k]| && qs[k][i].id == id ensures false {
      CountMember(qs[k], i);
      MemAtLeast(qs, id, k, QUEUES);
    }
  }

  lemma {:induction false} MemAtLeast(qs: Queues, id: JobId, k: nat, n: nat)
    requires k < n <= QUEUES
    ensures Mem(qs, id, n) >= Count(qs[k], id)
  {
    if k < n - 1 { MemAtLeast(qs, id, k, n - 1); }
  }

  lemma PushAttempts(qs: Queues, job: Job, id: JobId, least: int)
    requires AttemptsFrom(qs, id, least) && (job.id == id ==> job.attempts >= least)
    ensures AttemptsFrom(Pushed(qs, job), id, least)
  {
  }

  lemma PopAttempts(qs: Queues, k: nat, id: JobId, least: int)
    requires AttemptsFrom(qs, id, least) && k < QUEUES && qs[k] != []
    ensures AttemptsFrom(Popped1(qs, k), id, least)
    ensures var job := qs[k][Best(qs[k])]; job.id == id ==> job.attempts >= least
  {
  }

  lemma TickBounded(s: Host, id: JobId)
    requires BoundedInv(s, id) && (s.pc.Top? || s.pc.Second?)
    ensures BoundedInv(DoTick(s), id)
  {
    var q := TickQueue(s.queues, s.mode);
    if q.Some? && !Doubtful(s, id) { PopAttempts(s.queues, q.value, id, MAX_JOB_ATTEMPTS - Left(s, id)); }
  }

  lemma ListBounded(s: Host, todo: seq<Record>, id: JobId)
    requires BoundedInv(s, id)
    ensures s.pc.Listing? && Enumerates(todo, s.rows, Queued) ==> BoundedInv(s.(pc := Loading(todo)), id)
    ensures s.pc == Loading([]) && Enumerates(todo, s.rows, Blocked) ==> BoundedInv(s.(pc := Unblocking(todo)), id)
    ensures s.pc.Listing? || s.pc == Loading([]) ==> BoundedInv(s.(pc := Second), id)
  {
    if s.pc.Listing? && Enumerates(todo, s.rows, Queued) { EnumeratesListed(todo, s.rows, Queued, id); }
    if s.pc == Loading([]) && Enumerates(todo, s.rows, Blocked) { EnumeratesListed(todo, s.rows, Blocked, id); }
  }

  // What a step that runs nothing must do for the attempts: open no id, and push only what an open
  // id may push.
  lemma BoundedFrom(s: Host, s': Host, id: JobId)
    requires BoundedInv(s, id) && !Doubtful(s, id)
    requires s'.execs == s.execs && s'.misreads == s.misreads && Active(s').None?
    requires Open(s', id) ==> Open(s, id)
    requires AttemptsFrom(s'.queues, id, MAX_JOB_ATTEMPTS - Left(s, id))
    ensures Bounded(s', id)
  {
  }

  lemma LoadOpens(s: Host, ok: bool, id: JobId)
    requires s.pc.Loading? && s.pc.todo != []
    ensures Open(DoLoad(s, ok), id) ==> Open(s, id)
    ensures DoLoad(s, ok).queues == s.queues || Open(s, s.pc.todo[0].id)
  {
    assert Listed(s.pc.todo, id) == One(s.pc.todo[0].id == id) + Listed(s.pc.todo[1..], id);
  }

  lemma LoadBounded(s: Host, ok: bool, id: JobId)
    requires BoundedInv(s, id) && s.pc.Loading? && s.pc.todo != []
    ensures BoundedInv(DoLoad(s, ok), id)
  {
    var s', least := DoLoad(s, ok), MAX_JOB_ATTEMPTS - Left(s, id);
    if !Doubtful(s, id) {
      LoadOpens(s, ok, id);
      if s'.queues != s.queues { PushAttempts(s.queues, JobFromRecord(s.pc.todo[0]).value, id, least); }
      BoundedFrom(s, s', id);
    }
  }

  lemma UnblockOpens(s: Host, ok: bool, id: JobId)
    requires s.pc.Unblocking? && s.pc.todo != []
    ensures Open(DoUnblock(s, ok), id) ==> Open(s, id)
    ensures Open(s, s.pc.todo[0].id)
  {
    assert Listed(s.pc.todo, id) == One(s.pc.todo[0].id == id) + Listed(s.pc.todo[1..], id);
  }

  lemma UnblockBounded(s: Host, ok: bool, id: JobId)
    requires BoundedInv(s, id) && s.pc.Unblocking? && s.pc.todo != []
    ensures BoundedInv(DoUnblock(s, ok), id)
  {
    var s', least := DoUnblock(s, ok), MAX_JOB_ATTEMPTS - Left(s, id);
    if !Doubtful(s, id) {
      UnblockOpens(s, ok, id);
      if s'.queues != s.queues { PushAttempts(s.queues, JobFromRecord(s.pc.todo[0]).value, id, least); }
      BoundedFrom(s, s', id);
    }
  }

  lemma OthersBounded(s: Host, rows: map<JobId, Row>, id: JobId)
    requires BoundedInv(s, id) && IdInv(s, id) && Interference(s.rows, s.issued, rows)
    ensures BoundedInv(Changed(s, rows), id)
  {
  }

  lemma DropBounded(s: Host, ok: bool, id: JobId)
    requires BoundedInv(s, id) && IdInv(s, id) && s.pc.Popped? && DoCheck(s, ok).pc.Top?
    ensures BoundedInv(DoCheck(s, ok), id)
  {
  }

  lemma CheckBounded(s: Host, ok: bool, id: JobId)
    requires BoundedInv(s, id) && IdInv(s, id) && s.pc.Popped?
    ensures BoundedInv(DoCheck(s, ok), id)
  {
    if DoCheck(s, ok).pc.Working? {
      assert DoCheck(s, ok) == s.(pc := Working(s.pc.job));
    } else {
      DropBounded(s, ok, id);
    }
  }

  // The copy that runs is the only one, and its id is not looked at meanwhile.
  lemma RunBounded(s: Host, rows: map<JobId, Row>, outcome: Outcome)
    requires s.pc.Working? && BoundedInv(s, s.pc.job.id) && IdInv(s, s.pc.job.id) && Shape(s)
    requires Interference(s.rows, s.issued, rows)
    ensures BoundedInv(DoWork(s, rows, outcome), s.pc.job.id)
  {
    var id := s.pc.job.id;
    if !Doubtful(s, id) { NoneWaiting(s.queues, id, MAX_JOB_ATTEMPTS - Left(s, id) + 1); }
  }

  lemma WorkBounded(s: Host, rows: map<JobId, Row>, outcome: Outcome, id: JobId)
    requires BoundedInv(s, id) && IdInv(s, id) && Shape(s) && s.pc.Working?
    requires Interference(s.rows, s.issued, rows)
    ensures BoundedInv(DoWork(s, rows, outcome), id)
  {
    if s.pc.job.id == id {
      RunBounded(s, rows, outcome);
    } else {
      OthersBounded(s, rows, id);
    }
  }

  lemma CompleteBounded(s: Host, ok: bool, id: JobId)
    requires BoundedInv(s, id) && s.pc.Reporting?
    ensures BoundedInv(DoComplete(s, ok), id)
  {
  }

  lemma ClassifyBounded(s: Host, repair: Option<Record>, id: JobId)
    requires BoundedInv(s, id) && IdInv(s, id) && Shape(s) && s.pc.Reporting? && !s.pc.outcome.Done?
    requires repair.Some? ==> RepairAllowed(s, repair.value)
    ensures BoundedInv(DoClassify(s, repair), id)
  {
    var s' := DoClassify(s, repair);
    RepairInterferes(s, repair);
    OthersBounded(s, s'.rows, id);
    ClassifyChanges(s, repair);
  }

  // Classifying inserts at most a row, and moves on with the same job.
  lemma ClassifyChanges(s: Host, repair: Option<Record>)
    requires s.rows.Keys <= s.issued && s.pc.Reporting? && !s.pc.outcome.Done?
    ensures var s' := DoClassify(s, repair);
            && s'.pc.Failing? && s'.pc.job == s.pc.job
            && s'.queues == s.queues && s'.known == s.known && s'.execs == s.execs && s'.misreads == s.misreads
            && s'.lostUnblock == s.lostUnblock && s.embeddings <= s'.embeddings && s'.mode == s.mode
  {
  }

  lemma RetryBounded(s: Host, ok: bool, id: JobId)
    requires BoundedInv(s, id) && IdInv(s, id) && s.pc.Failing? && HasRoom(s.queues, s.pc.job.kind)
    ensures BoundedInv(DoRetry(s, ok), id)
  {
    if !Doubtful(s, id) {
      PushAttempts(s.queues, s.pc.job.(attempts := s.pc.job.attempts + 1), id, MAX_JOB_ATTEMPTS - Left(s, id));
    }
  }

  lemma GiveUpBounded(s: Host, ok: bool, id: JobId)
    requires BoundedInv(s, id) && IdInv(s, id) && s.pc.Failing?
    ensures BoundedInv(DoGiveUp(s, ok), id)
  {
  }

  lemma SettleBounded(s: Host, ok: bool, id: JobId)
    requires BoundedInv(s, id) && IdInv(s, id) && Shape(s) && s.pc.Failing?
    ensures BoundedInv(DoSettle(s, ok), id)
  {
    if Retries(s.pc.job, s.pc.terminal) { RetryBounded(s, ok, id); } else { GiveUpBounded(s, ok, id); }
  }

  // The steps that neither pop, push nor run, and list nothing.
  lemma QuietBounded(s: Host, a: Action, id: JobId)
    requires BoundedInv(s, id) && Enabled(s, a)
    requires a.Observe? || a.CountRows? || a.Trim? || (a.Unblock? && s.pc.todo == [])
    ensures BoundedInv(Apply(s, a), id)
  {
    var s' := Apply(s, a);
    assert s' == s.(pc := s'.pc, mode := s'.mode, trimmed := s'.trimmed, trims := s'.trims) && Active(s').None? && Todo(s') == [];
  }

  lemma KeepsBounded(s: Host, a: Action, id: JobId)
    requires BoundedInv(s, id) && IdInv(s, id) && Shape(s) && Enabled(s, a)
    ensures BoundedInv(Apply(s, a), id)
  {
    match a
    case Others(rows) => OthersBounded(s, rows, id);
    case Tick => TickBounded(s, id);
    case List(ok, todo) => ListBounded(s, todo, id);
    case Load(ok) => LoadBounded(s, ok, id);
    case Relist(ok, todo) => ListBounded(s, todo, id);
    case Unblock(ok) => if s.pc.todo != [] { UnblockBounded(s, ok, id); } else { QuietBounded(s, a, id); }
    case Check(ok) => CheckBounded(s, ok, id);
    case Work(rows, outcome) => WorkBounded(s, rows, outcome, id);
    case Complete(ok) => CompleteBounded(s, ok, id);
    case Classify(repair) => ClassifyBounded(s, repair, id);
    case Settle(ok) => SettleBounded(s, ok, id);
    case Observe(_) => QuietBounded(s, a, id);
    case CountRows(_) => QuietBounded(s, a, id);
    case Trim => QuietBounded(s, a, id);
  }
}
