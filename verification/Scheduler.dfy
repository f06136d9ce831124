/**
 The scheduler (six bounded queues, a resource mode) and the catalog table it reports to, as the
 objects the host loop works on. Catalog accesses may fail at any time; other threads may change
 the table between any two of them.
 */
module Schedulers {
  import opened Common
  import opened Jobs
  import opened BoundedQueues
  import opened HostModel

  // One empty queue for each index.
  method EmptyQueues() returns (queues: seq<BoundedQueue>)
    ensures |queues| == QUEUES && fresh(queues)
    ensures forall i, j :: 0 <= i < j < QUEUES ==> queues[i] != queues[j]
    ensures forall i :: 0 <= i < QUEUES ==> queues[i].Valid() && queues[i].capacity == Capacity(i) && queues[i].arrivals == []
  {
    queues := [];
    for k := 0 to QUEUES
      invariant |queues| == k && fresh(queues)
      invariant forall i, j :: 0 <= i < j < k ==> queues[i] != queues[j]
      invariant forall i :: 0 <= i < k ==> queues[i].Valid() && queues[i].capacity == Capacity(i) && queues[i].arrivals == []
    {
      var made := new BoundedQueue(Capacity(k));
      queues := queues + [made];
    }
  }

  // Queues are served in order, and embeddings only while nothing holds them back.
  ghost predicate Serves(qs: Queues, mode: Mode, from: Option<nat>) {
    match from
    case Some(k) =>
      && k < 6 && qs[k] != [] && !mode.Stopped? && (k == 4 ==> mode.Normal?)
      && forall i :: 0 <= i < k ==> qs[i] == [] || (i == 4 && !mode.Normal?)
    case None =>
      mode.Stopped? || forall i :: 0 <= i < 6 ==> qs[i] == [] || (i == 4 && !mode.Normal?)
  }

  lemma ServesInOrder(qs: Queues, mode: Mode)
    ensures Serves(qs, mode, TickQueue(qs, mode))
  {
  }

  class Scheduler {
    const queues: seq<BoundedQueue>
    var mode: Mode
    ghost var waiting: Queues

    ghost predicate Valid()
      reads this, queues
    {
      && |queues| == QUEUES
      && (forall i, j :: 0 <= i < j < QUEUES ==> queues[i] != queues[j])
      && (forall i :: 0 <= i < QUEUES ==>
            queues[i].Valid() && queues[i].capacity == Capacity(i) && queues[i].arrivals == waiting[i])
    }

    constructor ()
      ensures Valid() && fresh(queues)
      ensures AllEmpty(waiting) && mode == Normal
    {
      var made := EmptyQueues();
      queues := made;
      mode := Normal;
      waiting := [[], [], [], [], [], []];
    }

    // The whole mode is derived from what is currently observed; a pause is never overridden.
    method ApplyResourceObservation(userActive: bool, onBattery: bool)
      requires Valid()
      modifies `mode
      ensures Valid()
      ensures mode == if old(mode).Stopped? then Stopped else if userActive then UserActive
                      else if onBattery then LowImpact else Normal
    {
      if mode.Stopped? {
        return;
      }
      mode := if userActive then UserActive else if onBattery then LowImpact else Normal;
    }

    // Background indexing is switched off before anything is handed out; every queued row is parked.
    method Pause(catalog: Catalog) returns (ok: bool)
      requires Valid() && catalog.Valid()
      modifies `mode, catalog`rows, catalog`asked
      ensures Valid() && catalog.Valid() && mode == Stopped
      ensures old(mode).Stopped? ==> ok && catalog.rows == old(catalog.rows)
      ensures !old(mode).Stopped? ==> catalog.rows == if ok then AllMoved(old(catalog.rows), Queued, Paused) else old(catalog.rows)
      // A row is parked exactly if it was queued; every other row, finished or not, is as it was.
      ensures catalog.rows.Keys == old(catalog.rows).Keys
      ensures !old(mode).Stopped? && ok ==> forall id <- catalog.rows ::
                catalog.rows[id].status == Paused <==> old(catalog.rows)[id].status == Queued || old(catalog.rows)[id].status == Paused
      ensures forall id <- catalog.rows :: catalog.rows[id] == old(catalog.rows)[id] || old(catalog.rows)[id].status == Queued
    {
      ok := true;
      if mode.Stopped? {
        return;
      }
      mode := Stopped;
      ok := catalog.MoveAll(Queued, Paused);
    }

    // Whatever this scheduler's mode was: the rows may have been parked by an earlier session.
    method Resume(catalog: Catalog) returns (ok: bool)
      requires Valid() && catalog.Valid()
      modifies `mode, catalog`rows, catalog`asked
      ensures Valid() && catalog.Valid() && mode == Normal
      ensures catalog.rows == if ok then AllMoved(old(catalog.rows), Paused, Queued) else old(catalog.rows)
      // A row is queued again exactly if it was parked; every other row is as it was.
      ensures catalog.rows.Keys == old(catalog.rows).Keys
      ensures ok ==> forall id <- catalog.rows ::
                catalog.rows[id].status == Queued <==> old(catalog.rows)[id].status == Queued || old(catalog.rows)[id].status == Paused
      ensures forall id <- catalog.rows :: catalog.rows[id] == old(catalog.rows)[id] || old(catalog.rows)[id].status == Paused
    {
      mode := Normal;
      ok := catalog.MoveAll(Paused, Queued);
    }

    method LoadPersisted(job: Job) returns (loaded: bool)
      requires Valid()
      modifies `waiting, queues
      ensures Valid() && loaded == HasRoom(old(waiting), job.kind)
      ensures waiting == if loaded then Pushed(old(waiting), job) else old(waiting)
      // One queue for each kind of work, in dispatch order, each with its own limit.
      ensures match job.kind
              case Scan => loaded <==> |old(waiting)[0]| < 10_000
              case Extract => loaded <==> |old(waiting)[1]| < 1_000
              case Chunk => loaded <==> |old(waiting)[2]| < 1_000
              case Keyword => loaded <==> |old(waiting)[3]| < 1_000
              case Embedding => loaded <==> |old(waiting)[4]| < 2_000
              case Cleanup => loaded <==> |old(waiting)[5]| < 200
              case Repair => loaded <==> |old(waiting)[5]| < 200
    {
      var q := queues[QueueOf(job.kind)];
      var full := q.IsFull();
      loaded := !full;
      if loaded {
        q.Push(job);
        waiting := Pushed(waiting, job);
      }
    }

    // The first arrival of the greatest priority in one queue.
    method PopFrom(k: nat) returns (job: Option<Job>)
      requires Valid() && k < QUEUES
      modifies `waiting, queues
      ensures Valid()
      ensures var items := old(waiting)[k];
              if items == [] then job == None && waiting == old(waiting)
              else job == Some(items[Best(items)]) && waiting == Popped1(old(waiting), k)
    {
      job := queues[k].Pop();
      if job.Some? {
        waiting := Popped1(waiting, k);
      }
    }

    method Tick() returns (job: Option<Job>, ghost from: nat)
      requires Valid()
      modifies `waiting, queues
      ensures Valid()
      ensures job.None? ==> TickQueue(old(waiting), mode) == None && waiting == old(waiting)
      ensures job.Some? ==>
                && TickQueue(old(waiting), mode) == Some(from)
                && job.value == old(waiting)[from][Best(old(waiting)[from])]
                && waiting == Popped1(old(waiting), from)
      ensures Serves(old(waiting), mode, if job.Some? then Some(from) else None)
    {
      ServesInOrder(waiting, mode);
      job, from := None, 0;
      if mode.Stopped? {
        return;
      }
      var k := 0;
      while k < QUEUES
        invariant 0 <= k <= QUEUES
        invariant Valid() && waiting == old(waiting) && job == None
        invariant NextQueue(waiting, mode, 0) == NextQueue(waiting, mode, k)
      {
        if !Skipped(k, mode) {
          job := PopFrom(k);
          if job.Some? {
            from := k;
            return;
          }
        }
        k := k + 1;
      }
    }

    method IsIdle() returns (idle: bool)
      requires Valid()
      ensures idle <==> AllEmpty(waiting)
    {
      idle := true;
      var k := 0;
      while k < QUEUES
        invariant 0 <= k <= QUEUES
        invariant idle <==> forall i :: 0 <= i < k ==> waiting[i] == []
      {
        assert waiting[k] == queues[k].arrivals;
        idle := idle && queues[k].items == [];
        k := k + 1;
      }
    }
  }

  // The first `n` ids.
  ghost function Generated(n: nat): (ids: set<JobId>)
    ensures forall id: nat :: id in ids <==> id < n
  {
    if n == 0 then {}
    else
      var last: nat := n - 1;
      Generated(last) + {last}
  }

  // An access to the catalog, and whether it succeeded.
  datatype Access =
    | Listed(st: Status, ok: bool)
    | Counted(st: Status, ok: bool)
    | ReadOf(id: JobId, ok: bool)
    | Searched(file: FileId, ok: bool)
    | Wrote(id: JobId, st: Status, ok: bool)
    | Moved(from: Status, to: Status, ok: bool)

  // Every row of one status in another, the rest as they were.
  function AllMoved(rows: map<JobId, Row>, from: Status, to: Status): (r: map<JobId, Row>)
    ensures r.Keys == rows.Keys
    ensures forall id <- rows :: r[id] == rows[id].(status := r[id].status)
    ensures from != to ==> forall id <- rows :: r[id].status != from
  {
    map id <- rows :: if rows[id].status == from then rows[id].(status := to) else rows[id]
  }

  /** Switching background indexing off and on again changes no row that was neither queued nor parked:
      what was queued is queued, what was parked is queued too, and work that ended is not begun again. */
  lemma OffAndOnAgain(rows: map<JobId, Row>)
    ensures var r := AllMoved(AllMoved(rows, Queued, Paused), Paused, Queued);
            && r.Keys == rows.Keys
            && forall id <- rows :: r[id] == if rows[id].status == Paused then rows[id].(status := Queued) else rows[id]
  {
    var parked := AllMoved(rows, Queued, Paused);
    assert forall id <- parked :: parked[id] == AllMoved(rows, Queued, Paused)[id];
  }

  // The rows after the starts of some sessions, each with background indexing on or off, and able to
  // tell the catalog or not.
  ghost function AfterStarts(rows: map<JobId, Row>, starts: seq<(bool, bool)>): map<JobId, Row> {
    if starts == [] then rows
    else
      var before, (on, landed) := AfterStarts(rows, starts[..|starts| - 1]), starts[|starts| - 1];
      if !landed then before else if on then AllMoved(before, Paused, Queued) else AllMoved(before, Queued, Paused)
  }

  /** However many sessions begin: no row comes or goes, none changes but between queued and parked, and
      one that begins with background indexing on leaves none parked. */
  lemma {:induction false} StartsOnlyPark(rows: map<JobId, Row>, starts: seq<(bool, bool)>)
    ensures var r := AfterStarts(rows, starts);
            && r.Keys == rows.Keys
            && (forall id <- rows :: r[id] == rows[id]
                 || (rows[id].status in {Queued, Paused} && r[id].status in {Queued, Paused} && r[id] == rows[id].(status := r[id].status)))
            && (starts != [] && starts[|starts| - 1] == (true, true) ==>
                  forall id <- rows :: r[id].status == Queued <==> rows[id].status in {Queued, Paused})
  {
    if starts != [] { StartsOnlyPark(rows, starts[..|starts| - 1]); }
  }

  class Catalog {
    var rows: map<JobId, Row>
    var nextId: nat  // generated ids never repeat
    ghost var asked: seq<Access>  // the loop's accesses so far

    ghost predicate Valid()
      reads this
    {
      forall id <- rows :: id < nextId
    }

    constructor (rows: map<JobId, Row>, nextId: nat)
      requires forall id <- rows :: id < nextId
      ensures Valid() && this.rows == rows && this.nextId == nextId && asked == []
    {
      this.rows := rows;
      this.nextId := nextId;
      asked := [];
    }

    // No row, no effect, no error.
    method SetStatus(id: JobId, st: Status) returns (ok: bool)
      requires Valid()
      modifies `rows, `asked
      ensures Valid() && asked == old(asked) + [Wrote(id, st, ok)]
      ensures rows == if ok then HostModel.SetStatus(old(rows), id, st) else old(rows)
    {
      ok := *;
      asked := asked + [Wrote(id, st, ok)];
      if ok && id in rows {
        rows := rows[id := rows[id].(status := st)];
      }
    }

    method MoveAll(from: Status, to: Status) returns (ok: bool)
      requires Valid()
      modifies `rows, `asked
      ensures Valid() && asked == old(asked) + [Moved(from, to, ok)]
      ensures rows == if ok then AllMoved(old(rows), from, to) else old(rows)
    {
      ok := *;
      asked := asked + [Moved(from, to, ok)];
      if ok {
        rows := AllMoved(rows, from, to);
      }
    }

    method StatusOf(id: JobId) returns (ok: bool, status: Option<Status>)
      modifies `asked
      ensures asked == old(asked) + [ReadOf(id, ok)]
      ensures ok ==> status == if id in rows then Some(rows[id].status) else None
    {
      ok := *;
      asked := asked + [ReadOf(id, ok)];
      status := if id in rows then Some(rows[id].status) else None;
    }

    // Rows of one status, in some order.
    method ListByStatus(st: Status) returns (ok: bool, todo: seq<Record>)
      modifies `asked
      ensures asked == old(asked) + [Listed(st, ok)]
      ensures ok ==> Enumerates(todo, rows, st)
    {
      ok := *;
      asked := asked + [Listed(st, ok)];
      todo := [];
      var left := rows.Keys;
      while left != {}
        invariant left <= rows.Keys
        invariant Distinct(todo)
        invariant forall i :: 0 <= i < |todo| ==>
                    todo[i].id in rows.Keys - left && todo[i].row == rows[todo[i].id] && todo[i].row.status == st
        invariant forall id <- rows.Keys - left :: rows[id].status == st ==> exists i :: 0 <= i < |todo| && todo[i].id == id
        decreases |left|
      {
        var x :| x in left;
        if rows[x].status == st {
          ghost var before := todo;
          todo := todo + [Record(x, rows[x])];
          assert todo[|before|].id == x;
          assert forall i :: 0 <= i < |before| ==> todo[i] == before[i];
        }
        left := left - {x};
      }
    }

    method CountWithStatus(st: Status) returns (ok: bool, n: nat)
      modifies `asked
      ensures asked == old(asked) + [Counted(st, ok)]
      ensures ok ==> (n == 0 <==> forall id <- rows :: rows[id].status != st)
    {
      ok := *;
      asked := asked + [Counted(st, ok)];
      var found := set id <- rows | rows[id].status == st;
      n := |found|;
      assert forall id <- rows :: rows[id].status == st <==> id in found;
      assert n == 0 <==> found == {};
    }

    // Whether another extract or chunk job of the file is unfinished.
    method PendingText(file: FileId, except: JobId) returns (ok: bool, pending: bool)
      modifies `asked
      ensures asked == old(asked) + [Searched(file, ok)]
      ensures ok ==> (pending <==> exists id :: id in rows && id != except && rows[id].file == Some(file)
                                                && (rows[id].kind.Extract? || rows[id].kind.Chunk?)
                                                && !rows[id].status.Succeeded? && !rows[id].status.Failed?
                                                && !rows[id].status.Canceled?)
    {
      ok := *;
      asked := asked + [Searched(file, ok)];
      pending := exists id <- rows :: id != except && rows[id].file == Some(file)
                                      && (rows[id].kind.Extract? || rows[id].kind.Chunk?)
                                      && !Finished(rows[id].status);
    }

    method Insert(row: Row) returns (id: JobId)
      requires Valid()
      modifies `rows, `nextId
      ensures Valid() && id == old(nextId) && nextId == old(nextId) + 1
      ensures rows == old(rows)[id := row]
    {
      id := nextId;
      rows := rows[id := row];
      nextId := nextId + 1;
    }

    // One change by another thread.
    method Others()
      requires Valid()
      modifies `rows, `nextId
      ensures Valid() && nextId >= old(nextId)
      ensures Interference(old(rows), Generated(old(nextId)), rows)
      ensures rows.Keys <= old(rows.Keys) + Generated(nextId)
    {
      var id: JobId := *;
      var source: Option<SourceId>, file: Option<FileId>, kind: Kind := *, *, *;
      if id !in rows {
        var _ := Insert(Row(Queued, source, file, kind));
      } else if {
        case true => rows := rows - {id};
        case true => rows := rows[id := rows[id].(source := source, file := file)];
        case true => rows := rows[id := rows[id].(status := Succeeded)];
        case true => rows := rows[id := rows[id].(status := Failed)];
        case true => rows := rows[id := rows[id].(status := Canceled)];
      }
    }
  }
}
