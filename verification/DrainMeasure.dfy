/**
 How much work a calm run has left: each job in memory weighs its remaining attempts, and each row
 that could still be loaded a whole job, times everything one attempt can queue; each file a miss
 could still send back to extraction, and each file with outdated chunks, weighs more than the work
 it can add.
 */
module DrainMeasure {
  import opened Common
  import opened Jobs
  import opened BoundedQueues
  import opened HostModel
  import opened HostSafety
  import opened HostTracking
  import opened HostRuns
  import opened Drain

  // The most one attempt of a job can cost, with everything it queues.
  function Unit(kind: Kind, files: nat): nat {
    match kind
    case Scan => 1 + 78 * files
    case Extract => 13
    case Chunk => 4
    case Keyword => 4
    case Embedding => 1
    case Cleanup => 1
    case Repair => 1
  }

  // What a job costs that has used `attempts` of its attempts.
  function Cost(attempts: nat, kind: Kind, files: nat): nat {
    var u := Unit(kind, files);
    if attempts == 0 then u + u + u else if attempts == 1 then u + u else if attempts == 2 then u else 0
  }

  // ---- Rows that could be loaded ----------------------------------------------------------

  function Weight(row: Row, known: bool, files: nat): nat {
    if row.status.Blocked? || (row.status.Queued? && !known) then Cost(0, row.kind, files) else 0
  }

  ghost function Total(ids: set<JobId>, rows: map<JobId, Row>, known: set<JobId>, files: nat): nat
    requires ids <= rows.Keys
  {
    if ids == {} then 0
    else
      var id :| id in ids;
      Weight(rows[id], id in known, files) + Total(ids - {id}, rows, known, files)
  }

  lemma {:induction false} TotalSplit(ids: set<JobId>, x: JobId, rows: map<JobId, Row>, known: set<JobId>, files: nat)
    requires ids <= rows.Keys && x in ids
    ensures Total(ids, rows, known, files) ==
            Weight(rows[x], x in known, files) + Total(ids - {x}, rows, known, files)
    decreases |ids|
  {
    var id :| id in ids && Total(ids, rows, known, files) ==
                           Weight(rows[id], id in known, files) + Total(ids - {id}, rows, known, files);
    if id != x {
      TotalSplit(ids - {id}, x, rows, known, files);
      TotalSplit(ids - {x}, id, rows, known, files);
      assert ids - {id} - {x} == ids - {x} - {id};
    }
  }

  lemma {:induction false} TotalSame(ids: set<JobId>, rows: map<JobId, Row>, known: set<JobId>,
                                     rows': map<JobId, Row>, known': set<JobId>, files: nat)
    requires ids <= rows.Keys && ids <= rows'.Keys
    requires forall id <- ids :: rows'[id] == rows[id] && (id in known' <==> id in known)
    ensures Total(ids, rows', known', files) == Total(ids, rows, known, files)
    decreases |ids|
  {
    if ids != {} {
      var id :| id in ids;
      TotalSplit(ids, id, rows, known, files);
      TotalSplit(ids, id, rows', known', files);
      TotalSame(ids - {id}, rows, known, rows', known', files);
    }
  }

  lemma {:induction false} TotalJoin(a: set<JobId>, b: set<JobId>, rows: map<JobId, Row>, known: set<JobId>, files: nat)
    requires a + b <= rows.Keys && a !! b
    ensures Total(a + b, rows, known, files) == Total(a, rows, known, files) + Total(b, rows, known, files)
    decreases |b|
  {
    if b == {} {
      assert a + b == a;
    } else {
      var id :| id in b;
      TotalSplit(b, id, rows, known, files);
      TotalSplit(a + b, id, rows, known, files);
      assert a + b - {id} == a + (b - {id});
      TotalJoin(a, b - {id}, rows, known, files);
    }
  }

  function Times(each: nat, n: nat): nat {
    if n == 0 then 0 else each + Times(each, n - 1)
  }

  lemma {:induction false} TimesExtract(n: nat)
    ensures Times(39, n) == 39 * n
  {
    if n > 0 { TimesExtract(n - 1); }
  }

  lemma {:induction false} TimesMono(each: nat, m: nat, n: nat)
    requires m <= n
    ensures Times(each, m) <= Times(each, n)
  {
    if m < n { TimesMono(each, m, n - 1); }
  }

  lemma {:induction false} TotalAtMost(ids: set<JobId>, rows: map<JobId, Row>, known: set<JobId>, files: nat, each: nat)
    requires ids <= rows.Keys && forall id <- ids :: Weight(rows[id], id in known, files) <= each
    ensures Total(ids, rows, known, files) <= Times(each, |ids|)
    decreases |ids|
  {
    if ids != {} {
      var id :| id in ids;
      TotalSplit(ids, id, rows, known, files);
      TotalAtMost(ids - {id}, rows, known, files, each);
    }
  }

  // The rows that stay weigh no more than before.
  lemma TotalKept(rows: map<JobId, Row>, rows': map<JobId, Row>, known: set<JobId>, files: nat)
    requires forall id <- rows' :: id in rows ==> rows'[id] == rows[id]
    ensures Total(rows'.Keys * rows.Keys, rows', known, files) <= Total(rows.Keys, rows, known, files)
  {
    var kept := rows'.Keys * rows.Keys;
    TotalSame(kept, rows, known, rows', known, files);
    assert rows.Keys == kept + (rows.Keys - kept);
    TotalJoin(kept, rows.Keys - kept, rows, known, files);
  }

  // Inserting rows of one kind (never a scan) adds at most their full weight.
  lemma TotalAdds(rows: map<JobId, Row>, rows': map<JobId, Row>, known: set<JobId>, files: nat,
                  kind: Kind, among: set<FileId>, most: nat, each: nat)
    requires Adds(rows, rows', kind, among, most) && each == Cost(0, kind, files)
    ensures Total(rows'.Keys, rows', known, files) <= Total(rows.Keys, rows, known, files) + Times(each, most)
  {
    var inserted := rows'.Keys - rows.Keys;
    assert rows'.Keys == rows'.Keys * rows.Keys + inserted;
    TotalJoin(rows'.Keys * rows.Keys, inserted, rows', known, files);
    TotalKept(rows, rows', known, files);
    forall id <- inserted ensures Weight(rows'[id], id in known, files) <= each {
      assert rows'[id].kind == kind;
    }
    TotalAtMost(inserted, rows', known, files, each);
    TimesMono(each, |inserted|, most);
  }

  // When at most one row, or whether it is known, changes.
  lemma TotalOne(rows: map<JobId, Row>, known: set<JobId>, rows': map<JobId, Row>, known': set<JobId>, id: JobId, files: nat)
    requires rows'.Keys == rows.Keys
    requires forall x <- rows :: x != id ==> rows'[x] == rows[x] && (x in known' <==> x in known)
    ensures id !in rows ==> Total(rows'.Keys, rows', known', files) == Total(rows.Keys, rows, known, files)
    ensures id in rows ==>
              && Total(rows'.Keys, rows', known', files) + Weight(rows[id], id in known, files)
                 == Total(rows.Keys, rows, known, files) + Weight(rows'[id], id in known', files)
  {
    if id in rows {
      TotalSplit(rows.Keys, id, rows, known, files);
      TotalSplit(rows.Keys, id, rows', known', files);
      TotalSame(rows.Keys - {id}, rows, known, rows', known', files);
    } else {
      TotalSame(rows.Keys, rows, known, rows', known', files);
    }
  }

  // ---- Jobs in memory ---------------------------------------------------------------------

  ghost function Price(files: nat): Job -> nat {
    (j: Job) => Cost(j.attempts, j.kind, files)
  }

  // The job in hand; once it has run, that attempt is used.
  function Hand(h: Host, files: nat): nat {
    match h.pc
    case Popped(job) => Cost(job.attempts, job.kind, files)
    case Working(job) => Cost(job.attempts, job.kind, files)
    case Reporting(job, _) => Cost(job.attempts + 1, job.kind, files)
    case Failing(job, _) => Cost(job.attempts + 1, job.kind, files)
    case _ => 0
  }

  // ---- The whole measure ------------------------------------------------------------------

  ghost function Carried(h: Host, files: nat): nat {
    Total(h.rows.Keys, h.rows, h.known, files) + Weigh(h.queues, Price(files), QUEUES) + Hand(h, files)
  }

  // Files the guard holds back, less the one whose read is about to be reported.
  function Held(h: Host): set<FileId> {
    if h.pc.Reporting? && h.pc.outcome.Done? && ReadsText(h.pc.job.kind) && h.pc.job.file.Some?
    then h.guard - {h.pc.job.file.value} else h.guard
  }

  /** Files whose next miss would re-queue an extraction. */
  function Exposed(w: World): set<FileId> {
    w.files - w.text - Held(w.h)
  }

  ghost function Debt(w: World): nat {
    Carried(w.h, |w.files|) + 39 * |Exposed(w)| + 78 * |w.stale|
  }

  lemma SubsetSize<T>(a: set<T>, b: set<T>)
    requires a <= b
    ensures |a| <= |b|
  {
    assert b == a + (b - a);
  }

  // ---- What a calm run does not have to pay for -------------------------------------------

  /** The record is not of a row that the list it is in would contain now: other threads changed the
      row since it was listed. */
  predicate Outdated(rows: map<JobId, Row>, known: set<JobId>, r: Record, loading: bool) {
    var alike := r.id in rows && rows[r.id].kind == r.row.kind;
    if loading then r.id !in known && !(alike && rows[r.id].status.Queued?)
    else !(alike && rows[r.id].status.Blocked?)
  }

  ghost function OutdatedIn(h: Host, todo: seq<Record>): nat {
    if todo == [] then 0
    else One(Outdated(h.rows, h.known, todo[0], h.pc.Loading?)) + OutdatedIn(h, todo[1..])
  }

  // The row of the job being run was changed by another thread since its check.
  ghost predicate Overtaken(h: Host) {
    (h.pc.Working? || h.pc.Reporting? || h.pc.Failing?) && h.pc.job.id in h.rows && !RowIs(h, h.pc.job.id, Queued)
  }

  // A miss is being reported of a file whose text came back in the meantime.
  ghost predicate Recovered(w: World) {
    w.h.pc.Reporting? && w.h.pc.outcome.CacheMiss? && w.h.pc.job.file.Some? && w.h.pc.job.file.value in w.text
  }

  /** Left over from before the run was calm; each is met at most once. */
  ghost function Leftovers(w: World): nat {
    OutdatedIn(w.h, Todo(w.h)) + One(Overtaken(w.h)) + One(Recovered(w))
  }
}
