/** Index jobs as the catalog and the in-memory scheduler both see them. */
module Jobs {
  import opened Common

  // Identifiers are only compared, never computed with.
  type JobId = nat
  type FileId = nat
  type SourceId = nat

  datatype Kind = Scan | Extract | Chunk | Keyword | Embedding | Cleanup | Repair

  datatype Status =
    | Queued | Running | Paused | Blocked | Waiting
    | Succeeded | Failed | Canceled

  // Statuses a job never leaves by anything but the loop's own writes.
  predicate Finished(st: Status) {
    st.Succeeded? || st.Failed? || st.Canceled?
  }

  /** One `index_jobs` row. */
  datatype Row = Row(status: Status, source: Option<SourceId>, file: Option<FileId>, kind: Kind)

  /** A row together with its id, as the listing queries return it. */
  datatype Record = Record(id: JobId, row: Row)

  /** The in-memory copy the scheduler dispatches. */
  datatype Job = Job(id: JobId, source: SourceId, file: Option<FileId>, kind: Kind,
                     priority: nat, attempts: nat)

  const MAX_JOB_ATTEMPTS: nat := 3

  // Queue indices, in dispatch order.
  const SCAN: nat := 0
  const EXTRACT: nat := 1
  const CHUNK: nat := 2
  const KEYWORD: nat := 3
  const EMBEDDING: nat := 4
  const MAINTENANCE: nat := 5
  const QUEUES: nat := 6

  function QueueOf(kind: Kind): (q: nat)
    ensures q < QUEUES
  {
    match kind
    case Scan => SCAN
    case Extract => EXTRACT
    case Chunk => CHUNK
    case Keyword => KEYWORD
    case Embedding => EMBEDDING
    case Cleanup => MAINTENANCE
    case Repair => MAINTENANCE
  }

  function Capacity(q: nat): nat
    requires q < QUEUES
  {
    if q == SCAN then 10_000 else if q == EMBEDDING then 2_000 else if q == MAINTENANCE then 200 else 1_000
  }

  function DefaultPriority(kind: Kind): nat {
    match kind
    case Scan => 2
    case Extract => 2
    case Chunk => 2
    case Keyword => 2
    case Embedding => 1
    case Cleanup => 0
    case Repair => 0
  }

  /** What a rehydration pass loads from a row; nothing for a row without a source. */
  function JobFromRecord(r: Record): Option<Job> {
    match r.row.source
    case None => None
    case Some(source) =>
      Some(Job(r.id, source, r.row.file, r.row.kind, DefaultPriority(r.row.kind), 0))
  }

  // How many jobs of the sequence have this id.
  ghost function Count(jobs: seq<Job>, id: JobId): nat {
    if jobs == [] then 0
    else Count(jobs[..|jobs| - 1], id) + if jobs[|jobs| - 1].id == id then 1 else 0
  }

  lemma {:induction false} CountAppend(a: seq<Job>, j: Job, id: JobId)
    ensures Count(a + [j], id) == Count(a, id) + if j.id == id then 1 else 0
  {
    assert (a + [j])[..|a|] == a;
  }

  lemma {:induction false} CountConcat(a: seq<Job>, b: seq<Job>, id: JobId)
    ensures Count(a + b, id) == Count(a, id) + Count(b, id)
  {
    if b == [] {
      assert a + b == a;
    } else {
      var b' := b[..|b| - 1];
      assert (a + b)[..|a + b| - 1] == a + b';
      CountConcat(a, b', id);
    }
  }

  lemma CountWithout(s: seq<Job>, i: nat, id: JobId)
    requires i < |s|
    ensures Count(s, id) == Count(Without(s, i), id) + if s[i].id == id then 1 else 0
  {
    SplitAt(s, i);
    CountConcat(s[..i] + [s[i]], s[i + 1..], id);
    CountAppend(s[..i], s[i], id);
    CountConcat(s[..i], s[i + 1..], id);
  }

  lemma {:induction false} CountMember(s: seq<Job>, i: nat)
    requires i < |s|
    ensures Count(s, s[i].id) >= 1
  {
    if i < |s| - 1 { CountMember(s[..|s| - 1], i); }
  }

  // The sum of what each job weighs.
  ghost function Sum(jobs: seq<Job>, weight: Job -> nat): nat {
    if jobs == [] then 0 else Sum(jobs[..|jobs| - 1], weight) + weight(jobs[|jobs| - 1])
  }

  lemma {:induction false} SumAppend(a: seq<Job>, j: Job, weight: Job -> nat)
    ensures Sum(a + [j], weight) == Sum(a, weight) + weight(j)
  {
    assert (a + [j])[..|a|] == a;
  }

  lemma {:induction false} SumConcat(a: seq<Job>, b: seq<Job>, weight: Job -> nat)
    ensures Sum(a + b, weight) == Sum(a, weight) + Sum(b, weight)
  {
    if b == [] {
      assert a + b == a;
    } else {
      var b' := b[..|b| - 1];
      assert (a + b)[..|a + b| - 1] == a + b';
      SumConcat(a, b', weight);
    }
  }

  lemma SumWithout(s: seq<Job>, i: nat, weight: Job -> nat)
    requires i < |s|
    ensures Sum(s, weight) == Sum(Without(s, i), weight) + weight(s[i])
  {
    var a, j, b := s[..i], s[i], s[i + 1..];
    SplitAt(s, i);
    SumConcat(a + [j], b, weight);
    SumAppend(a, j, weight);
    SumConcat(a, b, weight);
  }
}
