/** The measure falls with every job that runs, and rises with nothing that can happen again. */
module DrainTheorem {
  import opened Common
  import opened Jobs
  import opened BoundedQueues
  import opened HostModel
  import opened HostSafety
  import opened HostTracking
  import opened HostRuns
  import opened Drain
  import opened DrainMeasure
  import opened DrainProof

  // ---- Running a job ----------------------------------------------------------------------

  // One attempt pays for the rows it inserts, of a kind whose full weight is `each`.
  lemma WorkedCarries(h: Host, files: nat, rows: map<JobId, Row>, outcome: Outcome, kind: Kind, among: set<FileId>, most: nat, each: nat)
    requires Shape(h) && h.pc.Working? && Adds(h.rows, rows, kind, among, most) && each == Cost(0, kind, files)
    ensures Carried(DoWork(h, rows, outcome), files) + Unit(h.pc.job.kind, files) <= Carried(h, files) + Times(each, most)
  {
    TotalAdds(h.rows, rows, h.known, files, kind, among, most, each);
    WorkedHand(h, rows, outcome, files);
  }

  lemma WorkedHand(h: Host, rows: map<JobId, Row>, outcome: Outcome, files: nat)
    requires Shape(h) && h.pc.Working?
    ensures var h' := DoWork(h, rows, outcome);
            && h'.rows == rows && h'.known == h.known && h'.queues == h.queues
            && Hand(h', files) + Unit(h.pc.job.kind, files) == Hand(h, files)
  {
    assert Active(h).value == h.pc.job;
  }

  ghost function Worked(w: World, rows: map<JobId, Row>, outcome: Outcome, text: set<FileId>, stale: set<FileId>): World
    requires w.h.pc.Working?
  {
    w.(h := DoWork(w.h, rows, outcome), text := text, stale := stale)
  }

  // A read is reported of a job whose text was there.
  ghost predicate HadText(w: World, outcome: Outcome)
    requires w.h.pc.Working?
  {
    outcome.Done? && ReadsText(w.h.pc.job.kind) && w.h.pc.job.file.Some? ==> w.h.pc.job.file.value in w.text
  }

  lemma ReadHadText(w: World, rows: map<JobId, Row>, outcome: Outcome, text: set<FileId>, stale: set<FileId>)
    requires w.h.pc.Working? && Worker(w, w.h.pc.job, rows, outcome, text, stale)
    ensures HadText(w, outcome)
  {
  }

  lemma UnionSize<T>(a: set<T>, b: set<T>)
    ensures |a + b| <= |a| + |b|
  {
    assert a + b == a + (b - a);
    SubsetSize(b - a, b);
  }

  // Only files whose text goes are exposed to a new miss.
  lemma WorkedExposed(w: World, rows: map<JobId, Row>, outcome: Outcome, text: set<FileId>, stale: set<FileId>, lost: set<FileId>)
    requires w.h.pc.Working? && HadText(w, outcome)
    requires w.text * w.files - lost <= text
    ensures |Exposed(Worked(w, rows, outcome, text, stale))| <= |Exposed(w)| + |lost|
  {
    var w' := Worked(w, rows, outcome, text, stale);
    assert w'.h.guard == w.h.guard;
    assert Exposed(w') <= Exposed(w) + lost;
    SubsetSize(Exposed(w'), Exposed(w) + lost);
    UnionSize(Exposed(w), lost);
  }

  lemma RemovesAdds(rows: map<JobId, Row>, rows': map<JobId, Row>)
    requires OnlyRemoves(rows, rows')
    ensures Adds(rows, rows', Embedding, {}, 0)
  {
    assert rows'.Keys - rows.Keys == {};
  }

  // A worker that queues nothing.
  lemma QuietLess(w: World, rows: map<JobId, Row>, outcome: Outcome, text: set<FileId>, stale: set<FileId>)
    requires CalmInv(w) && w.h.pc.Working? && HadText(w, outcome)
    requires OnlyRemoves(w.h.rows, rows) && w.text <= text && stale <= w.stale
    ensures Debt(Worked(w, rows, outcome, text, stale)) < Debt(w)
  {
    QuietCarriesLess(w.h, |w.files|, rows, outcome);
    assert |Exposed(Worked(w, rows, outcome, text, stale))| <= |Exposed(w)| by {
      WorkedExposed(w, rows, outcome, text, stale, {});
    }
    assert |stale| <= |w.stale| by { SubsetSize(stale, w.stale); }
  }

  lemma QuietCarriesLess(h: Host, files: nat, rows: map<JobId, Row>, outcome: Outcome)
    requires Shape(h) && h.pc.Working? && OnlyRemoves(h.rows, rows)
    ensures Carried(DoWork(h, rows, outcome), files) < Carried(h, files)
  {
    RemovesAdds(h.rows, rows);
    WorkedCarries(h, files, rows, outcome, Embedding, {}, 0, 3);
    assert Unit(h.pc.job.kind, files) > 0;
  }

  // A scan pays for one extraction of every file and for the text of every file.
  lemma ScanLess(w: World, rows: map<JobId, Row>, outcome: Outcome, text: set<FileId>, stale: set<FileId>)
    requires CalmInv(w) && w.h.pc.Working? && HadText(w, outcome) && w.h.pc.job.kind.Scan?
    requires Adds(w.h.rows, rows, Extract, w.files, |w.files|) && stale <= w.stale
    ensures Debt(Worked(w, rows, outcome, text, stale)) < Debt(w)
  {
    ScanCarries(w.h, w.files, rows, outcome);
    assert |Exposed(Worked(w, rows, outcome, text, stale))| <= |Exposed(w)| + |w.files| by {
      WorkedExposed(w, rows, outcome, text, stale, w.files);
    }
    assert |stale| <= |w.stale| by { SubsetSize(stale, w.stale); }
  }

  lemma ScanCarries(h: Host, files: set<FileId>, rows: map<JobId, Row>, outcome: Outcome)
    requires Shape(h) && h.pc.Working? && h.pc.job.kind.Scan? && Adds(h.rows, rows, Extract, files, |files|)
    ensures Carried(DoWork(h, rows, outcome), |files|) + 39 * |files| < Carried(h, |files|)
  {
    WorkedCarries(h, |files|, rows, outcome, Extract, files, |files|, 39);
    TimesExtract(|files|);
  }

  // Any other worker pays for the one row it queues, whose full weight is `each`.
  lemma OneLess(w: World, rows: map<JobId, Row>, outcome: Outcome, text: set<FileId>, stale: set<FileId>, kind: Kind, f: FileId, each: nat)
    requires CalmInv(w) && w.h.pc.Working? && HadText(w, outcome)
    requires Adds(w.h.rows, rows, kind, {f}, 1) && each == Cost(0, kind, |w.files|) < Unit(w.h.pc.job.kind, |w.files|)
    requires w.text <= text && stale <= w.stale
    ensures Debt(Worked(w, rows, outcome, text, stale)) < Debt(w)
  {
    AddOneCarries(w.h, |w.files|, rows, outcome, kind, f, each);
    assert |Exposed(Worked(w, rows, outcome, text, stale))| <= |Exposed(w)| by {
      WorkedExposed(w, rows, outcome, text, stale, {});
    }
    assert |stale| <= |w.stale| by { SubsetSize(stale, w.stale); }
  }

  lemma OneTime(each: nat)
    ensures Times(each, 1) == each
  {
  }

  lemma OneFewer(f: FileId, s: set<FileId>)
    requires f in s
    ensures |{f}| == 1 && |s - {f}| == |s| - 1
  {
  }

  // Forgetting a text pays with the outdated file for its extraction and for another miss of it.
  lemma ForgetLess(w: World, rows: map<JobId, Row>, outcome: Outcome, text: set<FileId>, stale: set<FileId>, f: FileId)
    requires CalmInv(w) && w.h.pc.Working? && HadText(w, outcome)
    requires Adds(w.h.rows, rows, Extract, {f}, 1) && text == w.text - {f} && f in w.stale && stale == w.stale - {f}
    ensures Debt(Worked(w, rows, outcome, text, stale)) < Debt(w)
  {
    assert |Exposed(Worked(w, rows, outcome, text, stale))| <= |Exposed(w)| + |{f}| by {
      WorkedExposed(w, rows, outcome, text, stale, {f});
    }
    OneFewer(f, w.stale);
    ForgetCarries(w.h, |w.files|, rows, outcome, f);
  }

  lemma AddOneCarries(h: Host, files: nat, rows: map<JobId, Row>, outcome: Outcome, kind: Kind, f: FileId, each: nat)
    requires Shape(h) && h.pc.Working? && Adds(h.rows, rows, kind, {f}, 1) && each == Cost(0, kind, files)
    ensures Carried(DoWork(h, rows, outcome), files) + Unit(h.pc.job.kind, files) <= Carried(h, files) + each
  {
    WorkedCarries(h, files, rows, outcome, kind, {f}, 1, each);
    OneTime(each);
  }

  lemma ForgetCarries(h: Host, files: nat, rows: map<JobId, Row>, outcome: Outcome, f: FileId)
    requires Shape(h) && h.pc.Working? && Adds(h.rows, rows, Extract, {f}, 1)
    ensures Carried(DoWork(h, rows, outcome), files) < Carried(h, files) + 39
  {
    AddOneCarries(h, files, rows, outcome, Extract, f, 39);
    assert Unit(h.pc.job.kind, files) > 0;
  }

  /** Every executed job lowers the measure. */
  lemma WorkLess(w: World, rows: map<JobId, Row>, outcome: Outcome, text: set<FileId>, stale: set<FileId>)
    requires CalmInv(w) && w.h.pc.Working? && Worker(w, w.h.pc.job, rows, outcome, text, stale)
    ensures Debt(Worked(w, rows, outcome, text, stale)) < Debt(w)
  {
    ReadHadText(w, rows, outcome, text, stale);
    var job := w.h.pc.job;
    if job.kind.Scan? {
      ScanLess(w, rows, outcome, text, stale);
    } else if OnlyRemoves(w.h.rows, rows) && w.text <= text && stale <= w.stale {
      QuietLess(w, rows, outcome, text, stale);
    } else if job.kind.Extract? {
      OneLess(w, rows, outcome, text, stale, Chunk, job.file.value, 12);
    } else if stale == w.stale && text == w.text {
      OneLess(w, rows, outcome, text, stale, Embedding, job.file.value, 3);
    } else {
      ForgetLess(w, rows, outcome, text, stale, job.file.value);
    }
  }

  // ---- Reporting a miss -------------------------------------------------------------------

  /** The one extraction a miss sends back is paid for by the file the guard now holds. */
  lemma ClassifyNoMore(w: World, repair: Option<Record>)
    requires CalmInv(w) && w.h.pc.Reporting? && !w.h.pc.outcome.Done? && !Recovered(w)
    requires repair.Some? ==> RepairAllowed(w.h, repair.value)
    ensures Debt(w.(h := DoClassify(w.h, repair))) <= Debt(w)
  {
    var h' := DoClassify(w.h, repair);
    ClassifyExposed(w, repair);
    ClassifyHand(w.h, repair, |w.files|);
    if h'.rows != w.h.rows {
      ClassifyRows(w, repair);
      TotalAdds(w.h.rows, h'.rows, w.h.known, |w.files|, Extract, {w.h.pc.job.file.value}, 1, 39);
    }
  }

  lemma ClassifyHand(h: Host, repair: Option<Record>, files: nat)
    requires h.pc.Reporting? && !h.pc.outcome.Done?
    ensures var h' := DoClassify(h, repair);
            h'.known == h.known && h'.queues == h.queues && Hand(h', files) == Hand(h, files)
  {
    if Requeues(h, repair) { RequeueInserts(h, repair); } else { NothingRequeued(h, repair); }
  }

  lemma ClassifyExposed(w: World, repair: Option<Record>)
    requires CalmInv(w) && w.h.pc.Reporting? && !w.h.pc.outcome.Done? && !Recovered(w)
    ensures var w' := w.(h := DoClassify(w.h, repair));
            |Exposed(w')| + One(w'.h.rows != w.h.rows) <= |Exposed(w)|
  {
    var w' := w.(h := DoClassify(w.h, repair));
    ClassifyHolds(w.h, repair);
    if w'.h.rows != w.h.rows {
      ClassifyGuards(w, repair);
      var f := w.h.pc.job.file.value;
      assert f in Exposed(w) && Exposed(w') <= Exposed(w) - {f};
      SubsetSize(Exposed(w'), Exposed(w) - {f});
    } else {
      SubsetSize(Exposed(w'), Exposed(w));
    }
  }

  lemma ClassifyHolds(h: Host, repair: Option<Record>)
    requires h.pc.Reporting? && !h.pc.outcome.Done?
    ensures var h' := DoClassify(h, repair); h'.guard >= h.guard && Held(h) == h.guard && Held(h') == h'.guard
  {
  }

  // The re-queued extraction is of a file without text that the guard did not hold.
  lemma ClassifyGuards(w: World, repair: Option<Record>)
    requires CalmInv(w) && w.h.pc.Reporting? && !w.h.pc.outcome.Done? && !Recovered(w)
    requires DoClassify(w.h, repair).rows != w.h.rows
    ensures w.h.pc.job.file.Some?
    ensures var f := w.h.pc.job.file.value;
            f in w.files && f !in w.text && f !in w.h.guard && f in DoClassify(w.h, repair).guard
  {
    assert Active(w.h).value == w.h.pc.job;
  }

  lemma ClassifyRows(w: World, repair: Option<Record>)
    requires CalmInv(w) && w.h.pc.Reporting? && !w.h.pc.outcome.Done?
    requires repair.Some? ==> RepairAllowed(w.h, repair.value)
    requires DoClassify(w.h, repair).rows != w.h.rows
    ensures w.h.pc.job.file.Some?
    ensures Adds(w.h.rows, DoClassify(w.h, repair).rows, Extract, {w.h.pc.job.file.value}, 1)
  {
    var r := repair.value;
    assert DoClassify(w.h, repair).rows == w.h.rows[r.id := r.row] && r.id !in w.h.rows;
    AddsOne(w.h.rows, r, w.h.pc.job.file.value);
  }

  lemma AddsOne(rows: map<JobId, Row>, r: Record, f: FileId)
    requires r.id !in rows && r.row.source.Some? && r.row.kind == Extract && r.row.file == Some(f)
    ensures Adds(rows, rows[r.id := r.row], Extract, {f}, 1)
  {
    assert rows[r.id := r.row].Keys - rows.Keys == {r.id};
  }

  // ---- The other steps --------------------------------------------------------------------

  lemma TickCarries(h: Host, files: nat)
    requires h.pc.Top? || h.pc.Second?
    ensures Carried(DoTick(h), files) == Carried(h, files)
  {
    var q := TickQueue(h.queues, h.mode);
    if q.Some? { WeighPopped(h.queues, q.value, Price(files)); }
  }

  // A listed row that is loaded is carried in memory instead; blocked, it weighs what it weighed.
  lemma LoadCarries(h: Host, files: nat)
    requires h.pc.Loading? && h.pc.todo != [] && !Outdated(h.rows, h.known, h.pc.todo[0], true)
    ensures Carried(DoLoad(h, true), files) == Carried(h, files)
  {
    var r := h.pc.todo[0];
    var h', job := DoLoad(h, true), JobFromRecord(r);
    TotalOne(h.rows, h.known, h'.rows, h'.known, r.id, files);
    if job.Some? { WeighPushed(h.queues, job.value, Price(files)); }
  }

  lemma UnblockCarries(h: Host, files: nat)
    requires h.pc.Unblocking? && h.pc.todo != [] && !Outdated(h.rows, h.known, h.pc.todo[0], false)
    ensures Carried(DoUnblock(h, true), files) == Carried(h, files)
  {
    var r := h.pc.todo[0];
    var h', job := DoUnblock(h, true), JobFromRecord(r);
    TotalOne(h.rows, h.known, h'.rows, h'.known, r.id, files);
    if job.Some? { WeighPushed(h.queues, job.value, Price(files)); }
  }

  // A job whose row is no longer queued is dropped, and that is progress.
  lemma CheckCarries(h: Host, files: nat)
    requires Shape(h) && h.pc.Popped?
    ensures var h' := DoCheck(h, true);
            if h'.pc.Working? then Carried(h', files) == Carried(h, files) else Carried(h', files) < Carried(h, files)
  {
    var h' := DoCheck(h, true);
    assert Active(h).value == h.pc.job;
    if !h'.pc.Working? { TotalOne(h.rows, h.known, h'.rows, h'.known, h.pc.job.id, files); }
  }

  lemma CompleteCarries(h: Host, files: nat)
    requires h.pc.Reporting? && h.pc.outcome.Done?
    ensures Carried(DoComplete(h, true), files) <= Carried(h, files)
  {
    var h' := DoComplete(h, true);
    TotalOne(h.rows, h.known, h'.rows, h'.known, h.pc.job.id, files);
  }

  lemma RetryCarries(h: Host, files: nat)
    requires Shape(h) && h.pc.Failing? && !Overtaken(h)
    ensures Carried(DoRetry(h, true), files) <= Carried(h, files)
  {
    var h' := DoRetry(h, true);
    var job := h.pc.job.(attempts := h.pc.job.attempts + 1);
    assert HasRoom(h.queues, job.kind) by { assert Active(h).value == h.pc.job; }
    TotalOne(h.rows, h.known, h'.rows, h'.known, job.id, files);
    WeighPushed(h.queues, job, Price(files));
  }

  lemma GiveUpCarries(h: Host, files: nat)
    requires h.pc.Failing?
    ensures Carried(DoGiveUp(h, true), files) <= Carried(h, files)
  {
    var h' := DoGiveUp(h, true);
    TotalOne(h.rows, h.known, h'.rows, h'.known, h.pc.job.id, files);
  }

  lemma SettleCarries(h: Host, files: nat)
    requires Shape(h) && h.pc.Failing? && !Overtaken(h)
    ensures Carried(DoSettle(h, true), files) <= Carried(h, files)
  {
    if Retries(h.pc.job, h.pc.terminal) { RetryCarries(h, files); } else { GiveUpCarries(h, files); }
  }

  lemma QuietCarries(h: Host, a: Action, files: nat)
    requires Enabled(h, a) && (a.List? || a.Relist? || a.CountRows? || a.Trim? || (a.Unblock? && h.pc.todo == []))
    ensures Carried(Apply(h, a), files) == Carried(h, files)
  {
    match a
    case CountRows(ok) => assert DoCount(h, ok) == h.(pc := DoCount(h, ok).pc);
    case List(_, _) =>
    case Relist(_, _) =>
    case Trim =>
    case Unblock(_) =>
  }

  // Whether the step meets something left over from before the run was calm.
  ghost predicate Meets(w: World, a: Action) {
    || (a.Load? && w.h.pc.Loading? && w.h.pc.todo != [] && Outdated(w.h.rows, w.h.known, w.h.pc.todo[0], true))
    || (a.Unblock? && w.h.pc.Unblocking? && w.h.pc.todo != [] && Outdated(w.h.rows, w.h.known, w.h.pc.todo[0], false))
    || (a.Settle? && Overtaken(w.h))
    || (a.Classify? && Recovered(w))
  }

  lemma OtherCarries(w: World, a: Action)
    requires CalmInv(w) && Enabled(w.h, a) && Calm(a) && !a.Work? && !a.Classify? && !Meets(w, a)
    ensures Carried(Apply(w.h, a), |w.files|) <= Carried(w.h, |w.files|)
    ensures a.Check? && !Apply(w.h, a).pc.Working? ==> Carried(Apply(w.h, a), |w.files|) < Carried(w.h, |w.files|)
  {
    match a
    case Tick => TickCarries(w.h, |w.files|);
    case List(_, _) => QuietCarries(w.h, a, |w.files|);
    case Load(_) => LoadCarries(w.h, |w.files|);
    case Relist(_, _) => QuietCarries(w.h, a, |w.files|);
    case Unblock(_) => if w.h.pc.todo == [] { QuietCarries(w.h, a, |w.files|); } else { UnblockCarries(w.h, |w.files|); }
    case CountRows(_) => QuietCarries(w.h, a, |w.files|);
    case Trim => QuietCarries(w.h, a, |w.files|);
    case Check(_) => CheckCarries(w.h, |w.files|);
    case Complete(_) => CompleteCarries(w.h, |w.files|);
    case Settle(_) => SettleCarries(w.h, |w.files|);
  }

  lemma PassHeld(h: Host)
    ensures h.pc.Loading? && h.pc.todo != [] ==> Held(DoLoad(h, true)) == h.guard
    ensures h.pc.Unblocking? && h.pc.todo != [] ==> Held(DoUnblock(h, true)) == h.guard
    ensures h.pc.Top? || h.pc.Second? ==> Held(DoTick(h)) == h.guard
  {
  }

  lemma JobHeld(h: Host)
    ensures h.pc.Popped? ==> Held(DoCheck(h, true)) == h.guard
    ensures h.pc.Counting? && h.pc.i < |UNFINISHED| ==> Held(DoCount(h, true)) == h.guard
    ensures h.pc.Reporting? && h.pc.outcome.Done? ==> Held(DoComplete(h, true)) == Held(h)
    ensures h.pc.Failing? ==> Held(DoSettle(h, true)) == h.guard
  {
  }

  lemma SameHeld(h: Host, a: Action)
    requires Enabled(h, a) && Calm(a) && !a.Work? && !a.Classify?
    ensures Held(Apply(h, a)) == Held(h)
  {
    match a
    case Tick => PassHeld(h);
    case Load(_) => PassHeld(h);
    case Unblock(_) => if h.pc.todo != [] { PassHeld(h); }
    case Check(_) => JobHeld(h);
    case Settle(_) => JobHeld(h);
    case Complete(_) => JobHeld(h);
    case CountRows(_) => JobHeld(h);
    case List(_, _) =>
    case Relist(_, _) =>
    case Trim =>
  }

  /** Steps that run no job, trim nothing and meet nothing left over never raise the measure. */
  lemma OtherNoMore(w: World, a: Action)
    requires CalmInv(w) && Enabled(w.h, a) && Calm(a) && !a.Work? && !Meets(w, a)
    ensures Debt(w.(h := Apply(w.h, a))) <= Debt(w)
    ensures a.Check? && !Apply(w.h, a).pc.Working? ==> Debt(w.(h := Apply(w.h, a))) < Debt(w)
  {
    if a.Classify? {
      ClassifyNoMore(w, a.repair);
    } else {
      SameHeld(w.h, a);
      assert Exposed(w.(h := Apply(w.h, a))) == Exposed(w);
      OtherCarries(w, a);
    }
  }

  // ---- Leftovers --------------------------------------------------------------------------

  lemma {:induction false} RestSame(h: Host, h': Host, todo: seq<Record>, id: JobId)
    requires h'.pc.Loading? == h.pc.Loading?
    requires forall i :: 0 <= i < |todo| ==> todo[i].id != id
    requires forall x :: x != id ==> (x in h'.known <==> x in h.known) && (x in h'.rows <==> x in h.rows)
    requires forall x <- h.rows :: x != id ==> h'.rows[x] == h.rows[x]
    ensures OutdatedIn(h', todo) == OutdatedIn(h, todo)
  {
    if todo != [] {
      assert todo[0].id != id;
      forall i | 0 <= i < |todo| - 1 ensures todo[1..][i].id != id { assert todo[1..][i] == todo[i + 1]; }
      RestSame(h, h', todo[1..], id);
    }
  }

  lemma {:induction false} NoneOutdated(h: Host, todo: seq<Record>)
    requires forall i :: 0 <= i < |todo| ==> !Outdated(h.rows, h.known, todo[i], h.pc.Loading?)
    ensures OutdatedIn(h, todo) == 0
  {
    if todo != [] {
      forall i | 0 <= i < |todo| - 1 ensures !Outdated(h.rows, h.known, todo[1..][i], h.pc.Loading?) {
        assert todo[1..][i] == todo[i + 1];
      }
      NoneOutdated(h, todo[1..]);
    }
  }

  lemma LoadOutdated(h: Host)
    requires h.pc.Loading? && h.pc.todo != [] && Distinct(h.pc.todo)
    ensures OutdatedIn(DoLoad(h, true), h.pc.todo[1..]) == OutdatedIn(h, h.pc.todo[1..])
  {
    var r, rest := h.pc.todo[0], h.pc.todo[1..];
    forall i | 0 <= i < |rest| ensures rest[i].id != r.id { assert rest[i] == h.pc.todo[i + 1]; }
    RestSame(h, DoLoad(h, true), rest, r.id);
  }

  lemma UnblockOutdated(h: Host)
    requires h.pc.Unblocking? && h.pc.todo != [] && Distinct(h.pc.todo)
    ensures OutdatedIn(DoUnblock(h, true), h.pc.todo[1..]) == OutdatedIn(h, h.pc.todo[1..])
  {
    var r, rest := h.pc.todo[0], h.pc.todo[1..];
    forall i | 0 <= i < |rest| ensures rest[i].id != r.id { assert rest[i] == h.pc.todo[i + 1]; }
    RestSame(h, DoUnblock(h, true), rest, r.id);
  }

  lemma ListLeftovers(w: World, todo: seq<Record>)
    requires Active(w.h).None?
    ensures w.h.pc.Listing? && Enumerates(todo, w.h.rows, Queued) ==> Leftovers(w.(h := w.h.(pc := Loading(todo)))) == 0
    ensures w.h.pc.Loading? && Enumerates(todo, w.h.rows, Blocked) ==> Leftovers(w.(h := w.h.(pc := Unblocking(todo)))) == 0
  {
    if w.h.pc.Listing? && Enumerates(todo, w.h.rows, Queued) { NoneOutdated(w.h.(pc := Loading(todo)), todo); }
    if w.h.pc.Loading? && Enumerates(todo, w.h.rows, Blocked) { NoneOutdated(w.h.(pc := Unblocking(todo)), todo); }
  }

  // Loading a record leaves one fewer to meet, if it was outdated.
  lemma LoadLeftovers(w: World)
    requires w.h.pc.Loading? && w.h.pc.todo != [] && Distinct(w.h.pc.todo)
    ensures Leftovers(w.(h := DoLoad(w.h, true))) + One(Outdated(w.h.rows, w.h.known, w.h.pc.todo[0], true)) == Leftovers(w)
  {
    LoadOutdated(w.h);
    ListShortens(w.h, true);
  }

  lemma UnblockLeftovers(w: World)
    requires w.h.pc.Unblocking? && w.h.pc.todo != [] && Distinct(w.h.pc.todo)
    ensures Leftovers(w.(h := DoUnblock(w.h, true))) + One(Outdated(w.h.rows, w.h.known, w.h.pc.todo[0], false)) == Leftovers(w)
  {
    UnblockOutdated(w.h);
    ListShortens(w.h, true);
  }

  lemma PassLeftovers(w: World, a: Action)
    requires CalmInv(w) && Enabled(w.h, a) && Calm(a) && (a.List? || a.Load? || a.Relist? || a.Unblock?)
    ensures var w' := w.(h := Apply(w.h, a)); Leftovers(w') + One(Meets(w, a)) <= Leftovers(w)
  {
    match a
    case List(_, todo) => ListLeftovers(w, todo);
    case Load(_) => LoadLeftovers(w);
    case Relist(_, todo) => ListLeftovers(w, todo);
    case Unblock(_) => if w.h.pc.todo != [] { UnblockLeftovers(w); }
  }

  lemma CheckLeftovers(w: World)
    ensures w.h.pc.Popped? ==> Leftovers(w.(h := DoCheck(w.h, true))) == 0
    ensures w.h.pc.Top? || w.h.pc.Second? ==> Leftovers(w.(h := DoTick(w.h))) == 0
    ensures w.h.pc.Counting? && w.h.pc.i < |UNFINISHED| ==> Leftovers(w.(h := DoCount(w.h, true))) == 0
  {
  }

  lemma MissHadNoText(w: World, rows: map<JobId, Row>, outcome: Outcome, text: set<FileId>, stale: set<FileId>)
    requires w.h.pc.Working? && Worker(w, w.h.pc.job, rows, outcome, text, stale)
    ensures !Recovered(Worked(w, rows, outcome, text, stale))
  {
  }

  lemma WorkKeepsRow(w: World, rows: map<JobId, Row>, outcome: Outcome, text: set<FileId>, stale: set<FileId>)
    requires w.h.pc.Working? && Worker(w, w.h.pc.job, rows, outcome, text, stale) && Interference(w.h.rows, w.h.issued, rows)
    ensures Overtaken(Worked(w, rows, outcome, text, stale).h) ==> Overtaken(w.h)
  {
    var id := w.h.pc.job.id;
    assert id in rows ==> if id in w.h.rows then rows[id] == w.h.rows[id] else rows[id].status == Queued;
  }

  lemma WorkLeftovers(w: World, rows: map<JobId, Row>, outcome: Outcome, text: set<FileId>, stale: set<FileId>)
    requires w.h.pc.Working? && Worker(w, w.h.pc.job, rows, outcome, text, stale) && Interference(w.h.rows, w.h.issued, rows)
    ensures Leftovers(Worked(w, rows, outcome, text, stale)) <= Leftovers(w)
  {
    MissHadNoText(w, rows, outcome, text, stale);
    WorkKeepsRow(w, rows, outcome, text, stale);
    assert Todo(Worked(w, rows, outcome, text, stale).h) == [];
  }

  lemma SettledLeftovers(w: World)
    ensures w.h.pc.Reporting? ==> Leftovers(w.(h := DoComplete(w.h, true))) == 0
    ensures w.h.pc.Failing? ==> Leftovers(w.(h := DoSettle(w.h, true))) == 0
  {
  }

  lemma ClassifyLeftovers(w: World, repair: Option<Record>)
    requires CalmInv(w) && w.h.pc.Reporting? && !w.h.pc.outcome.Done?
    requires repair.Some? ==> RepairAllowed(w.h, repair.value)
    ensures Leftovers(w.(h := DoClassify(w.h, repair))) + One(Recovered(w)) <= Leftovers(w)
  {
    var h' := DoClassify(w.h, repair);
    var id := w.h.pc.job.id;
    RepairInterferes(w.h, repair);
    assert id in h'.rows ==> if id in w.h.rows then h'.rows[id] == w.h.rows[id] else h'.rows[id].status == Queued;
    ClassifyChanges(w.h, repair);
    assert Todo(h') == [];
  }

  /** What is left over is met at most once, and nothing is left over anew. */
  lemma FewerLeftovers(w: World, a: Action, text: set<FileId>, stale: set<FileId>)
    requires CalmInv(w) && CalmAction(w, a, text, stale)
    ensures Leftovers(Moved(w, a, text, stale)) + One(Meets(w, a)) <= Leftovers(w)
  {
    match a
    case Work(rows, outcome) => WorkLeftovers(w, rows, outcome, text, stale);
    case Classify(repair) => ClassifyLeftovers(w, repair);
    case Complete(_) => SettledLeftovers(w);
    case Settle(_) => SettledLeftovers(w);
    case Check(_) => CheckLeftovers(w);
    case Tick => CheckLeftovers(w);
    case CountRows(_) => CheckLeftovers(w);
    case Trim => assert Todo(w.h.(pc := Top, trimmed := true, trims := w.h.trims + 1)) == [];
    case List(_, _) => PassLeftovers(w, a);
    case Load(_) => PassLeftovers(w, a);
    case Relist(_, _) => PassLeftovers(w, a);
    case Unblock(_) => PassLeftovers(w, a);
  }

  // ---- Coming to rest ---------------------------------------------------------------------

  // Steps that run no job move through the iteration.
  function Stage(pc: Pc): nat {
    match pc
    case Reporting(_, _) => 12
    case Failing(_, _) => 11
    case Top => 10
    case Listing => 9
    case Loading(_) => 8
    case Unblocking(_) => 7
    case Second => 6
    case Popped(_) => 5
    case Working(_) => 4
    case Counting(_, _) => 3
  }

  // How much of the list, or of the idle check, remains.
  function Rest(pc: Pc): nat {
    match pc
    case Loading(todo) => |todo|
    case Unblocking(todo) => |todo|
    case Counting(i, _) => if i < |UNFINISHED| then |UNFINISHED| - i else 0
    case _ => 0
  }

  // A pass that was not calm from its start may have missed a row; then an idle check may follow it.
  ghost function Phase(h: Host): nat {
    if !AllPass(h) then 2 else One(h.pc.Counting?)
  }

  lemma PassMoves(h: Host)
    ensures h.pc.Top? || (h.pc.Second? && TickQueue(h.queues, h.mode).Some?) ==> Stage(DoTick(h).pc) < Stage(h.pc)
    ensures h.pc.Loading? && h.pc.todo != [] ==> DoLoad(h, true).pc == Loading(h.pc.todo[1..])
    ensures h.pc.Unblocking? && h.pc.todo != [] ==> DoUnblock(h, true).pc == Unblocking(h.pc.todo[1..])
  {
  }

  lemma ReportMoves(h: Host, repair: Option<Record>)
    ensures h.pc.Reporting? ==> DoComplete(h, true).pc == Top
    ensures h.pc.Reporting? && !h.pc.outcome.Done? ==> DoClassify(h, repair).pc.Failing?
    ensures h.pc.Failing? ==> DoSettle(h, true).pc == Top
  {
  }

  lemma StageFalls(h: Host, a: Action)
    requires Enabled(h, a) && Calm(a) && !a.Work? && !a.Trim?
    requires a.Tick? && h.pc.Second? ==> TickQueue(h.queues, h.mode).Some?
    requires a.Check? ==> Apply(h, a).pc.Working?
    requires a.CountRows? ==> Apply(h, a).pc.Counting?
    ensures var pc := Apply(h, a).pc; Stage(pc) < Stage(h.pc) || (Stage(pc) == Stage(h.pc) && Rest(pc) < Rest(h.pc))
  {
    match a
    case Tick => PassMoves(h);
    case Load(_) => PassMoves(h);
    case Unblock(_) => if h.pc.todo != [] { PassMoves(h); }
    case Check(_) =>
    case CountRows(_) =>
    case Complete(_) => ReportMoves(h, None);
    case Settle(_) => ReportMoves(h, None);
    case Classify(repair) => ReportMoves(h, repair);
    case List(_, _) =>
    case Relist(_, _) =>
  }

  lemma KeepsAllPass(h: Host, a: Action)
    requires Enabled(h, a) && Calm(a) && AllPass(h)
    ensures AllPass(Apply(h, a))
  {
    forall id ensures Pass(Apply(h, a), id) { KeepsPass(h, a, id); }
  }

  // Where the phase ends: a missed row no longer matters, or the idle check is over.
  ghost predicate Ends(h: Host, a: Action) {
    || (a.Tick? && h.pc.Second? && TickQueue(h.queues, h.mode).None?)
    || a.Trim? || (a.CountRows? && Enabled(h, a) && !Apply(h, a).pc.Counting?)
  }

  lemma PhaseFalls(h: Host, a: Action)
    requires Enabled(h, a) && Calm(a)
    requires !(h.pc.Second? && TickQueue(h.queues, h.mode).None? && AllPass(h))
    ensures Phase(Apply(h, a)) <= Phase(h) && (Ends(h, a) ==> Phase(Apply(h, a)) < Phase(h))
  {
    if AllPass(h) { KeepsAllPass(h, a); }
    if h.pc.Counting? || h.pc.Second? { EndsPass(h, a); }
    if Apply(h, a).pc.Counting? { CountingFrom(h, a); }
  }

  lemma EndsPass(h: Host, a: Action)
    requires Enabled(h, a) && Calm(a) && (h.pc.Counting? || h.pc.Second?)
    ensures AllPass(Apply(h, a))
  {
    NoPass(h, a);
  }

  lemma CountingFrom(h: Host, a: Action)
    requires Enabled(h, a) && Calm(a) && Apply(h, a).pc.Counting?
    ensures a.CountRows? || (a.Tick? && h.pc.Second? && TickQueue(h.queues, h.mode).None?)
  {
  }

  // One calm step, in the order the proof of rest goes by.
  ghost predicate Falls(w: World, w': World) {
    || Phase(w'.h) < Phase(w.h)
    || (Phase(w'.h) == Phase(w.h) &&
        (|| Leftovers(w') < Leftovers(w)
         || (Leftovers(w') == Leftovers(w) &&
             (|| Debt(w') < Debt(w)
              || (Debt(w') == Debt(w) &&
                  (|| Stage(w'.h.pc) < Stage(w.h.pc)
                   || (Stage(w'.h.pc) == Stage(w.h.pc) && Rest(w'.h.pc) < Rest(w.h.pc))))))))
  }

  lemma StepFalls(w: World, a: Action, text: set<FileId>, stale: set<FileId>)
    requires CalmInv(w) && CalmAction(w, a, text, stale)
    requires !(w.h.pc.Second? && TickQueue(w.h.queues, w.h.mode).None? && AllPass(w.h))
    ensures Falls(w, Moved(w, a, text, stale))
  {
    PhaseFalls(w.h, a);
    FewerLeftovers(w, a, text, stale);
    if Ends(w.h, a) || Meets(w, a) {
    } else if a.Work? {
      WorkLess(w, a.rows, a.outcome, text, stale);
      assert Moved(w, a, text, stale) == Worked(w, a.rows, a.outcome, text, stale);
    } else {
      OtherNoMore(w, a);
      assert Moved(w, a, text, stale) == w.(h := Apply(w.h, a));
      if !(a.Check? && !Apply(w.h, a).pc.Working?) { StageFalls(w.h, a); }
    }
  }

  lemma {:induction false} ComesToRest(run: nat -> World, i: nat) returns (j: nat)
    requires CalmRun(run) && CalmInv(run(i))
    ensures j >= i && CalmInv(run(j)) && AllPass(run(j).h)
    ensures run(j).h.pc.Second? && TickQueue(run(j).h.queues, run(j).h.mode).None?
    decreases Phase(run(i).h), Leftovers(run(i)), Debt(run(i)), Stage(run(i).h.pc), Rest(run(i).h.pc)
  {
    var w := run(i);
    if w.h.pc.Second? && TickQueue(w.h.queues, w.h.mode).None? && AllPass(w.h) {
      return i;
    }
    var _, w' := CalmNext(run, i);
    var a :| CalmAction(w, a, w'.text, w'.stale) && w' == Moved(w, a, w'.text, w'.stale);
    KeepsCalm(w, a, w'.text, w'.stale);
    StepFalls(w, a, w'.text, w'.stale);
    j := ComesToRest(run, i + 1);
  }

  // ---- Staying at rest --------------------------------------------------------------------

  // A row that a pass would neither load nor block.
  ghost predicate LeftAlone(h: Host, id: JobId) {
    id in h.rows && h.rows[id].source.Some? ==>
      && (RowIs(h, id, Queued) ==> id in h.known)
      && (RowIs(h, id, Blocked) ==> !HasRoom(h.queues, h.rows[id].kind))
  }

  ghost predicate RecordAlone(h: Host, r: Record) {
    r.row.source.None? || if h.pc.Loading? then r.id in h.known else !HasRoom(h.queues, r.row.kind)
  }

  ghost predicate AtRest(h: Host) {
    && Active(h).None? && TickQueue(h.queues, h.mode).None?
    && (forall id :: LeftAlone(h, id))
    && forall i :: 0 <= i < |Todo(h)| ==> RecordAlone(h, Todo(h)[i])
  }

  // Everything but where the loop is, and whether it has trimmed.
  ghost predicate SameWork(h: Host, h': Host) {
    h' == h.(pc := h'.pc, trimmed := h'.trimmed, trims := h'.trims)
  }

  lemma RestStays(h: Host, a: Action)
    requires AtRest(h) && Enabled(h, a) && Calm(a)
    ensures AtRest(Apply(h, a)) && SameWork(h, Apply(h, a))
  {
    match a
    case Load(ok) => PassStays(h, a);
    case Unblock(ok) => if h.pc.todo != [] { PassStays(h, a); } else { SameStays(h, Apply(h, a)); }
    case List(_, todo) => ListStays(h, todo, true);
    case Relist(_, todo) => ListStays(h, todo, false);
    case Tick => SameStays(h, DoTick(h));
    case CountRows(ok) => SameStays(h, DoCount(h, ok));
    case Trim => SameStays(h, Apply(h, a));
  }

  lemma SameStays(h: Host, h': Host)
    requires AtRest(h) && SameWork(h, h') && Active(h').None? && Todo(h') == []
    ensures AtRest(h')
  {
    forall id ensures LeftAlone(h', id) { assert LeftAlone(h, id); }
  }

  lemma ListStays(h: Host, todo: seq<Record>, loading: bool)
    requires AtRest(h) && Active(h).None? && Enumerates(todo, h.rows, if loading then Queued else Blocked)
    ensures var h' := h.(pc := if loading then Loading(todo) else Unblocking(todo)); AtRest(h')
  {
    var h' := h.(pc := if loading then Loading(todo) else Unblocking(todo));
    forall i | 0 <= i < |todo| ensures RecordAlone(h', todo[i]) { assert LeftAlone(h, todo[i].id); }
    forall id ensures LeftAlone(h', id) { assert LeftAlone(h, id); }
  }

  lemma PassStays(h: Host, a: Action)
    requires AtRest(h) && Enabled(h, a) && Calm(a) && (a.Load? || a.Unblock?) && h.pc.todo != []
    ensures AtRest(Apply(h, a)) && SameWork(h, Apply(h, a))
  {
    assert Todo(h) == h.pc.todo && RecordAlone(h, Todo(h)[0]);
    var h' := Apply(h, a);
    assert h' == h.(pc := h'.pc) && Todo(h') == h.pc.todo[1..];
    forall i | 0 <= i < |Todo(h')| ensures RecordAlone(h', Todo(h')[i]) { assert Todo(h')[i] == Todo(h)[i + 1]; }
    forall id ensures LeftAlone(h', id) { assert LeftAlone(h, id); }
  }

  lemma PassedRests(h: Host)
    requires AllPass(h) && h.pc.Second? && TickQueue(h.queues, h.mode).None?
    ensures AtRest(h)
  {
    forall id ensures LeftAlone(h, id) { assert Pass(h, id); }
  }

  // One step of a calm run.
  lemma CalmNext(run: nat -> World, k: nat) returns (w: World, w': World)
    requires CalmRun(run)
    ensures w == run(k) && w' == run(k + 1) && CalmStep(w, w')
  {
    assert CalmAt(run, k);
    w, w' := run(k), run(k + 1);
  }

  lemma RestStep(w: World, w': World)
    requires CalmStep(w, w') && AtRest(w.h)
    ensures AtRest(w'.h) && SameWork(w.h, w'.h)
  {
    var a :| CalmAction(w, a, w'.text, w'.stale) && w' == Moved(w, a, w'.text, w'.stale);
    RestStays(w.h, a);
  }

  lemma {:induction false} RestsFrom(run: nat -> World, j: nat, k: nat)
    requires CalmRun(run) && j <= k && AtRest(run(j).h)
    ensures AtRest(run(k).h) && SameWork(run(j).h, run(k).h)
    decreases k
  {
    if j < k {
      RestsFrom(run, j, k - 1);
      var w, w' := CalmNext(run, k - 1);
      RestStep(w, w');
    }
  }

  lemma SameNothingLeft(h: Host, h': Host)
    requires NothingLeft(h) && SameWork(h, h') && Active(h').None?
    ensures NothingLeft(h')
  {
    forall id | id in h'.rows && h'.rows[id].source.Some? && (RowIs(h', id, Queued) || RowIs(h', id, Blocked))
      ensures id in h'.unrecorded || (h'.rows[id].kind.Embedding? && Skipped(EMBEDDING, h'.mode))
    {
      assert RowIs(h, id, Queued) || RowIs(h, id, Blocked);
    }
  }

  /** From time `j` on nothing is left to do, and nothing is loaded, handed out, run or written. */
  ghost predicate DoneFrom(run: nat -> World, j: nat) {
    forall k: nat :: k >= j ==> NothingLeft(run(k).h) && SameWork(run(j).h, run(k).h)
  }

  lemma DrainsFrom(run: nat -> World) returns (j: nat)
    requires CalmRun(run) && Reachable(run(0).h) && !run(0).h.mode.Stopped? && FilesKnown(run(0))
    ensures DoneFrom(run, j)
  {
    ReachableInv(run(0).h);
    j := ComesToRest(run, 0);
    EmptyPassIsIdle(run(j).h);
    PassedRests(run(j).h);
    forall k: nat | k >= j ensures NothingLeft(run(k).h) && SameWork(run(j).h, run(k).h) {
      RestsFrom(run, j, k);
      SameNothingLeft(run(j).h, run(k).h);
    }
  }

  lemma {:induction false} ReachedBy(run: nat -> World, n: nat)
    requires Start(run(0).h) && forall k: nat :: k < n ==> AnyAt(run, k)
    ensures Reachable(run(n).h)
  {
    if n == 0 {
      StartReachable(run(0).h);
    } else {
      ReachedBy(run, n - 1);
      assert AnyAt(run, n - 1);
      StepReached(run(n - 1).h, run(n - 1 + 1).h);
    }
  }

  ghost function Later(run: nat -> World, n: nat): nat -> World {
    (k: nat) => run(n + k)
  }

  lemma LaterDone(run: nat -> World, n: nat, i: nat)
    requires DoneFrom(Later(run, n), i)
    ensures DoneFrom(run, n + i)
  {
    forall k: nat | k >= n + i ensures NothingLeft(run(k).h) && SameWork(run(n + i).h, run(k).h) {
      assert Later(run, n)(k - n) == run(k) && Later(run, n)(i) == run(n + i);
    }
  }

  lemma LaterCalm(run: nat -> World, n: nat)
    requires forall k: nat :: k >= n ==> CalmAt(run, k)
    ensures CalmRun(Later(run, n))
  {
    forall k: nat ensures CalmAt(Later(run, n), k) { assert CalmAt(run, n + k); }
  }

  /** Whatever happened in a session up to some time (rows inserted, deleted and canceled by others,
      accesses that failed, texts erased, changes of mode): if it is calm and not paused from then on,
      it comes to rest, for good. */
  lemma Drains(run: nat -> World, n: nat)
    requires Start(run(0).h) && forall k: nat :: k < n ==> AnyAt(run, k)
    requires !run(n).h.mode.Stopped? && FilesKnown(run(n)) && forall k: nat :: k >= n ==> CalmAt(run, k)
    ensures exists j: nat :: j >= n && DoneFrom(run, j)
  {
    ReachedBy(run, n);
    LaterCalm(run, n);
    var i := DrainsFrom(Later(run, n));
    LaterDone(run, n, i);
  }

  /** In the normal mode that is: every queue empty, and no queued or blocked row of a folder but
      settled work whose record was lost. */
  lemma DrainedIsEmpty(h: Host)
    requires NothingLeft(h) && h.mode.Normal?
    ensures AllEmpty(h.queues)
    ensures forall id <- h.rows :: h.rows[id].source.Some? && id !in h.unrecorded ==> !RowIs(h, id, Queued) && !RowIs(h, id, Blocked)
  {
  }

  // ---- A file whose text is never kept ----------------------------------------------------

  // No read of the file's text is being reported.
  ghost predicate Unread(h: Host, f: FileId) {
    !(h.pc.Reporting? && h.pc.outcome.Done? && ReadsText(h.pc.job.kind) && h.pc.job.file == Some(f))
  }

  lemma WorkUnread(w: World, rows: map<JobId, Row>, outcome: Outcome, text: set<FileId>, stale: set<FileId>, f: FileId)
    requires f !in w.text && w.h.pc.Working? && Worker(w, w.h.pc.job, rows, outcome, text, stale)
    ensures Unread(DoWork(w.h, rows, outcome), f)
  {
    ReadHadText(w, rows, outcome, text, stale);
  }

  lemma StepUnread(w: World, a: Action, text: set<FileId>, stale: set<FileId>, f: FileId)
    requires f !in w.text && Unread(w.h, f) && CalmAction(w, a, text, stale)
    ensures Unread(Apply(w.h, a), f) && Apply(w.h, a).repairs[f] >= w.h.repairs[f]
  {
    match a
    case Work(rows, outcome) => WorkUnread(w, rows, outcome, text, stale, f);
    case Tick =>
    case List(_, todo) =>
    case Load(_) =>
    case Relist(_, todo) =>
    case Unblock(_) =>
    case CountRows(_) =>
    case Trim =>
    case Check(_) =>
    case Complete(_) =>
    case Classify(repair) =>
    case Settle(_) =>
  }

  ghost predicate NeverKept(run: nat -> World, f: FileId) {
    forall k: nat :: f !in run(k).text
  }

  lemma {:induction false} NeverReadNeverReset(run: nat -> World, f: FileId, i: nat, j: nat)
    requires CalmRun(run) && i <= j && Unread(run(i).h, f) && NeverKept(run, f)
    ensures Unread(run(j).h, f) && run(i).h.repairs[f] <= run(j).h.repairs[f]
    decreases j
  {
    if i < j {
      NeverReadNeverReset(run, f, i, j - 1);
      var w, w' := CalmNext(run, j - 1);
      assert f !in run(j - 1).text;
      UnreadStep(w, w', f);
    }
  }

  lemma UnreadStep(w: World, w': World, f: FileId)
    requires CalmStep(w, w') && f !in w.text && Unread(w.h, f)
    ensures Unread(w'.h, f) && w'.h.repairs[f] >= w.h.repairs[f]
  {
    var a :| CalmAction(w, a, w'.text, w'.stale) && w' == Moved(w, a, w'.text, w'.stale);
    StepUnread(w, a, w'.text, w'.stale, f);
  }

  lemma {:induction false} CalmAlong(run: nat -> World, j: nat)
    requires CalmRun(run) && CalmInv(run(0))
    ensures CalmInv(run(j))
  {
    if j > 0 {
      CalmAlong(run, j - 1);
      var w, w' := CalmNext(run, j - 1);
      var a :| CalmAction(w, a, w'.text, w'.stale) && w' == Moved(w, a, w'.text, w'.stale);
      KeepsCalm(w, a, w'.text, w'.stale);
    }
  }

  /** A cache that never keeps a file's text costs one extra extraction of it in all: the re-queued
      extractions are never forgotten again, and there is at most one. */
  lemma NeverKeptRepairsOnce(run: nat -> World, f: FileId, i: nat, j: nat)
    requires CalmRun(run) && Reachable(run(0).h) && !run(0).h.mode.Stopped? && FilesKnown(run(0)) && Unread(run(0).h, f)
    requires i <= j && NeverKept(run, f)
    ensures run(i).h.repairs[f] <= run(j).h.repairs[f] <= 1
  {
    ReachableInv(run(0).h);
    NeverReadNeverReset(run, f, 0, i);
    NeverReadNeverReset(run, f, i, j);
    CalmAlong(run, j);
  }

  // ---- Calm runs exist --------------------------------------------------------------------

  lemma {:induction false} Enumeration(ids: set<JobId>, rows: map<JobId, Row>, st: Status) returns (todo: seq<Record>)
    requires ids <= rows.Keys
    ensures Distinct(todo)
    ensures forall i :: 0 <= i < |todo| ==>
              todo[i].id in ids && todo[i].row == rows[todo[i].id] && todo[i].row.status == st
    ensures forall id <- ids :: rows[id].status == st ==> exists i :: 0 <= i < |todo| && todo[i].id == id
    decreases |ids|
  {
    todo := [];
    if ids != {} {
      var x :| x in ids;
      var rest := Enumeration(ids - {x}, rows, st);
      todo := if rows[x].status == st then rest + [Record(x, rows[x])] else rest;
      forall id <- ids | rows[id].status == st ensures exists i :: 0 <= i < |todo| && todo[i].id == id {
        if id == x {
          assert todo[|rest|].id == id;
        } else {
          var i :| 0 <= i < |rest| && rest[i].id == id;
          assert todo[i].id == id;
        }
      }
    }
  }

  lemma WorkerCanEnd(w: World, job: Job) returns (outcome: Outcome)
    ensures Worker(w, job, w.h.rows, outcome, w.text, w.stale)
  {
    outcome := if job.kind.Scan? || job.kind.Cleanup? || job.kind.Repair? || job.file.None? then Done else Error(false);
    assert w.h.rows.Keys - w.h.rows.Keys == {};
  }

  lemma CalmChoice(w: World) returns (a: Action)
    requires CalmInv(w)
    ensures CalmAction(w, a, w.text, w.stale)
  {
    match w.h.pc {
      case Top => a := Tick;
      case Second => a := Tick;
      case Listing =>
        var todo := Enumeration(w.h.rows.Keys, w.h.rows, Queued);
        a := List(true, todo);
      case Loading(todo) =>
        if todo == [] {
          var blocked := Enumeration(w.h.rows.Keys, w.h.rows, Blocked);
          a := Relist(true, blocked);
        } else {
          a := Load(true);
        }
      case Unblocking(_) => a := Unblock(true);
      case Counting(i, _) => a := if i < |UNFINISHED| then CountRows(true) else Trim;
      case Popped(_) => a := Check(true);
      case Working(job) =>
        var outcome := WorkerCanEnd(w, job);
        a := Work(w.h.rows, outcome);
      case Reporting(_, outcome) => a := if outcome.Done? then Complete(true) else Classify(None);
      case Failing(_, _) => a := Settle(true);
    }
  }

  /** A calm run can always go on, so what is proved of calm runs is proved of something. */
  lemma NeverStuck(w: World)
    requires CalmInv(w)
    ensures exists w' :: CalmStep(w, w')
  {
    var a := CalmChoice(w);
    var w' := Moved(w, a, w.text, w.stale);
    assert CalmAction(w, a, w'.text, w'.stale);
    assert CalmStep(w, w');
  }
}
