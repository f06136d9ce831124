/**
 How much the calm runs allow: what each kind of work may queue, find missing or fail at, whatever the
 state it is taken up in. The loop comes to rest for all of it.
 */
module DrainScopes {
  import opened Common
  import opened Jobs
  import opened HostModel
  import opened Drain

  // The catalog with rows added, each new, queued, of one kind, and for one of some files of a folder.
  ghost predicate Grown(h: Host, rows: map<JobId, Row>, kind: Kind, files: set<FileId>) {
    && (forall id <- h.rows :: id in rows && rows[id] == h.rows[id])
    && forall id <- rows :: id !in h.rows ==>
         id !in h.issued && rows[id].source.Some? && rows[id].file.Some? && rows[id].file.value in files
         && rows[id] == Row(Queued, rows[id].source, rows[id].file, kind)
  }

  // The job being worked on may end so, with these rows and this cached text.
  ghost predicate MayEnd(w: World, rows: map<JobId, Row>, outcome: Outcome, text: set<FileId>, stale: set<FileId>)
    requires w.h.pc.Working?
  {
    exists w' ::
      CalmStep(w, w') && w'.h.rows == rows && w'.h.pc == Reporting(w.h.pc.job, outcome) && w'.text == text && w'.stale == stale
  }

  lemma Ends(w: World, rows: map<JobId, Row>, outcome: Outcome, text: set<FileId>, stale: set<FileId>)
    requires w.h.pc.Working? && Interference(w.h.rows, w.h.issued, rows) && Worker(w, w.h.pc.job, rows, outcome, text, stale)
    ensures MayEnd(w, rows, outcome, text, stale)
  {
    var a := Work(rows, outcome);
    assert CalmAction(w, a, text, stale);
    var w' := Moved(w, a, text, stale);
    assert CalmStep(w, w');
  }

  lemma GrownAdds(h: Host, rows: map<JobId, Row>, kind: Kind, files: set<FileId>, most: nat)
    requires Grown(h, rows, kind, files) && |rows.Keys - h.rows.Keys| <= most
    ensures Adds(h.rows, rows, kind, files, most) && Interference(h.rows, h.issued, rows)
  {
  }

  /** A scan may queue an extraction for every file there is, whether it ends well or fails half way. */
  lemma ScanFindsFiles(w: World, rows: map<JobId, Row>, outcome: Outcome)
    requires w.h.pc.Working? && w.h.pc.job.kind.Scan? && !outcome.CacheMiss?
    requires Grown(w.h, rows, Extract, w.files) && |rows.Keys - w.h.rows.Keys| <= |w.files|
    ensures MayEnd(w, rows, outcome, w.text, w.stale)
  {
    GrownAdds(w.h, rows, Extract, w.files, |w.files|);
    Ends(w, rows, outcome, w.text, w.stale);
  }

  /** An extraction may queue one chunking of its file and leave its text in the cache, or not. */
  lemma ExtractionIsKeptOrNot(w: World, rows: map<JobId, Row>, kept: bool)
    requires w.h.pc.Working? && w.h.pc.job.kind.Extract? && w.h.pc.job.file.Some?
    requires Grown(w.h, rows, Chunk, {w.h.pc.job.file.value}) && |rows.Keys - w.h.rows.Keys| <= 1
    ensures MayEnd(w, rows, Done, if kept then w.text + {w.h.pc.job.file.value} else w.text, w.stale)
  {
    GrownAdds(w.h, rows, Chunk, {w.h.pc.job.file.value}, 1);
    if kept { Ends(w, rows, Done, w.text + {w.h.pc.job.file.value}, w.stale); } else { Ends(w, rows, Done, w.text, w.stale); }
  }

  /** Chunking and keyword work on a file whose text is there may queue one embedding of it; or, where its
      chunks are outdated, forget the text and queue one extraction. */
  lemma ChunkingQueuesOne(w: World, rows: map<JobId, Row>)
    requires w.h.pc.Working? && (w.h.pc.job.kind.Chunk? || w.h.pc.job.kind.Keyword?)
    requires w.h.pc.job.file.Some? && w.h.pc.job.file.value in w.text && |rows.Keys - w.h.rows.Keys| <= 1
    ensures Grown(w.h, rows, Embedding, {w.h.pc.job.file.value}) ==> MayEnd(w, rows, Done, w.text, w.stale)
    ensures Grown(w.h, rows, Extract, {w.h.pc.job.file.value}) && w.h.pc.job.file.value in w.stale ==>
              MayEnd(w, rows, Done, w.text - {w.h.pc.job.file.value}, w.stale - {w.h.pc.job.file.value})
  {
    var file := w.h.pc.job.file.value;
    if Grown(w.h, rows, Embedding, {file}) {
      GrownAdds(w.h, rows, Embedding, {file}, 1);
      Ends(w, rows, Done, w.text, w.stale);
    }
    if Grown(w.h, rows, Extract, {file}) && file in w.stale {
      GrownAdds(w.h, rows, Extract, {file}, 1);
      Ends(w, rows, Done, w.text - {file}, w.stale - {file});
    }
  }

  /** Any work on a file may fail, for good or not, and work that reads its text may find it missing. */
  lemma WorkMayFail(w: World, outcome: Outcome)
    requires w.h.pc.Working? && w.h.pc.job.file.Some? && !w.h.pc.job.kind.Cleanup? && !w.h.pc.job.kind.Repair?
    requires outcome.Error? || (outcome.CacheMiss? && ReadsText(w.h.pc.job.kind) && w.h.pc.job.file.value !in w.text)
    ensures MayEnd(w, w.h.rows, outcome, w.text, w.stale)
  {
    assert w.h.rows.Keys - w.h.rows.Keys == {};
    Ends(w, w.h.rows, outcome, w.text, w.stale);
  }
}
