/**
 Saving settings: each writer fills a temporary file of its own process beside the settings file,
 forces it to disk and renames it over the settings file. Writers of any number of processes take
 their steps in any order, and the machine may crash between any two of them.
 */
module SettingsDisk {
  import opened Common

  type Bytes = string
  type Inode = nat

  datatype Name = Settings | Temp(pid: nat)

  // A file's bytes as the running system sees them, and whether they are on disk exactly so.
  datatype File = File(data: Bytes, durable: bool)

  type Directory = map<Name, Inode>

  // A save in progress: what it saves, the file it has open, how much of it is written and whether
  // that was forced to disk.
  datatype Writer = Writer(pid: nat, value: Bytes, file: Inode, written: nat, synced: bool)

  /** `earlier` are the directory states a crash may fall back to: no rename is forced to disk. */
  datatype Disk = Disk(
    names: Directory,
    earlier: set<Directory>,
    files: map<Inode, File>,
    writers: map<nat, Writer>,
    values: set<Bytes>,    // the initial settings and every value a save was given
    renamed: set<nat>)     // the writers whose rename happened

  datatype Action =
    | Open(w: nat, pid: nat, value: Bytes, unused: Inode)
    | Write(w: nat, count: nat)
    | Sync(w: nat)
    | Rename(w: nat)
    | GiveUp(w: nat, removed: bool)
    | Crash(names: Directory, files: map<Inode, File>)

  predicate Enabled(d: Disk, a: Action) {
    match a
    case Open(w, pid, value, unused) => w !in d.writers && w !in d.renamed && unused !in d.files
    case Write(w, count) =>
      w in d.writers && d.writers[w].file in d.files && !d.writers[w].synced
      && d.writers[w].written + count <= |d.writers[w].value|
    case Sync(w) =>
      w in d.writers && d.writers[w].file in d.files && d.writers[w].written == |d.writers[w].value|
    case Rename(w) => w in d.writers && d.writers[w].synced && Temp(d.writers[w].pid) in d.names
    case GiveUp(w, _) => w in d.writers
    case Crash(names, files) =>
      // What was forced to disk survives; anything else may read back as anything.
      && (names == d.names || names in d.earlier)
      && files.Keys == d.files.Keys
      && forall n <- files :: d.files[n].durable ==> files[n] == d.files[n]
  }

  // Open and truncate: the file of that name if there is one, else a new one.
  function OpenedFile(d: Disk, pid: nat, unused: Inode): Inode {
    if Temp(pid) in d.names then d.names[Temp(pid)] else unused
  }

  // Writing at an offset; a file truncated meanwhile is filled up with zero bytes.
  function Overwritten(data: Bytes, at: nat, piece: Bytes): Bytes {
    var base := if |data| >= at then data else data + seq(at - |data|, _ => '\0');
    base[..at] + piece + if |base| > at + |piece| then base[at + |piece|..] else ""
  }

  function Apply(d: Disk, a: Action): Disk
    requires Enabled(d, a)
  {
    match a
    case Open(w, pid, value, unused) =>
      var n := OpenedFile(d, pid, unused);
      d.(names := d.names[Temp(pid) := n], earlier := d.earlier + {d.names}, files := d.files[n := File("", false)],
         values := d.values + {value}, writers := d.writers[w := Writer(pid, value, n, 0, false)])
    case Write(w, count) =>
      var wr := d.writers[w];
      var piece := wr.value[wr.written..wr.written + count];
      d.(files := d.files[wr.file := File(Overwritten(d.files[wr.file].data, wr.written, piece), false)],
         writers := d.writers[w := wr.(written := wr.written + count)])
    case Sync(w) =>
      var wr := d.writers[w];
      d.(files := d.files[wr.file := d.files[wr.file].(durable := true)], writers := d.writers[w := wr.(synced := true)])
    case Rename(w) =>
      var temp := Temp(d.writers[w].pid);
      d.(names := d.names[Settings := d.names[temp]] - {temp}, earlier := d.earlier + {d.names},
         writers := d.writers - {w}, renamed := d.renamed + {w})
    case GiveUp(w, removed) =>
      d.(names := if removed then d.names - {Temp(d.writers[w].pid)} else d.names,
         earlier := d.earlier + {d.names}, writers := d.writers - {w})
    case Crash(names, files) => d.(names := names, earlier := {}, files := files, writers := map[])
  }

  /** What a reader of the settings file gets. */
  function Content(d: Disk): Option<Bytes> {
    if Settings in d.names && d.names[Settings] in d.files then Some(d.files[d.names[Settings]].data) else None
  }

  // ---- Writers of different processes -----------------------------------------------------

  /** A process saves one thing at a time. */
  ghost predicate OnePerProcess(d: Disk, a: Action) {
    a.Open? ==> forall w <- d.writers :: d.writers[w].pid != a.pid
  }

  ghost predicate Sound(d: Disk, dir: Directory) {
    && (forall a, b :: a in dir && b in dir && dir[a] == dir[b] ==> a == b)
    && (forall a <- dir :: dir[a] in d.files)
    && (Settings in dir ==> d.files[dir[Settings]].durable && d.files[dir[Settings]].data in d.values)
  }

  // No temporary file is one the settings ever named.
  ghost predicate Apart(d: Disk, dir: Directory) {
    forall p :: Temp(p) in d.names && Settings in dir ==> d.names[Temp(p)] != dir[Settings]
  }

  ghost predicate WriterOk(d: Disk, w: nat) {
    w in d.writers ==>
      var wr := d.writers[w];
      && Temp(wr.pid) in d.names && d.names[Temp(wr.pid)] == wr.file && wr.file in d.files
      && wr.written <= |wr.value| && d.files[wr.file].data == wr.value[..wr.written]
      && wr.value in d.values && w !in d.renamed
      && (wr.synced ==> wr.written == |wr.value| && d.files[wr.file].durable)
  }

  ghost predicate Inv(d: Disk) {
    && Sound(d, d.names)
    && (forall dir <- d.earlier :: Sound(d, dir) && Apart(d, dir))
    && (forall w :: WriterOk(d, w))
    && (forall v, w :: v in d.writers && w in d.writers && d.writers[v].pid == d.writers[w].pid ==> v == w)
  }

  // Only files no directory state has as its settings change.
  lemma SoundElsewhere(d: Disk, d': Disk, dir: Directory, n: Inode)
    requires Sound(d, dir) && d'.values >= d.values && d'.files.Keys == d.files.Keys + {n}
    requires forall m <- d.files :: m != n ==> d'.files[m] == d.files[m]
    requires Settings in dir ==> dir[Settings] != n
    ensures Sound(d', dir)
  {
  }

  lemma SoundMore(d: Disk, d': Disk, dir: Directory)
    requires Sound(d, dir) && d'.files == d.files && d'.values >= d.values
    ensures Sound(d', dir)
  {
  }

  lemma OpenKeeps(d: Disk, a: Action)
    requires Inv(d) && Enabled(d, a) && a.Open? && OnePerProcess(d, a)
    ensures Inv(Apply(d, a))
  {
    var d', n := Apply(d, a), OpenedFile(d, a.pid, a.unused);
    forall dir | dir in d'.earlier ensures Sound(d', dir) && Apart(d', dir) {
      assert Settings in dir ==> dir[Settings] != n;
      SoundElsewhere(d, d', dir, n);
    }
    assert Settings in d.names ==> d.names[Settings] != n;
    forall w ensures WriterOk(d', w) {
      assert WriterOk(d, w);
    }
  }

  lemma WriteKeeps(d: Disk, a: Action)
    requires Inv(d) && Enabled(d, a) && a.Write?
    ensures Inv(Apply(d, a))
  {
    assert WriterOk(d, a.w);
    var d', wr := Apply(d, a), d.writers[a.w];
    forall dir | dir in d'.earlier + {d'.names} ensures Sound(d', dir) && (dir in d'.earlier ==> Apart(d', dir)) {
      SoundElsewhere(d, d', dir, wr.file);
    }
    var piece := wr.value[wr.written..wr.written + a.count];
    assert wr.value[..wr.written] + piece == wr.value[..wr.written + a.count];
    forall w ensures WriterOk(d', w) {
      assert WriterOk(d, w);
    }
  }

  lemma SyncKeeps(d: Disk, a: Action)
    requires Inv(d) && Enabled(d, a) && a.Sync?
    ensures Inv(Apply(d, a))
  {
    assert WriterOk(d, a.w);
    var d', wr := Apply(d, a), d.writers[a.w];
    forall dir | dir in d'.earlier + {d'.names} ensures Sound(d', dir) && (dir in d'.earlier ==> Apart(d', dir)) {
      SoundElsewhere(d, d', dir, wr.file);
    }
    forall w ensures WriterOk(d', w) {
      assert WriterOk(d, w);
    }
  }

  lemma RenameKeeps(d: Disk, a: Action)
    requires Inv(d) && Enabled(d, a) && a.Rename?
    ensures Inv(Apply(d, a))
  {
    assert WriterOk(d, a.w);
    var d', wr := Apply(d, a), d.writers[a.w];
    assert wr.value[..wr.written] == wr.value;
    forall dir | dir in d'.earlier ensures Sound(d', dir) && Apart(d', dir) {
      SoundMore(d, d', dir);
    }
    forall w ensures WriterOk(d', w) {
      assert WriterOk(d, w);
    }
  }

  lemma GiveUpKeeps(d: Disk, a: Action)
    requires Inv(d) && Enabled(d, a) && a.GiveUp?
    ensures Inv(Apply(d, a))
  {
    assert WriterOk(d, a.w);
    var d' := Apply(d, a);
    forall dir | dir in d'.earlier ensures Sound(d', dir) && Apart(d', dir) {
      SoundMore(d, d', dir);
    }
    forall w ensures WriterOk(d', w) {
      assert WriterOk(d, w);
    }
  }

  lemma CrashKeeps(d: Disk, a: Action)
    requires Inv(d) && Enabled(d, a) && a.Crash?
    ensures Inv(Apply(d, a))
  {
    assert Sound(d, a.names);
  }

  lemma Keeps(d: Disk, a: Action)
    requires Inv(d) && Enabled(d, a) && OnePerProcess(d, a)
    ensures Inv(Apply(d, a))
  {
    match a
    case Open(_, _, _, _) => OpenKeeps(d, a);
    case Write(_, _) => WriteKeeps(d, a);
    case Sync(_) => SyncKeeps(d, a);
    case Rename(_) => RenameKeeps(d, a);
    case GiveUp(_, _) => GiveUpKeeps(d, a);
    case Crash(_, _) => CrashKeeps(d, a);
  }

  // ---- Every run --------------------------------------------------------------------------

  /** Any directory whose settings, if there are any, are on disk; leftover temporary files are
      nobody's yet. */
  ghost predicate Start(d: Disk) {
    Sound(d, d.names) && d.earlier == {} && d.writers == map[] && d.renamed == {}
  }

  ghost predicate Step(d: Disk, d': Disk) {
    exists a :: Enabled(d, a) && OnePerProcess(d, a) && d' == Apply(d, a)
  }

  ghost predicate Run(run: seq<Disk>) {
    && run != [] && Start(run[0])
    && forall i :: 0 <= i < |run| - 1 ==> Step(run[i], run[i + 1])
  }

  lemma {:induction false} RunInv(run: seq<Disk>, n: nat)
    requires Run(run) && n < |run|
    ensures Inv(run[n])
  {
    if n > 0 {
      RunInv(run, n - 1);
      assert Step(run[n - 1], run[n]);
      var a :| Enabled(run[n - 1], a) && OnePerProcess(run[n - 1], a) && run[n] == Apply(run[n - 1], a);
      Keeps(run[n - 1], a);
    }
  }

  /** At every point of every run, crashes included, the settings file holds the initial settings or
      one save's value, whole. */
  lemma NeverTorn(run: seq<Disk>, n: nat)
    requires Run(run) && n < |run|
    ensures Content(run[n]).Some? ==> Content(run[n]).value in run[n].values
  {
    RunInv(run, n);
  }

  /** The settings change only by a save's rename, to that save's value, or by a crash, back to some
      whole value; a save that gives up changes nothing. */
  lemma OnlyARenameChanges(d: Disk, a: Action)
    requires Inv(d) && Enabled(d, a) && OnePerProcess(d, a)
    ensures a.Rename? ==> Content(Apply(d, a)) == Some(d.writers[a.w].value)
    ensures !a.Rename? && !a.Crash? ==> Content(Apply(d, a)) == Content(d)
    ensures a.Crash? && Content(Apply(d, a)).Some? ==> Content(Apply(d, a)).value in d.values
  {
    Keeps(d, a);
    if a.Rename? {
      assert WriterOk(d, a.w);
      assert d.writers[a.w].value[..d.writers[a.w].written] == d.writers[a.w].value;
    }
    if a.Write? || a.Sync? || a.GiveUp? { assert WriterOk(d, a.w); }
  }

  ghost predicate Present(d: Disk) {
    Settings in d.names && forall dir <- d.earlier :: Settings in dir
  }

  lemma KeepsPresent(d: Disk, a: Action)
    requires Present(d) && Enabled(d, a)
    ensures Present(Apply(d, a))
  {
  }

  /** Settings that exist stay, crashes included. */
  lemma {:induction false} NeverMissing(run: seq<Disk>, n: nat)
    requires Run(run) && n < |run| && Settings in run[0].names
    ensures Present(run[n]) && Content(run[n]).Some?
  {
    RunInv(run, n);
    if n > 0 {
      NeverMissing(run, n - 1);
      assert Step(run[n - 1], run[n]);
      var a :| Enabled(run[n - 1], a) && OnePerProcess(run[n - 1], a) && run[n] == Apply(run[n - 1], a);
      KeepsPresent(run[n - 1], a);
    }
  }

  // ---- A crash after a save ---------------------------------------------------------------

  /** A save that has just succeeded can be undone by a crash, which brings back the whole settings from
      before it: the rename is not forced to disk. */
  lemma SavedCanBeUndone(d: Disk, w: nat) returns (d': Disk)
    requires Inv(d) && Enabled(d, Rename(w))
    ensures var saved := Apply(d, Rename(w));
            Content(saved) == Some(d.writers[w].value) && Step(saved, d') && Content(d') == Content(d) && w in d'.renamed
  {
    OnlyARenameChanges(d, Rename(w));
    var saved := Apply(d, Rename(w));
    var crash := Crash(d.names, saved.files);
    assert d.names in saved.earlier && Enabled(saved, crash);
    d' := Apply(saved, crash);
  }

  // ---- Two saves of one process -----------------------------------------------------------

  ghost predicate AnyStep(d: Disk, d': Disk) {
    exists a :: Enabled(d, a) && d' == Apply(d, a)
  }

  ghost predicate AnyRun(run: seq<Disk>) {
    && run != [] && Start(run[0])
    && forall i :: 0 <= i < |run| - 1 ==> AnyStep(run[i], run[i + 1])
  }

  lemma Extend(run: seq<Disk>, a: Action) returns (run': seq<Disk>)
    requires AnyRun(run) && Enabled(run[|run| - 1], a)
    ensures AnyRun(run') && run'[|run'| - 1] == Apply(run[|run| - 1], a)
  {
    var d := Apply(run[|run| - 1], a);
    run' := run + [d];
    forall i | 0 <= i < |run'| - 1 ensures AnyStep(run'[i], run'[i + 1]) {
      if i < |run| - 1 { assert AnyStep(run[i], run[i + 1]); }
    }
  }

  const OLD: Disk := Disk(map[Settings := 0], {}, map[0 := File("old", true)], map[], {"old"}, {})

  // Two saves of one process have the same file open...
  lemma SameFileOpen() returns (run: seq<Disk>)
    ensures AnyRun(run)
    ensures var d := run[|run| - 1];
            && d.names == map[Settings := 0, Temp(7) := 1] && d.files == map[0 := File("old", true), 1 := File("", false)]
            && d.writers == map[1 := Writer(7, "aaaa", 1, 0, false), 2 := Writer(7, "bb", 1, 0, false)]
            && d.values == {"old", "aaaa", "bb"}
  {
    run := [OLD];
    run := Extend(run, Open(1, 7, "aaaa", 1));
    run := Extend(run, Open(2, 7, "bb", 2));
  }

  // ...and one of them has written and forced its bytes.
  lemma TwoOpen() returns (run: seq<Disk>)
    ensures AnyRun(run)
    ensures var d := run[|run| - 1];
            && d.names == map[Settings := 0, Temp(7) := 1] && d.files == map[0 := File("old", true), 1 := File("aaaa", true)]
            && d.writers == map[1 := Writer(7, "aaaa", 1, 4, true), 2 := Writer(7, "bb", 1, 0, false)]
            && d.values == {"old", "aaaa", "bb"}
  {
    run := SameFileOpen();
    assert "aaaa"[0..4] == "aaaa" && Overwritten("", 0, "aaaa") == "aaaa";
    run := Extend(run, Write(1, 4));
    run := Extend(run, Sync(1));
  }

  /** Two saves of one process share its temporary file: their bytes can be mixed, and the mixture
      renamed over the settings. */
  lemma OneProcessCanTear() returns (run: seq<Disk>)
    ensures AnyRun(run)
    ensures var d := run[|run| - 1]; Content(d) == Some("baaa") && "baaa" !in d.values
  {
    run := TwoOpen();
    assert "bb"[0..1] == "b" && Overwritten("aaaa", 0, "b") == "baaa";
    run := Extend(run, Write(2, 1));
    run := Extend(run, Rename(1));
    assert "baaa"[1] == 'a' && "baaa"[0] == 'b' && "aaaa"[0] == 'a' && |"bb"| == 2 && |"old"| == 3;
  }

  // ---- The name of a temporary file -------------------------------------------------------

  function Decimal(n: nat): (s: string)
    ensures s != []
  {
    if n < 10 then [Digit(n)] else Decimal(n / 10) + [Digit(n % 10)]
  }

  lemma {:induction false} DecimalInjective(m: nat, n: nat)
    requires Decimal(m) == Decimal(n)
    ensures m == n
  {
    var s := Decimal(m);
    assert s[|s| - 1] == Digit(m % 10) && s[|s| - 1] == Digit(n % 10);
    if m >= 10 && n >= 10 {
      assert s[..|s| - 1] == Decimal(m / 10) && s[..|s| - 1] == Decimal(n / 10);
      DecimalInjective(m / 10, n / 10);
    } else if m >= 10 || n >= 10 {
      assert false;
    }
  }

  function PathOf(settings: string, name: Name): string {
    match name
    case Settings => settings
    case Temp(pid) => settings + ".tmp." + Decimal(pid)
  }

  /** Each process's temporary file has a name of its own, beside the settings file. */
  lemma NamesDiffer(settings: string, a: Name, b: Name)
    requires PathOf(settings, a) == PathOf(settings, b)
    ensures a == b
  {
    if a.Temp? && b.Temp? {
      var before := settings + ".tmp.";
      assert (before + Decimal(a.pid))[|before|..] == Decimal(a.pid);
      assert (before + Decimal(b.pid))[|before|..] == Decimal(b.pid);
      DecimalInjective(a.pid, b.pid);
    }
  }

  lemma {:induction false} DecimalNumber(n: nat)
    ensures Number(Decimal(n)) == n
  {
    var s := Decimal(n);
    if n < 10 {
      assert s[..|s| - 1] == "";
    } else {
      assert s[..|s| - 1] == Decimal(n / 10);
      DecimalNumber(n / 10);
    }
  }

  /** The temporary file's name: that of the settings file, `.tmp.` and the number of the process. */
  lemma NamedForProcess(settings: string, pid: nat)
    ensures PathOf(settings, Settings) == settings
    ensures var name, n := PathOf(settings, Temp(pid)), |settings|;
            |name| > n + 5 && name[..n] == settings && name[n..n + 5] == ".tmp." && Number(name[n + 5..]) == pid
  {
    DecimalNumber(pid);
    var before := settings + ".tmp.";
    assert (before + Decimal(pid))[|before|..] == Decimal(pid);
    assert before[|settings|..] == ".tmp.";
  }
}
