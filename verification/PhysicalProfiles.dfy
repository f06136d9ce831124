/**
 The construction-time check that keeps a portable profile apart from the standard one: what comparing
 three portable paths with four standard ones says about all places of both profiles, then and later.
 */
module PhysicalProfiles {
  import opened Common
  import opened Paths
  import opened Physical
  import R = RuntimeContexts

  // ---- The check --------------------------------------------------------------------------

  function PortableChecked(c: R.Context): seq<Path> {
    [c.dataDir, c.catalogFile, c.settingsFile]
  }

  function StandardChecked(data: Option<Path>, settings: Option<Path>): seq<Path> {
    (if settings.Some? then [settings.value, settings.value + [R.SETTINGS_FILE]] else [])
    + (if data.Some? then [data.value, data.value + [R.CATALOG_FILE]] else [])
  }

  // One portable path against the settings folder and file and the data folder and catalog of the
  // standard profile, as far as the platform names them.
  ghost predicate ApartFromStandard(probe: Probe, p: Path, data: Option<Path>, settings: Option<Path>, rule: CaseRule) {
    && Located(probe, p).Some?
    && (settings.Some? ==>
          Separate(probe, p, settings.value, rule) && Separate(probe, p, settings.value + [Normal("settings.json")], rule))
    && (data.Some? ==>
          Separate(probe, p, data.value, rule) && Separate(probe, p, data.value + [Normal("orbok-catalog.sqlite3")], rule))
  }

  lemma AcceptsEach(probe: Probe, a: Path, b: Path, c: Path, data: Option<Path>, settings: Option<Path>, rule: CaseRule)
    ensures Accepts(probe, [a, b, c], StandardChecked(data, settings), rule) <==>
              && ApartFromStandard(probe, a, data, settings, rule) && ApartFromStandard(probe, b, data, settings, rule)
              && ApartFromStandard(probe, c, data, settings, rule)
  {
    AcceptsOne(probe, [a, b, c], data, settings, rule);
    assert [a, b, c][0] == a && [a, b, c][1] == b && [a, b, c][2] == c;
  }

  lemma AcceptsOne(probe: Probe, portable: seq<Path>, data: Option<Path>, settings: Option<Path>, rule: CaseRule)
    ensures Accepts(probe, portable, StandardChecked(data, settings), rule) <==>
              forall i :: 0 <= i < |portable| ==> ApartFromStandard(probe, portable[i], data, settings, rule)
  {
    var standard := StandardChecked(data, settings);
    forall i | 0 <= i < |portable|
      ensures ApartFromStandard(probe, portable[i], data, settings, rule) <==>
                Located(probe, portable[i]).Some? && forall j :: 0 <= j < |standard| ==> Separate(probe, portable[i], standard[j], rule)
    {
      EachStandard(probe, portable[i], data, settings, rule);
    }
  }

  lemma EachStandard(probe: Probe, p: Path, data: Option<Path>, settings: Option<Path>, rule: CaseRule)
    ensures ApartFromStandard(probe, p, data, settings, rule) <==>
              var standard := StandardChecked(data, settings);
              Located(probe, p).Some? && forall j :: 0 <= j < |standard| ==> Separate(probe, p, standard[j], rule)
  {
    var standard := StandardChecked(data, settings);
    if settings.Some? { assert standard[0] == settings.value && standard[1] == settings.value + [R.SETTINGS_FILE]; }
    if data.Some? { assert standard[|standard| - 2] == data.value && standard[|standard| - 1] == data.value + [R.CATALOG_FILE]; }
  }

  method ValidateProfiles(probe: Probe, c: R.Context, data: Option<Path>, settings: Option<Path>, rule: CaseRule) returns (ok: bool)
    ensures ok <==> Accepts(probe, PortableChecked(c), StandardChecked(data, settings), rule)
    ensures ok <==> && ApartFromStandard(probe, c.dataDir, data, settings, rule)
                    && ApartFromStandard(probe, c.catalogFile, data, settings, rule)
                    && ApartFromStandard(probe, c.settingsFile, data, settings, rule)
  {
    AcceptsEach(probe, c.dataDir, c.catalogFile, c.settingsFile, data, settings, rule);
    var portable := [c.dataDir, c.catalogFile, c.settingsFile];
    var standard: seq<Path> := [];
    if settings.Some? {
      standard := standard + [settings.value, settings.value + [R.SETTINGS_FILE]];
    }
    if data.Some? {
      standard := standard + [data.value, data.value + [R.CATALOG_FILE]];
    }
    assert standard == StandardChecked(data, settings);
    ok := ValidateSeparation(probe, portable, standard, rule);
  }

  /** Both profiles as they resolve from one startup directory and the directories of one platform. */
  ghost predicate Profiles(c: R.Context, d: R.Context, startup: Path, data: Path, settings: Path, rule: CaseRule) {
    && R.Resolved(R.PORTABLE, startup, Some(data), Some(settings), rule) == R.Ok(c)
    && R.Resolved(R.STANDARD, startup, Some(data), Some(settings), rule) == R.Ok(d)
    && Plain(data) && Plain(settings)
  }

  lemma Layout(c: R.Context, d: R.Context, startup: Path, data: Path, settings: Path, rule: CaseRule)
    requires Profiles(c, d, startup, data, settings, rule)
    ensures Plain(c.dataDir) && c == R.ContextAt(R.Portable, Normalized(startup), c.dataDir, c.dataDir)
    ensures d == R.ContextAt(R.Standard, Normalized(startup), data, settings)
  {
    NormalizedPlain(startup);
    PlainNormalized(data);
    PlainNormalized(settings);
  }

  function Below(dir: Path, name: Option<string>): Path {
    match name
    case None => dir
    case Some(n) => dir + [Normal(n)]
  }

  // Every place is a directory of its profile or directly in one.
  lemma PlaceBelow(mode: R.Mode, startup: Path, data: Path, settings: Path, i: nat) returns (dir: Path, name: Option<string>)
    requires i < 7
    ensures (dir == data || dir == settings) && R.Places(R.ContextAt(mode, startup, data, settings))[i] == Below(dir, name)
  {
    dir := if i == 4 then settings else data;
    name := if i == 0 then None
            else Some((if i == 1 then R.CATALOG_FILE else if i == 2 then R.CACHE_FILE else if i == 3 then R.MODELS_DIR
                       else if i == 4 then R.SETTINGS_FILE else if i == 5 then R.DIAGNOSTICS_DIR else R.TEMPORARY_DIR).name);
  }

  // ---- Where a missing place is -----------------------------------------------------------

  lemma {:induction false} PlainLocated(probe: Probe, g: Graph, root: Id, p: Path)
    requires Reflects(probe, g, root) && Plain(p)
    ensures Located(probe, p).Some?
  {
    if |p| == 1 {
      assert Names(p) == [];
    } else {
      PlainLocated(probe, g, root, p[..|p| - 1]);
    }
  }

  lemma ExtendsDir(probe: Probe, dir: Path, n: string)
    requires probe(dir + [Normal(n)]).Missing? && Located(probe, dir).Some?
    ensures var l := Located(probe, dir).value;
            Located(probe, dir + [Normal(n)])
            == Some(Location(l.identity, l.missingSuffix + [Normal(n)], l.resolvedPath + [Normal(n)]))
  {
    var p := dir + [Normal(n)];
    assert p[..|p| - 1] == dir && p[|p| - 1] == Normal(n);
  }

  // What a missing place lacks begins with what its directory lacks, from the same object on.
  lemma MissingBelow1(probe: Probe, g: Graph, root: Id, dir: Path, name: Option<string>)
    requires Reflects(probe, g, root) && Plain(dir) && Located(probe, Below(dir, name)).Some?
    requires Located(probe, Below(dir, name)).value.missingSuffix != []
    ensures Located(probe, dir).Some?
    ensures var l, lp := Located(probe, dir).value, Located(probe, Below(dir, name)).value;
            lp.identity == l.identity && lp.missingSuffix == Below(l.missingSuffix, name)
  {
    PlainLocated(probe, g, root, dir);
    if name.Some? {
      assert Plain(Below(dir, name));
      assert probe(Below(dir, name)).Missing?;
      ExtendsDir(probe, dir, name.value);
    }
  }

  lemma BelowOverlap(s: Path, m: Option<string>, t: Path, n: Option<string>, rule: CaseRule)
    requires Below(s, m) == Below(t, n)
    ensures Overlap(s, t, rule)
  {
    var whole := Below(s, m);
    assert s == whole[..|s|] && t == whole[..|t|];
    CoversOrder(s, [], [], rule);
    CoversOrder(t, [], [], rule);
    if |s| <= |t| { assert Covers(s, t, rule); } else { assert Covers(t, s, rule); }
  }

  /** Places missing from separate directories are not one missing place. */
  lemma MissingApart(probe: Probe, g: Graph, root: Id, dir: Path, name: Option<string>, dir': Path, name': Option<string>, rule: CaseRule)
    requires Reflects(probe, g, root) && Plain(dir) && Plain(dir') && Separate(probe, dir, dir', rule)
    requires Located(probe, Below(dir, name)).Some? && Located(probe, Below(dir', name')).Some?
    ensures var a, b := Located(probe, Below(dir, name)).value, Located(probe, Below(dir', name')).value;
            a.missingSuffix != [] && b.missingSuffix != [] ==> a.identity != b.identity || a.missingSuffix != b.missingSuffix
  {
    var a, b := Located(probe, Below(dir, name)).value, Located(probe, Below(dir', name')).value;
    if a.missingSuffix != [] && b.missingSuffix != [] && a.identity == b.identity && a.missingSuffix == b.missingSuffix {
      MissingBelow1(probe, g, root, dir, name);
      MissingBelow1(probe, g, root, dir', name');
      BelowOverlap(Located(probe, dir).value.missingSuffix, name, Located(probe, dir').value.missingSuffix, name', rule);
    }
  }

  // ---- What the check rules out -----------------------------------------------------------

  lemma MeetsLater(g: Graph, g': Graph, first: Id, root: Id, p: Path, q: Path)
    requires Later(g, g', first) && root < first && Plain(p) && Plain(q) && Meet(g, root, p, q)
    ensures Meet(g', root, p, q)
  {
    WalkLater(g, g', first, root, Names(p));
    WalkLater(g, g', first, root, Names(q));
  }

  lemma FoundAlready(probe: Probe, g: Graph, root: Id, p: Path)
    requires Reflects(probe, g, root) && Plain(p) && Located(probe, p).Some? && Located(probe, p).value.missingSuffix == []
    ensures Walk(g, root, Names(p)) == Some(Located(probe, p).value.identity)
  {
    var k := ExistingAncestor(probe, g, root, p);
    assert p[k..] == [] && Names(p)[..k - 1] == Names(p);
  }

  lemma PlacesMeetAlready(probe: Probe, g: Graph, root: Id, g': Graph, first: Id, dir: Path, name: Option<string>,
                          dir': Path, name': Option<string>, rule: CaseRule)
    requires Reflects(probe, g, root) && Later(g, g', first) && root < first
    requires Plain(dir) && Plain(dir') && Separate(probe, dir, dir', rule)
    ensures var p, q := Below(dir, name), Below(dir', name'); Plain(p) && Plain(q) && (Meet(g', root, p, q) ==> Meet(g, root, p, q))
  {
    var p, q := Below(dir, name), Below(dir', name');
    assert Plain(p) && Plain(q);
    if Meet(g', root, p, q) {
      PlainLocated(probe, g, root, p);
      PlainLocated(probe, g, root, q);
      LocationsDecide(probe, g, root, g', first, p, q, rule);
      MissingApart(probe, g, root, dir, name, dir', name', rule);
      FoundAlready(probe, g, root, p);
      FoundAlready(probe, g, root, q);
    }
  }

  // Places `i` of the portable and `j` of the standard profile are one object.
  ghost predicate Share(g: Graph, root: Id, c: R.Context, d: R.Context, i: nat, j: nat)
    requires i < 7 && j < 7
  {
    Plain(R.Places(c)[i]) && Plain(R.Places(d)[j]) && Meet(g, root, R.Places(c)[i], R.Places(d)[j])
  }

  /** If the check accepts, places of the two profiles can later be one object only where they already
      are: no file or folder made afterwards, by this program or by any other, joins them. */
  lemma SharedOnlyAlready(probe: Probe, g: Graph, root: Id, g': Graph, first: Id, c: R.Context, d: R.Context,
                          startup: Path, data: Path, settings: Path, rule: CaseRule, i: nat, j: nat)
    requires Profiles(c, d, startup, data, settings, rule) && i < 7 && j < 7
    requires Accepts(probe, PortableChecked(c), StandardChecked(Some(data), Some(settings)), rule)
    requires Reflects(probe, g, root) && Later(g, g', first) && root < first
    ensures Plain(R.Places(c)[i]) && Plain(R.Places(d)[j])
    ensures Share(g', root, c, d, i, j) <==> Share(g, root, c, d, i, j)
  {
    Layout(c, d, startup, data, settings, rule);
    var dir, name := PlaceBelow(R.Portable, Normalized(startup), c.dataDir, c.dataDir, i);
    var dir', name' := PlaceBelow(R.Standard, Normalized(startup), data, settings, j);
    DirsSeparate(probe, c, data, settings, rule);
    PlacesMeetAlready(probe, g, root, g', first, dir, name, dir', name', rule);
    if Share(g, root, c, d, i, j) { MeetsLater(g, g', first, root, R.Places(c)[i], R.Places(d)[j]); }
  }

  lemma DirsSeparate(probe: Probe, c: R.Context, data: Path, settings: Path, rule: CaseRule)
    requires Accepts(probe, PortableChecked(c), StandardChecked(Some(data), Some(settings)), rule)
    ensures Separate(probe, c.dataDir, data, rule) && Separate(probe, c.dataDir, settings, rule)
  {
    var portable, standard := PortableChecked(c), StandardChecked(Some(data), Some(settings));
    assert portable[0] == c.dataDir && standard[0] == settings && standard[2] == data;
  }

  // No place of the one profile is ever one of the other's.
  ghost predicate ApartForever(g: Graph, root: Id, first: Id, c: R.Context, d: R.Context) {
    forall g': Graph, i: nat, j: nat :: Later(g, g', first) && i < 7 && j < 7 ==> !Share(g', root, c, d, i, j)
  }

  /** Exactly when the accepted profiles stay apart: when no two of their places are one object at the
      time of the check. */
  lemma ApartExactly(probe: Probe, g: Graph, root: Id, first: Id, c: R.Context, d: R.Context,
                     startup: Path, data: Path, settings: Path, rule: CaseRule)
    requires Profiles(c, d, startup, data, settings, rule)
    requires Accepts(probe, PortableChecked(c), StandardChecked(Some(data), Some(settings)), rule)
    requires Reflects(probe, g, root) && Later(g, g, first) && root < first
    ensures ApartForever(g, root, first, c, d) <==> forall i: nat, j: nat :: i < 7 && j < 7 ==> !Share(g, root, c, d, i, j)
  {
    forall g': Graph, i: nat, j: nat | Later(g, g', first) && i < 7 && j < 7
      ensures Share(g', root, c, d, i, j) <==> Share(g, root, c, d, i, j)
    {
      SharedOnlyAlready(probe, g, root, g', first, c, d, startup, data, settings, rule, i, j);
    }
  }

  /** What would close the gap: comparing besides whatever other places exist at the time of the check. */
  lemma ListingWhatExistsSuffices(probe: Probe, g: Graph, root: Id, first: Id, c: R.Context, d: R.Context,
                                  startup: Path, data: Path, settings: Path, rule: CaseRule, more: seq<Path>, others: seq<Path>)
    requires Profiles(c, d, startup, data, settings, rule)
    requires Accepts(probe, PortableChecked(c) + more, StandardChecked(Some(data), Some(settings)) + others, rule)
    requires Reflects(probe, g, root) && Later(g, g, first) && root < first
    requires forall i: nat :: i < 7 && probe(R.Places(c)[i]).Found? ==> R.Places(c)[i] in PortableChecked(c) + more
    requires forall j: nat :: j < 7 && probe(R.Places(d)[j]).Found? ==> R.Places(d)[j] in StandardChecked(Some(data), Some(settings)) + others
    ensures ApartForever(g, root, first, c, d)
  {
    var portable, standard := PortableChecked(c), StandardChecked(Some(data), Some(settings));
    FewerAccepted(probe, portable, more, standard, others, rule);
    forall i: nat, j: nat | i < 7 && j < 7 ensures !Share(g, root, c, d, i, j) {
      SharedOnlyAlready(probe, g, root, g, first, c, d, startup, data, settings, rule, i, j);
      var p, q := R.Places(c)[i], R.Places(d)[j];
      if probe(p).Found? && probe(q).Found? {
        var m :| 0 <= m < |portable + more| && (portable + more)[m] == p;
        var n :| 0 <= n < |standard + others| && (standard + others)[n] == q;
        AcceptedNeverMeet(probe, g, root, g, first, portable + more, standard + others, rule, m, n);
      }
    }
    ApartExactly(probe, g, root, first, c, d, startup, data, settings, rule);
  }

  lemma FewerAccepted(probe: Probe, a: seq<Path>, more: seq<Path>, b: seq<Path>, others: seq<Path>, rule: CaseRule)
    requires Accepts(probe, a + more, b + others, rule)
    ensures Accepts(probe, a, b, rule)
  {
    assert forall i :: 0 <= i < |a| ==> (a + more)[i] == a[i];
    assert forall j :: 0 <= j < |b| ==> (b + others)[j] == b[j];
  }

  /** Lists that name one object on both sides are refused. */
  lemma SharedIsRefused(probe: Probe, g: Graph, root: Id, first: Id, portable: seq<Path>, standard: seq<Path>, rule: CaseRule, i: nat, j: nat)
    requires Reflects(probe, g, root) && Later(g, g, first) && root < first && i < |portable| && j < |standard|
    requires Plain(portable[i]) && Plain(standard[j]) && Meet(g, root, portable[i], standard[j])
    ensures !Accepts(probe, portable, standard, rule)
  {
    if Accepts(probe, portable, standard, rule) {
      AcceptedNeverMeet(probe, g, root, g, first, portable, standard, rule, i, j);
    }
  }

  // ---- What it does not rule out ----------------------------------------------------------

  const ROOT: Path := [RootDir]
  const STARTUP: Path := ROOT + [Normal("usb")]
  const DATA: Path := STARTUP + [R.PORTABLE_DATA_DIR]
  const STANDARD: Path := ROOT + [Normal("standard")]
  const CONFIG: Path := ROOT + [Normal("config")]

  /** A portable profile on a drive, whose `models` is a mount of the standard data folder. */
  const MOUNTED: Graph := map[(0, "usb") := 1, (1, "orbok-data") := 2, (2, "models") := 3, (0, "standard") := 3]

  const PORTABLE: R.Context := R.ContextAt(R.Portable, STARTUP, DATA, DATA)
  const INSTALLED: R.Context := R.ContextAt(R.Standard, STARTUP, STANDARD, CONFIG)

  // A platform that answers from the graph; every path is its own canonical one.
  ghost function Answers(g: Graph, root: Id): Probe {
    (p: Path) =>
      if Plain(p) then
        match Walk(g, root, Names(p))
        case Some(id) => Found(p, id)
        case None => Missing
      else Missing
  }

  lemma GraphAnswers(g: Graph, root: Id)
    ensures Reflects(Answers(g, root), g, root)
  {
  }

  lemma NamesDiffer()
    ensures |"usb"| == 3 && |"standard"| == 8 && |"config"| == 6 && |"orbok-data"| == 10 && |"models"| == 6
    ensures "config"[0] != "models"[0]
    ensures |"orbok-catalog.sqlite3"| == 21 && |"settings.json"| == 13
  {
  }

  lemma ProfilesResolve()
    ensures Profiles(PORTABLE, INSTALLED, STARTUP, STANDARD, CONFIG, Exact)
  {
    NamesDiffer();
    PlainNormalized(STARTUP);
    PlainNormalized(STANDARD);
    PlainNormalized(CONFIG);
    assert DATA[1] != STANDARD[1] && DATA[1] != CONFIG[1];
  }

  lemma StepDown(dir: Path, n: string)
    requires Plain(dir)
    ensures Plain(dir + [Normal(n)]) && Names(dir + [Normal(n)]) == Names(dir) + [n]
    ensures Walk(MOUNTED, 0, Names(dir + [Normal(n)]))
         == match Walk(MOUNTED, 0, Names(dir))
            case None => None
            case Some(at) => if (at, n) in MOUNTED then Some(MOUNTED[(at, n)]) else None
  {
    var names := Names(dir) + [n];
    assert Names(dir + [Normal(n)]) == names;
    assert names[..|names| - 1] == Names(dir);
  }

  lemma Walks()
    ensures Walk(MOUNTED, 0, Names(ROOT)) == Some(0) && Walk(MOUNTED, 0, Names(STARTUP)) == Some(1)
    ensures Plain(DATA) && Walk(MOUNTED, 0, Names(DATA)) == Some(2)
    ensures Walk(MOUNTED, 0, Names(STANDARD)) == Some(3) && Walk(MOUNTED, 0, Names(CONFIG)) == None
    ensures Plain(PORTABLE.modelsDir) && Walk(MOUNTED, 0, Names(PORTABLE.modelsDir)) == Some(3)
  {
    NamesDiffer();
    assert Names(ROOT) == [];
    StepDown(ROOT, "usb");
    StepDown(ROOT, "standard");
    StepDown(ROOT, "config");
    StepDown(STARTUP, "orbok-data");
    StepDown(DATA, "models");
  }

  lemma FoundAt(dir: Path, id: Id)
    requires Plain(dir) && Walk(MOUNTED, 0, Names(dir)) == Some(id)
    ensures Located(Answers(MOUNTED, 0), dir) == Some(Location(id, [], dir))
  {
  }

  lemma MissingAt(dir: Path, n: string, id: Id, rest: Path)
    requires Plain(dir) && Walk(MOUNTED, 0, Names(dir + [Normal(n)])) == None
    requires Located(Answers(MOUNTED, 0), dir) == Some(Location(id, rest, dir))
    ensures Located(Answers(MOUNTED, 0), dir + [Normal(n)]) == Some(Location(id, rest + [Normal(n)], dir + [Normal(n)]))
  {
    ExtendsDir(Answers(MOUNTED, 0), dir, n);
  }

  // Where a checked path is: at, or missing below, an object of its own side.
  ghost predicate LocatedAt(p: Path, id: Id) {
    var l := Located(Answers(MOUNTED, 0), p);
    l.Some? && l.value.identity == id && l.value.resolvedPath == p
  }

  lemma PortableLocated()
    ensures forall i :: 0 <= i < 3 ==> LocatedAt(PortableChecked(PORTABLE)[i], 2)
  {
    NamesDiffer();
    Walks();
    FoundAt(DATA, 2);
    StepDown(DATA, R.CATALOG_FILE.name);
    StepDown(DATA, R.SETTINGS_FILE.name);
    MissingAt(DATA, R.CATALOG_FILE.name, 2, []);
    MissingAt(DATA, R.SETTINGS_FILE.name, 2, []);
  }

  lemma ConfigLocated()
    ensures LocatedAt(CONFIG, 0) && LocatedAt(CONFIG + [R.SETTINGS_FILE], 0)
  {
    Walks();
    FoundAt(ROOT, 0);
    MissingAt(ROOT, "config", 0, []);
    StepDown(ROOT, "config");
    StepDown(CONFIG, R.SETTINGS_FILE.name);
    MissingAt(CONFIG, R.SETTINGS_FILE.name, 0, [] + [Normal("config")]);
  }

  lemma StandardLocated()
    ensures LocatedAt(STANDARD, 3) && LocatedAt(STANDARD + [R.CATALOG_FILE], 3)
  {
    NamesDiffer();
    Walks();
    FoundAt(STANDARD, 3);
    StepDown(STANDARD, R.CATALOG_FILE.name);
    MissingAt(STANDARD, R.CATALOG_FILE.name, 3, []);
  }

  lemma SidesApart(p: Path, q: Path, id: Id)
    requires LocatedAt(p, 2) && LocatedAt(q, id) && id != 2 && |p| >= 2 && |q| >= 2 && p[1] != q[1]
    ensures Separate(Answers(MOUNTED, 0), p, q, Exact)
  {
  }

  lemma PortableSide(p: Path)
    requires p in PortableChecked(PORTABLE)
    ensures LocatedAt(p, 2) && |p| >= 2 && p[1] == Normal("usb")
  {
    PortableLocated();
  }

  lemma StandardSide(q: Path) returns (id: Id)
    requires q in StandardChecked(Some(STANDARD), Some(CONFIG))
    ensures LocatedAt(q, id) && id != 2 && |q| >= 2 && q[1] != Normal("usb")
  {
    NamesDiffer();
    ConfigLocated();
    StandardLocated();
    id := if q == CONFIG || q == CONFIG + [R.SETTINGS_FILE] then 0 else 3;
  }

  lemma ListsAccepted()
    ensures Accepts(Answers(MOUNTED, 0), PortableChecked(PORTABLE), StandardChecked(Some(STANDARD), Some(CONFIG)), Exact)
  {
    var portable, standard := PortableChecked(PORTABLE), StandardChecked(Some(STANDARD), Some(CONFIG));
    forall i | 0 <= i < |portable| ensures Located(Answers(MOUNTED, 0), portable[i]).Some? { PortableSide(portable[i]); }
    forall i, j | 0 <= i < |portable| && 0 <= j < |standard| ensures Separate(Answers(MOUNTED, 0), portable[i], standard[j], Exact) {
      PortableSide(portable[i]);
      var id := StandardSide(standard[j]);
      SidesApart(portable[i], standard[j], id);
    }
  }

  lemma SharedPlaces()
    ensures R.Places(PORTABLE)[3] == PORTABLE.modelsDir == DATA + [R.MODELS_DIR]
    ensures R.Places(INSTALLED)[0] == INSTALLED.dataDir == STANDARD
  {
  }

  lemma ModelsAreShared()
    ensures Share(MOUNTED, 0, PORTABLE, INSTALLED, 3, 0)
  {
    SharedPlaces();
    Walks();
  }

  /** The check accepts these profiles, on its own lists, and yet the portable models folder is the
      standard data folder. */
  lemma UncheckedFolderCanAlias()
    ensures Profiles(PORTABLE, INSTALLED, STARTUP, STANDARD, CONFIG, Exact)
    ensures Reflects(Answers(MOUNTED, 0), MOUNTED, 0) && Later(MOUNTED, MOUNTED, 4)
    ensures Accepts(Answers(MOUNTED, 0), PortableChecked(PORTABLE), StandardChecked(Some(STANDARD), Some(CONFIG)), Exact)
    ensures R.Places(PORTABLE)[3] == PORTABLE.modelsDir && R.Places(INSTALLED)[0] == INSTALLED.dataDir
    ensures Share(MOUNTED, 0, PORTABLE, INSTALLED, 3, 0)
  {
    ProfilesResolve();
    ListsAccepted();
    GraphAnswers(MOUNTED, 0);
    SharedPlaces();
    ModelsAreShared();
  }
}
