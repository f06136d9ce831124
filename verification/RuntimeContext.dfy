/** Choosing a profile and resolving every path of it, without touching the file system. */
module RuntimeContexts {
  import opened Common
  import opened Paths

  datatype Mode = Standard | Portable

  datatype Error =
    | PortableOverrideConflict
    | StartupDirectoryNotAbsolute
    | ResolvedPathNotAbsolute
    | ProfilePathAlias
    | StandardSettingsDirectoryUnavailable

  datatype Result<T> = Ok(value: T) | Err(error: Error)

  datatype Selection = Selection(mode: Mode, standardDataOverride: Option<Path>)

  // An empty override is none.
  function Select(portable: bool, dataDirOverride: Option<Path>): Result<Selection> {
    var standardDataOverride := if dataDirOverride == Some([]) then None else dataDirOverride;
    if portable && standardDataOverride.Some? then Err(PortableOverrideConflict)
    else Ok(Selection(if portable then Portable else Standard, standardDataOverride))
  }

  datatype Context = Context(
    mode: Mode,
    startupDir: Path,
    dataDir: Path,
    catalogFile: Path,
    cacheFile: Path,
    modelsDir: Path,
    settingsFile: Path,
    diagnosticsDir: Path,
    temporaryDir: Path)

  const PORTABLE_DATA_DIR: Component := Normal("orbok-data")
  const CATALOG_FILE: Component := Normal("orbok-catalog.sqlite3")
  const CACHE_FILE: Component := Normal("orbok-cache.sqlite3")
  const MODELS_DIR: Component := Normal("models")
  const SETTINGS_FILE: Component := Normal("settings.json")
  const DIAGNOSTICS_DIR: Component := Normal("diagnostics")
  const TEMPORARY_DIR: Component := Normal("tmp")

  ghost function AnchorAndNormalize(anchor: Path, p: Path): Result<Path> {
    var anchored := if IsAbsolute(p) then p else Join(anchor, p);
    if IsAbsolute(anchored) then Ok(Normalized(anchored)) else Err(ResolvedPathNotAbsolute)
  }

  ghost function AnchoredOption(anchor: Path, p: Option<Path>): Result<Option<Path>> {
    match p
    case None => Ok(None)
    case Some(path) =>
      match AnchorAndNormalize(anchor, path)
      case Ok(value) => Ok(Some(value))
      case Err(error) => Err(error)
  }

  function ContextAt(mode: Mode, startupDir: Path, dataDir: Path, settingsDir: Path): Context {
    Context(mode, startupDir, dataDir, dataDir + [CATALOG_FILE], dataDir + [CACHE_FILE], dataDir + [MODELS_DIR],
            settingsDir + [SETTINGS_FILE], dataDir + [DIAGNOSTICS_DIR], dataDir + [TEMPORARY_DIR])
  }

  // The data directory, once the platform's directories are anchored.
  ghost function DataDir(selection: Selection, startup: Path, standardData: Path, standardSettings: Option<Path>, rule: CaseRule): Result<Path> {
    var portableData := startup + [PORTABLE_DATA_DIR];
    match selection.mode
    case Portable =>
      if Overlap(portableData, standardData, rule)
         || (standardSettings.Some? && Overlap(portableData, standardSettings.value, rule))
      then Err(ProfilePathAlias) else Ok(portableData)
    case Standard =>
      match selection.standardDataOverride
      case Some(path) => AnchorAndNormalize(startup, path)
      case None => Ok(standardData)
  }

  ghost function SettingsDir(selection: Selection, dataDir: Path, standardSettings: Option<Path>): Result<Path> {
    if selection.mode.Portable? || selection.standardDataOverride.Some? then Ok(dataDir)
    else if standardSettings.Some? then Ok(standardSettings.value)
    else Err(StandardSettingsDirectoryUnavailable)
  }

  ghost function Resolved(selection: Selection, startupDir: Path, standardDataDir: Option<Path>, standardSettingsDir: Option<Path>, rule: CaseRule): Result<Context> {
    if !IsAbsolute(startupDir) then Err(StartupDirectoryNotAbsolute)
    else
      var startup := Normalized(startupDir);
      match (AnchoredOption(startup, standardDataDir), AnchoredOption(startup, standardSettingsDir))
      case (Err(error), _) => Err(error)
      case (_, Err(error)) => Err(error)
      case (Ok(data), Ok(settings)) =>
        var standardData := if data.Some? then data.value else startup + [PORTABLE_DATA_DIR];
        match DataDir(selection, startup, standardData, settings, rule)
        case Err(error) => Err(error)
        case Ok(dataDir) =>
          match SettingsDir(selection, dataDir, settings)
          case Err(error) => Err(error)
          case Ok(settingsDir) => Ok(ContextAt(selection.mode, startup, dataDir, settingsDir))
  }

  /** The seven places a profile keeps anything. */
  function Places(c: Context): seq<Path> {
    [c.dataDir, c.catalogFile, c.cacheFile, c.modelsDir, c.settingsFile, c.diagnosticsDir, c.temporaryDir]
  }

  const PORTABLE: Selection := Selection(Portable, None)
  const STANDARD: Selection := Selection(Standard, None)

  // Every place of a profile lies in its data or its settings directory.
  lemma PlacesBelow(mode: Mode, startup: Path, dataDir: Path, settingsDir: Path, i: nat)
    requires i < 7
    ensures var place := Places(ContextAt(mode, startup, dataDir, settingsDir))[i];
            if i == 4 then settingsDir <= place else dataDir <= place
  {
  }

  lemma Anchored(startup: Path, p: Option<Path>)
    requires IsAbsolute(startup)
    ensures AnchoredOption(startup, p).Ok?
  {
  }

  /** If both profiles resolve, and no override is set, no place of the one overlaps any place of the
      other, whatever the startup and platform directories. */
  lemma ProfilesAreApart(startupDir: Path, standardDataDir: Option<Path>, standardSettingsDir: Option<Path>, rule: CaseRule, i: nat, j: nat)
    requires Resolved(PORTABLE, startupDir, standardDataDir, standardSettingsDir, rule).Ok?
    requires Resolved(STANDARD, startupDir, standardDataDir, standardSettingsDir, rule).Ok?
    requires i < 7 && j < 7
    ensures !Overlap(Places(Resolved(PORTABLE, startupDir, standardDataDir, standardSettingsDir, rule).value)[i],
                     Places(Resolved(STANDARD, startupDir, standardDataDir, standardSettingsDir, rule).value)[j], rule)
  {
    var startup := Normalized(startupDir);
    var portableData := startup + [PORTABLE_DATA_DIR];
    var data, settings := AnchoredOption(startup, standardDataDir).value, AnchoredOption(startup, standardSettingsDir).value;
    var standardData := if data.Some? then data.value else portableData;
    PlacesBelow(Portable, startup, portableData, portableData, i);
    PlacesBelow(Standard, startup, standardData, settings.value, j);
    ApartBelow(portableData, if j == 4 then settings.value else standardData,
               Places(ContextAt(Portable, startup, portableData, portableData))[i],
               Places(ContextAt(Standard, startup, standardData, settings.value))[j], rule);
  }

  /** An override moves the whole profile: every place lies under it, and where the platform keeps
      settings, or whether it has anywhere to, does not matter. */
  lemma OverrideMovesEverything(startupDir: Path, path: Path, standardDataDir: Option<Path>,
                                settingsA: Option<Path>, settingsB: Option<Path>, rule: CaseRule, i: nat)
    requires IsAbsolute(startupDir) && path != [] && i < 7
    ensures var selection := Select(false, Some(path)).value;
            && Resolved(selection, startupDir, standardDataDir, settingsA, rule).Ok?
            && Resolved(selection, startupDir, standardDataDir, settingsA, rule)
                 == Resolved(selection, startupDir, standardDataDir, settingsB, rule)
            && AnchorAndNormalize(Normalized(startupDir), path).Ok?
            && AnchorAndNormalize(Normalized(startupDir), path).value
                 <= Places(Resolved(selection, startupDir, standardDataDir, settingsA, rule).value)[i]
  {
    var startup := Normalized(startupDir);
    NormalizedPlain(startupDir);
    Anchored(startup, standardDataDir);
    Anchored(startup, settingsA);
    Anchored(startup, settingsB);
    var dataDir := AnchorAndNormalize(startup, path).value;
    PlacesBelow(Standard, startup, dataDir, dataDir, i);
  }

  ghost predicate ApartFrom(startup: Path, dir: Option<Path>, rule: CaseRule) {
    dir.Some? ==>
      && AnchorAndNormalize(startup, dir.value).Ok?
      && !Overlap(startup + [PORTABLE_DATA_DIR], AnchorAndNormalize(startup, dir.value).value, rule)
  }

  /** Exactly when a portable profile resolves: an absolute startup directory, and a portable data
      directory apart from the standard ones. */
  lemma PortableResolves(startupDir: Path, standardDataDir: Option<Path>, standardSettingsDir: Option<Path>, rule: CaseRule)
    ensures Resolved(PORTABLE, startupDir, standardDataDir, standardSettingsDir, rule).Ok? <==>
              && IsAbsolute(startupDir) && standardDataDir.Some?
              && ApartFrom(Normalized(startupDir), standardDataDir, rule)
              && ApartFrom(Normalized(startupDir), standardSettingsDir, rule)
  {
    if IsAbsolute(startupDir) {
      var startup := Normalized(startupDir);
      NormalizedPlain(startupDir);
      Anchored(startup, standardDataDir);
      Anchored(startup, standardSettingsDir);
      CoversOrder(startup + [PORTABLE_DATA_DIR], [], [], rule);
    }
  }

  /** Every resolved place is absolute and free of `.` and `..`. */
  lemma PlacesPlain(selection: Selection, startupDir: Path, standardDataDir: Option<Path>, standardSettingsDir: Option<Path>, rule: CaseRule, i: nat)
    requires Resolved(selection, startupDir, standardDataDir, standardSettingsDir, rule).Ok? && i < 7
    ensures Plain(Places(Resolved(selection, startupDir, standardDataDir, standardSettingsDir, rule).value)[i])
  {
    var startup := Normalized(startupDir);
    NormalizedPlain(startupDir);
    AnchoredPlain(startup, standardDataDir);
    AnchoredPlain(startup, standardSettingsDir);
    AnchoredPlain(startup, selection.standardDataOverride);
  }

  lemma AnchoredPlain(startup: Path, p: Option<Path>)
    requires IsAbsolute(startup)
    ensures p.Some? ==> AnchorAndNormalize(startup, p.value).Ok? && Plain(AnchorAndNormalize(startup, p.value).value)
    ensures AnchoredOption(startup, p) == if p.Some? then Ok(Some(AnchorAndNormalize(startup, p.value).value)) else Ok(None)
  {
    if p.Some? { NormalizedPlain(if IsAbsolute(p.value) then p.value else Join(startup, p.value)); }
  }

  // ---- Which profile, and where -----------------------------------------------------------

  // A path as it is meant where the program is started.
  ghost function Meant(startup: Path, p: Path): Path {
    Normalized(if p != [] && p[0] == RootDir then p else startup + p)
  }

  lemma AnchoredMeant(startup: Path, p: Path)
    requires IsAbsolute(startup)
    ensures AnchorAndNormalize(Normalized(startup), p) == Ok(Meant(startup, p))
  {
    NormalizedPlain(startup);
    NormalizedJoin(startup, p);
  }

  // The files and folders of a profile in its two directories.
  ghost predicate LaidOut(c: Context, dataDir: Path, settingsDir: Path) {
    && c.dataDir == dataDir
    && c.catalogFile == dataDir + [Normal("orbok-catalog.sqlite3")] && c.cacheFile == dataDir + [Normal("orbok-cache.sqlite3")]
    && c.modelsDir == dataDir + [Normal("models")] && c.diagnosticsDir == dataDir + [Normal("diagnostics")]
    && c.temporaryDir == dataDir + [Normal("tmp")] && c.settingsFile == settingsDir + [Normal("settings.json")]
  }

  /** Which profile is chosen: portable if that is asked for, and then no override may be given; an empty
      one is none. */
  lemma ChosenExactly(portable: bool, dataDirOverride: Option<Path>)
    ensures var given := dataDirOverride.Some? && dataDirOverride.value != [];
            && (Select(portable, dataDirOverride).Err? <==> portable && given)
            && (portable && given ==> Select(portable, dataDirOverride) == Err(PortableOverrideConflict))
            && (portable && !given ==> Select(portable, dataDirOverride) == Ok(Selection(Portable, None)))
            && (!portable ==> Select(portable, dataDirOverride) == Ok(Selection(Standard, if given then dataDirOverride else None)))
  {
  }

  lemma BothAnchored(startupDir: Path, data: Option<Path>, settings: Option<Path>)
    requires IsAbsolute(startupDir)
    ensures AnchoredOption(Normalized(startupDir), data) == Ok(if data.Some? then Some(Meant(startupDir, data.value)) else None)
    ensures AnchoredOption(Normalized(startupDir), settings) == Ok(if settings.Some? then Some(Meant(startupDir, settings.value)) else None)
  {
    if data.Some? { AnchoredMeant(startupDir, data.value); }
    if settings.Some? { AnchoredMeant(startupDir, settings.value); }
  }

  /** Where the portable profile is: all of it in one folder beside the program; the one thing that can be
      wrong, besides a start from nowhere, is that this folder is a standard one. */
  lemma PortableIsBeside(startupDir: Path, data: Option<Path>, settings: Option<Path>, rule: CaseRule)
    ensures var r, beside := Resolved(PORTABLE, startupDir, data, settings, rule), Normalized(startupDir) + [Normal("orbok-data")];
            match r
            case Ok(c) => c.mode.Portable? && c.startupDir == Normalized(startupDir) && LaidOut(c, beside, beside)
            case Err(error) =>
              if startupDir == [] || startupDir[0] != RootDir then error == StartupDirectoryNotAbsolute
              else error == ProfilePathAlias
  {
    if IsAbsolute(startupDir) { BothAnchored(startupDir, data, settings); }
  }

  /** Where the standard profile is: what the platform names, as it is meant at the start, with the folder
      beside the program in place of a data directory it does not name; without a settings directory there
      is no standard profile. */
  lemma StandardIsNamed(startupDir: Path, data: Option<Path>, settings: Option<Path>, rule: CaseRule)
    requires IsAbsolute(startupDir)
    ensures var r := Resolved(STANDARD, startupDir, data, settings, rule);
            match settings
            case None => r == Err(StandardSettingsDirectoryUnavailable)
            case Some(dir) =>
              && r.Ok? && r.value.mode.Standard? && r.value.startupDir == Normalized(startupDir)
              && LaidOut(r.value, if data.Some? then Meant(startupDir, data.value) else Normalized(startupDir) + [Normal("orbok-data")],
                         Meant(startupDir, dir))
  {
    BothAnchored(startupDir, data, settings);
  }

  /** Where an override moves it: to the folder it means at the start, settings included. */
  lemma OverrideIsMeant(startupDir: Path, path: Path, data: Option<Path>, settings: Option<Path>, rule: CaseRule)
    requires IsAbsolute(startupDir)
    ensures var r, dir := Resolved(Selection(Standard, Some(path)), startupDir, data, settings, rule), Meant(startupDir, path);
            r.Ok? && r.value.mode.Standard? && LaidOut(r.value, dir, dir)
  {
    BothAnchored(startupDir, data, settings);
    AnchoredMeant(startupDir, path);
  }
}
