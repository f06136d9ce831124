/**
 Reading the settings file's object: each entry is tried on its own, the readable ones are read
 together, and a value an older release wrote is honoured once.
 */
module SettingsReader {
  import opened Common

  // A JSON value; numbers, arrays and objects are never a setting's value.
  datatype Json = Null | Bool(flag: bool) | Text(text: string) | Other

  type Object = map<string, Json>

  datatype OrbokSettings = OrbokSettings(
    embeddingModelDir: Option<string>,
    locale: string,
    theme: string,
    textScale: string,
    reducedMotion: bool,
    backgroundIndexing: bool,
    pauseEmbeddingOnBattery: bool,
    rememberRecentSearches: bool)

  const DEFAULT: OrbokSettings := OrbokSettings(None, "auto", "system", "default", false, true, true, true)

  const DIR := "embedding_model_dir"
  const LOCALE := "locale"
  const THEME := "theme"
  const TEXT_SCALE := "text_scale"
  const REDUCED_MOTION := "reduced_motion"
  const BACKGROUND_INDEXING := "background_indexing"
  const PAUSE := "pause_embedding_on_battery"
  const OLD_PAUSE := "pause_on_battery"
  const REMEMBER := "remember_recent_searches"
  const PRIVACY_MODE := "privacy_mode"

  // Whether a value has the type of the field of that name; a name no field has takes any value.
  predicate Typed(key: string, value: Json) {
    if key == DIR then value.Null? || value.Text?
    else if key == LOCALE || key == THEME || key == TEXT_SCALE then value.Text?
    else if key == REDUCED_MOTION || key == BACKGROUND_INDEXING || key == PAUSE || key == OLD_PAUSE || key == REMEMBER
    then value.Bool?
    else true
  }

  function TextOr(m: Object, key: string, initial: string): string {
    if key in m && m[key].Text? then m[key].text else initial
  }

  function FlagOr(m: Object, key: string, initial: bool): bool {
    if key in m && m[key].Bool? then m[key].flag else initial
  }

  /** The derived reader: it fails on any value of the wrong type and on a field given twice, and
      fills the gaps with the defaults. */
  function Derived(m: Object): Option<OrbokSettings> {
    if (forall key <- m :: Typed(key, m[key])) && !(PAUSE in m && OLD_PAUSE in m) then
      Some(OrbokSettings(
        if DIR in m && m[DIR].Text? then Some(m[DIR].text) else None,
        TextOr(m, LOCALE, DEFAULT.locale),
        TextOr(m, THEME, DEFAULT.theme),
        TextOr(m, TEXT_SCALE, DEFAULT.textScale),
        FlagOr(m, REDUCED_MOTION, DEFAULT.reducedMotion),
        FlagOr(m, BACKGROUND_INDEXING, DEFAULT.backgroundIndexing),
        FlagOr(m, if PAUSE in m then PAUSE else OLD_PAUSE, DEFAULT.pauseEmbeddingOnBattery),
        FlagOr(m, REMEMBER, DEFAULT.rememberRecentSearches)))
    else None
  }

  predicate Strict(m: Object) {
    PRIVACY_MODE in m && m[PRIVACY_MODE] == Text("strict")
  }

  /** What each setting is, from its own entries alone. */
  ghost predicate Reads(m: Object, s: OrbokSettings) {
    && s.embeddingModelDir == (if "embedding_model_dir" in m && m["embedding_model_dir"].Text?
                               then Some(m["embedding_model_dir"].text) else None)
    && s.locale == (if "locale" in m && m["locale"].Text? then m["locale"].text else "auto")
    && s.theme == (if "theme" in m && m["theme"].Text? then m["theme"].text else "system")
    && s.textScale == (if "text_scale" in m && m["text_scale"].Text? then m["text_scale"].text else "default")
    && s.reducedMotion == ("reduced_motion" in m && m["reduced_motion"] == Bool(true))
    && s.backgroundIndexing == !("background_indexing" in m && m["background_indexing"] == Bool(false))
    // The new name wins if its value is readable, the old one is next.
    && s.pauseEmbeddingOnBattery == (if "pause_embedding_on_battery" in m && m["pause_embedding_on_battery"].Bool?
                                     then m["pause_embedding_on_battery"].flag
                                     else !("pause_on_battery" in m && m["pause_on_battery"] == Bool(false)))
    && s.rememberRecentSearches == (!("remember_recent_searches" in m && m["remember_recent_searches"] == Bool(false))
                                    && !("privacy_mode" in m && m["privacy_mode"] == Text("strict")))
  }

  // What is left for the derived reader: the readable entries, with one name for each field.
  ghost function Readable(m: Object): Object {
    var readable := map key <- m | Typed(key, m[key]) :: m[key];
    if PAUSE in readable then readable - {OLD_PAUSE} else readable
  }

  lemma ReadableReads(m: Object)
    ensures Derived(Readable(m)).Some?
    ensures var s := Derived(Readable(m)).value;
            Reads(m, if Strict(m) then s.(rememberRecentSearches := false) else s)
  {
    ReadableEntries(m);
    DerivedReads(m, Readable(m));
  }

  // What the readable entries have in common with all of them.
  ghost predicate FromReadable(m: Object, readable: Object) {
    && (forall key <- readable :: key in m && readable[key] == m[key] && Typed(key, m[key]))
    && (forall key <- m :: Typed(key, m[key]) && key != OLD_PAUSE ==> key in readable)
    && (OLD_PAUSE in readable <==> OLD_PAUSE in m && Typed(OLD_PAUSE, m[OLD_PAUSE]) && PAUSE !in readable)
  }

  lemma ReadableEntries(m: Object)
    ensures FromReadable(m, Readable(m))
  {
  }

  lemma DerivedReads(m: Object, readable: Object)
    requires FromReadable(m, readable)
    ensures Derived(readable).Some?
    ensures var s := Derived(readable).value; Reads(m, if Strict(m) then s.(rememberRecentSearches := false) else s)
  {
  }

  /** Every object loads, whatever it holds. */
  method Deserialize(m: Object) returns (settings: OrbokSettings)
    ensures Reads(m, settings)
  {
    var strict := PRIVACY_MODE in m && m[PRIVACY_MODE] == Text("strict");
    var readable: Object := map[];
    var left := m.Keys;
    while left != {}
      invariant left <= m.Keys
      invariant forall key <- readable :: key in m.Keys - left && readable[key] == m[key] && Typed(key, m[key])
      invariant forall key <- m.Keys - left :: Typed(key, m[key]) ==> key in readable
      decreases |left|
    {
      var key :| key in left;
      var alone := map[key := m[key]];
      if Derived(alone).Some? {
        AloneReads(key, m[key]);
        readable := readable[key := m[key]];
      } else {
        AloneReads(key, m[key]);
      }
      left := left - {key};
    }
    if PAUSE in readable {
      readable := readable - {OLD_PAUSE};
    }
    assert readable == Readable(m);
    ReadableReads(m);
    settings := Derived(readable).value;
    if strict {
      settings := settings.(rememberRecentSearches := false);
    }
  }

  // A lone entry reads if and only if its value has the right type.
  lemma AloneReads(key: string, value: Json)
    ensures Derived(map[key := value]).Some? <==> Typed(key, value)
    ensures Typed(key, value) <==>
              && (key == "embedding_model_dir" ==> value.Null? || value.Text?)
              && (key in {"locale", "theme", "text_scale"} ==> value.Text?)
              && (key in {"reduced_motion", "background_indexing", "remember_recent_searches"} ==> value.Bool?)
              && (key in {"pause_embedding_on_battery", "pause_on_battery"} ==> value.Bool?)
  {
    NamesDiffer();
    assert key in map[key := value];
    assert PAUSE != OLD_PAUSE by { assert |PAUSE| != |OLD_PAUSE|; }
  }

  /** Another entry changes no other setting: replacing, adding or spoiling the entry `key` leaves
      every setting that does not have that name as it was. */
  lemma OthersUntouched(m: Object, key: string, value: Json, s: OrbokSettings, t: OrbokSettings)
    requires Reads(m, s) && Reads(m[key := value], t)
    ensures key != DIR ==> s.embeddingModelDir == t.embeddingModelDir
    ensures key != LOCALE ==> s.locale == t.locale
    ensures key != THEME ==> s.theme == t.theme
    ensures key != TEXT_SCALE ==> s.textScale == t.textScale
    ensures key != REDUCED_MOTION ==> s.reducedMotion == t.reducedMotion
    ensures key != BACKGROUND_INDEXING ==> s.backgroundIndexing == t.backgroundIndexing
    ensures key != PAUSE && key != OLD_PAUSE ==> s.pauseEmbeddingOnBattery == t.pauseEmbeddingOnBattery
    ensures key != REMEMBER && key != PRIVACY_MODE ==> s.rememberRecentSearches == t.rememberRecentSearches
  {
  }

  // ---- Saving -----------------------------------------------------------------------------

  function Serialized(s: OrbokSettings): Object {
    map[
      DIR := if s.embeddingModelDir.Some? then Text(s.embeddingModelDir.value) else Null,
      LOCALE := Text(s.locale),
      THEME := Text(s.theme),
      TEXT_SCALE := Text(s.textScale),
      REDUCED_MOTION := Bool(s.reducedMotion),
      BACKGROUND_INDEXING := Bool(s.backgroundIndexing),
      PAUSE := Bool(s.pauseEmbeddingOnBattery),
      REMEMBER := Bool(s.rememberRecentSearches)]
  }

  lemma NamesDiffer()
    ensures |DIR| == 19 && |LOCALE| == 6 && |THEME| == 5 && |TEXT_SCALE| == 10 && |REDUCED_MOTION| == 14
    ensures |BACKGROUND_INDEXING| == 19 && |PAUSE| == 26 && |OLD_PAUSE| == 16 && |REMEMBER| == 24 && |PRIVACY_MODE| == 12
    ensures DIR[0] != BACKGROUND_INDEXING[0]
  {
  }

  // What is saved under each name.
  ghost predicate Holds(m: Object, s: OrbokSettings) {
    && DIR in m && m[DIR] == (if s.embeddingModelDir.Some? then Text(s.embeddingModelDir.value) else Null)
    && LOCALE in m && m[LOCALE] == Text(s.locale) && THEME in m && m[THEME] == Text(s.theme)
    && TEXT_SCALE in m && m[TEXT_SCALE] == Text(s.textScale)
    && REDUCED_MOTION in m && m[REDUCED_MOTION] == Bool(s.reducedMotion)
    && BACKGROUND_INDEXING in m && m[BACKGROUND_INDEXING] == Bool(s.backgroundIndexing)
    && PAUSE in m && m[PAUSE] == Bool(s.pauseEmbeddingOnBattery)
    && REMEMBER in m && m[REMEMBER] == Bool(s.rememberRecentSearches)
    && OLD_PAUSE !in m && PRIVACY_MODE !in m
  }

  lemma SavedHolds(s: OrbokSettings)
    ensures Holds(Serialized(s), s)
  {
    NamesDiffer();
  }

  lemma HeldReads(m: Object, s: OrbokSettings, t: OrbokSettings)
    requires Holds(m, s)
    ensures Reads(m, t) <==> s == t
  {
  }

  /** Saving and loading again gives the same settings, and no other. */
  lemma RoundTrip(s: OrbokSettings, t: OrbokSettings)
    ensures Reads(Serialized(s), t) <==> s == t
  {
    SavedHolds(s);
    HeldReads(Serialized(s), s, t);
  }

  /** The one-time rule: what an old file said is in the saved file itself, which no longer says it
      the old way. */
  lemma StrictOnce(m: Object, s: OrbokSettings)
    requires Reads(m, s)
    ensures Reads(Serialized(s), s)
    ensures PRIVACY_MODE !in Serialized(s) && OLD_PAUSE !in Serialized(s)
    ensures Strict(m) ==> Serialized(s)[REMEMBER] == Bool(false)
  {
    RoundTrip(s, s);
    NamesDiffer();
  }
}
