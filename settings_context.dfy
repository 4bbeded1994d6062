/** The settings and best-score store shared by every screen (contexts/SettingsContext.tsx):
    theme, music and haptics preferences, the active game configuration, and the best score of
    each game mode, held in memory and mirrored into the device's key-value storage. */
module SettingsContext {
  import opened Wrappers
  import opened JsonValue
  import JsText

  // ---------------------------------------------------------------------------------------
  // The enumerated configuration values

  datatype Theme = Purple | Blue | Green | Orange | Pink | Red | Teal | Indigo
  datatype GameMode = Colors | Numbers | Pi
  datatype PiMode = Sequence | Free | Learn
  datatype Difficulty = Easy | Normal | Hard
  datatype GridSize = Grid2x2 | Grid3x3 | Grid4x4 | Grid5x5

  function ThemeName(t: Theme): string {
    match t
    case Purple => "purple"
    case Blue => "blue"
    case Green => "green"
    case Orange => "orange"
    case Pink => "pink"
    case Red => "red"
    case Teal => "teal"
    case Indigo => "indigo"
  }

  /** The key of the theme table a name selects, if any (`name in THEMES`). */
  function ThemeFromName(name: string): Option<Theme> {
    if name == "purple" then Some(Purple)
    else if name == "blue" then Some(Blue)
    else if name == "green" then Some(Green)
    else if name == "orange" then Some(Orange)
    else if name == "pink" then Some(Pink)
    else if name == "red" then Some(Red)
    else if name == "teal" then Some(Teal)
    else if name == "indigo" then Some(Indigo)
    else None
  }

  /** A name selects a theme exactly when it is that theme's name. */
  lemma ThemeNameLookup(name: string, t: Theme)
    ensures ThemeFromName(name) == Some(t) <==> ThemeName(t) == name
  {
  }

  /** The label a grid size is stored and shown under. */
  function GridSizeText(g: GridSize): string {
    match g
    case Grid2x2 => "2x2"
    case Grid3x3 => "3x3"
    case Grid4x4 => "4x4"
    case Grid5x5 => "5x5"
  }

  /** `THEMES[theme] || THEMES.orange`: the palette the screens draw with. A stored theme that
      names no palette falls back to orange. */
  function Palette(theme: Json): (t: Theme)
    ensures theme.JStr? && ThemeFromName(theme.s).Some? ==> t == ThemeFromName(theme.s).value
    ensures !theme.JStr? || ThemeFromName(theme.s).None? ==> t == Orange
  {
    if theme.JStr? then ThemeFromName(theme.s).GetOr(Orange) else Orange
  }

  // ---------------------------------------------------------------------------------------
  // Game configuration

  /** `GameConfig`; `piMode` is optional and may be explicitly `undefined`. */
  datatype GameConfig = GameConfig(mode: GameMode, piMode: Option<PiMode>, difficulty: Difficulty, gridSize: GridSize)

  const INITIAL_GAME_CONFIG := GameConfig(Pi, Some(Sequence), Normal, Grid3x3)

  /** `Partial<GameConfig>`: a `None` field is a key the object does not have. For `piMode` a
      present key may hold `undefined` (`Some(None)`), which the spread copies like any value. */
  datatype ConfigPatch = ConfigPatch(
    mode: Option<GameMode>,
    piMode: Option<Option<PiMode>>,
    difficulty: Option<Difficulty>,
    gridSize: Option<GridSize>)

  const EMPTY_PATCH := ConfigPatch(None, None, None, None)

  /** `{ ...prev, ...patch }`. */
  function MergeConfig(prev: GameConfig, patch: ConfigPatch): GameConfig {
    GameConfig(
      patch.mode.GetOr(prev.mode),
      patch.piMode.GetOr(prev.piMode),
      patch.difficulty.GetOr(prev.difficulty),
      patch.gridSize.GetOr(prev.gridSize))
  }

  /** `gameConfig.piMode || 'sequence'`: the pi mode the screens act on. */
  function EffectivePiMode(config: GameConfig): (m: PiMode)
    ensures config.piMode.Some? ==> m == config.piMode.value
    ensures config.piMode.None? ==> m == Sequence
  {
    config.piMode.GetOr(Sequence)
  }

  /** The merge overwrites exactly the fields the patch carries: an empty patch changes
      nothing, a patch that carries every field replaces the whole configuration, and applying
      the same patch twice is the same as applying it once. */
  lemma MergeConfigProperties(prev: GameConfig, patch: ConfigPatch)
    ensures MergeConfig(prev, EMPTY_PATCH) == prev
    ensures patch.mode.Some? && patch.piMode.Some? && patch.difficulty.Some? && patch.gridSize.Some? ==>
      MergeConfig(prev, patch) ==
        GameConfig(patch.mode.value, patch.piMode.value, patch.difficulty.value, patch.gridSize.value)
    ensures MergeConfig(MergeConfig(prev, patch), patch) == MergeConfig(prev, patch)
    ensures patch.mode.Some? ==> MergeConfig(prev, patch).mode == patch.mode.value
    ensures patch.piMode.Some? ==> MergeConfig(prev, patch).piMode == patch.piMode.value
    ensures patch.difficulty.Some? ==> MergeConfig(prev, patch).difficulty == patch.difficulty.value
    ensures patch.gridSize.Some? ==> MergeConfig(prev, patch).gridSize == patch.gridSize.value
    ensures patch.mode.None? ==> MergeConfig(prev, patch).mode == prev.mode
    ensures patch.piMode.None? ==> MergeConfig(prev, patch).piMode == prev.piMode
    ensures patch.difficulty.None? ==> MergeConfig(prev, patch).difficulty == prev.difficulty
    ensures patch.gridSize.None? ==> MergeConfig(prev, patch).gridSize == prev.gridSize
  {
  }

  // ---------------------------------------------------------------------------------------
  // Best scores

  /** The four best-score slots: `GameMode | 'piFree'`. */
  datatype ScoreKey = ColorsKey | NumbersKey | PiKey | PiFreeKey

  /** `BestScores`: one number per slot; `numbers` is a single number, not keyed by grid size. */
  datatype BestScores = BestScores(colors: int, numbers: int, pi: int, piFree: int)

  const DEFAULT_BEST_SCORES := BestScores(0, 0, 0, 0)

  function Get(b: BestScores, k: ScoreKey): int {
    match k
    case ColorsKey => b.colors
    case NumbersKey => b.numbers
    case PiKey => b.pi
    case PiFreeKey => b.piFree
  }

  /** `{ ...b, [k]: v }`. */
  function With(b: BestScores, k: ScoreKey, v: int): (r: BestScores)
    ensures Get(r, k) == v
    ensures forall k' :: k' != k ==> Get(r, k') == Get(b, k')
  {
    match k
    case ColorsKey => b.(colors := v)
    case NumbersKey => b.(numbers := v)
    case PiKey => b.(pi := v)
    case PiFreeKey => b.(piFree := v)
  }

  function Max(a: int, b: int): int {
    if a >= b then a else b
  }

  /** The record after `updateBestScore(k, s)`: the slot becomes the larger of the old best
      and `s`, the other slots keep their value, and nothing changes unless `s` is strictly
      greater than the old best. */
  function Record(b: BestScores, k: ScoreKey, s: int): (r: BestScores)
    ensures Get(r, k) == Max(Get(b, k), s)
    ensures forall k' :: k' != k ==> Get(r, k') == Get(b, k')
    ensures r == b <==> s <= Get(b, k)
  {
    if s > Get(b, k) then With(b, k, s) else b
  }

  datatype ScoreUpdate = ScoreUpdate(key: ScoreKey, score: int)

  /** The record after a run of `updateBestScore` calls, in order. */
  function Replay(b: BestScores, updates: seq<ScoreUpdate>): BestScores {
    if updates == [] then b
    else
      var last := updates[|updates| - 1];
      Record(Replay(b, updates[..|updates| - 1]), last.key, last.score)
  }

  /** The largest of `initial` and every score in `updates` that was offered for slot `k`. */
  function MaxOffered(initial: int, updates: seq<ScoreUpdate>, k: ScoreKey): int {
    if updates == [] then initial
    else
      var last := updates[|updates| - 1];
      var before := MaxOffered(initial, updates[..|updates| - 1], k);
      if last.key == k then Max(before, last.score) else before
  }

  /** After any run of updates, each slot holds the maximum of its starting value and every
      score ever offered for it: the best score only grows, and only through its own slot. */
  lemma {:induction false} ReplayIsRunningMax(b: BestScores, updates: seq<ScoreUpdate>, k: ScoreKey)
    ensures Get(Replay(b, updates), k) == MaxOffered(Get(b, k), updates, k)
    ensures Get(Replay(b, updates), k) >= Get(b, k)
  {
    if updates != [] {
      ReplayIsRunningMax(b, updates[..|updates| - 1], k);
    }
  }

  // ---------------------------------------------------------------------------------------
  // Storage

  const SETTINGS_KEY := "pi_game_settings"
  const BEST_SCORES_KEY := "sequence_master_best_scores"

  /** What a storage key holds: either text this store wrote (`JSON.stringify(value)`), or
      text from elsewhere (an older version, a corrupted write) together with what
      `JSON.parse` makes of it. */
  datatype Entry = Written(value: Json) | Foreign(text: string, parse: ParseOutcome)

  /** `!stored || stored.trim().length === 0`. What `JSON.stringify` writes is never blank. */
  predicate IsBlankEntry(e: Entry) {
    e.Foreign? && JsText.IsBlank(e.text)
  }

  /** `stored.startsWith('{') || stored.startsWith('[')`: the stringified value is an object or
      an array. */
  predicate StartsLikeJson(e: Entry) {
    match e
    case Written(v) => v.JObj? || v.JArr?
    case Foreign(text, _) => |text| > 0 && (text[0] == '{' || text[0] == '[')
  }

  /** `JSON.parse(stored)`; parsing what was stringified gives the value back. */
  function ParseOf(e: Entry): ParseOutcome {
    match e
    case Written(v) => Parsed(v)
    case Foreign(_, p) => p
  }

  /** `AsyncStorage.getItem(key)`: `None` is `null`. */
  function Lookup(storage: map<string, Entry>, key: string): Option<Entry> {
    if key in storage then Some(storage[key]) else None
  }

  /** The object `JSON.stringify(bestScores)` writes. */
  function ScoresJson(b: BestScores): Json {
    JObj(map["colors" := JNum(b.colors), "numbers" := JNum(b.numbers), "pi" := JNum(b.pi), "piFree" := JNum(b.piFree)])
  }

  /** The object `saveSettings` writes. */
  function SettingsJson(theme: Json, music: bool, haptics: bool): Json {
    JObj(map["theme" := theme, "musicEnabled" := JBool(music), "hapticsEnabled" := JBool(haptics)])
  }

  /** The shape check of `loadBestScores` as the code writes it: a non-array object whose
      `colors`, `numbers` and `pi` are numbers. `piFree` is not looked at. */
  predicate IsScoreRecordAsWritten(j: Json) {
    j.JObj? && IsNumberField(j.fields, "colors") && IsNumberField(j.fields, "numbers") &&
    IsNumberField(j.fields, "pi")
  }

  /** The shape check with `piFree` included: it may be missing (records written before the
      free mode existed), but when present it is a number. */
  predicate IsScoreRecord(j: Json) {
    IsScoreRecordAsWritten(j) && ("piFree" !in j.fields || j.fields["piFree"].JNum?)
  }

  /** `{ ...DEFAULT_BEST_SCORES, ...stored }`: the stored fields win, missing ones are zero. */
  function MergeWithDefaults(fields: map<string, Json>): map<string, Json> {
    ScoresJson(DEFAULT_BEST_SCORES).fields + fields
  }

  /** As written, the shape check lets a record through whose `piFree` is not a number, and the
      merge then carries that non-number into the best-score record. */
  lemma AsWrittenAcceptsNonNumericPiFree()
    ensures var j := JObj(map["colors" := JNum(3), "numbers" := JNum(2), "pi" := JNum(5), "piFree" := JStr("7")]);
      IsScoreRecordAsWritten(j) && !IsScoreRecord(j) && !MergeWithDefaults(j.fields)["piFree"].JNum?
  {
  }

  /** The best-score record a stored object that passes the check stands for: the stored
      `colors`, `numbers` and `pi`, and the stored `piFree` or 0 when it is missing. */
  function ScoresFromRecord(j: Json): (b: BestScores)
    requires IsScoreRecord(j)
    ensures b.colors == j.fields["colors"].n && b.numbers == j.fields["numbers"].n && b.pi == j.fields["pi"].n
    ensures b.piFree == if "piFree" in j.fields then j.fields["piFree"].n else 0
  {
    var merged := MergeWithDefaults(j.fields);
    BestScores(merged["colors"].n, merged["numbers"].n, merged["pi"].n, merged["piFree"].n)
  }

  /** What `loadBestScores` does with the stored text. */
  datatype ScoresLoad =
    | KeepScores                    // null or blank: nothing happens
    | DropScoresKey                 // not JSON-looking: the key is removed, the record kept
    | ResetScores                   // `JSON.parse` threw: the record is reset, the key kept
    | DropScoresKeyAndReset         // parsed, but not a score record
    | AcceptScores(scores: BestScores)

  function ScoresLoadDecision(e: Option<Entry>): ScoresLoad {
    match e
    case None => KeepScores
    case Some(entry) =>
      if IsBlankEntry(entry) then KeepScores
      else if !StartsLikeJson(entry) then DropScoresKey
      else
        match ParseOf(entry)
        case Throws => ResetScores
        case Parsed(v) => if IsScoreRecord(v) then AcceptScores(ScoresFromRecord(v)) else DropScoresKeyAndReset
  }

  /** Whatever record the store writes is read back unchanged: after `resetBestScores` the
      next load gives the all-zero record, after an update it gives the updated one. */
  lemma ScoresRoundTrip(b: BestScores)
    ensures ScoresLoadDecision(Some(Written(ScoresJson(b)))) == AcceptScores(b)
  {
    var j := ScoresJson(b);
    assert IsScoreRecord(j);
  }

  /** What `loadSettings` does with the stored text. */
  datatype SettingsLoad =
    | KeepSettings
    | DropSettingsKey
    | DefaultSettings               // `JSON.parse` threw
    | DropSettingsKeyAndDefault     // parsed, but not a plain object
    | ApplySettings(theme: Json, music: bool, haptics: bool)

  /** The stored preferences of a parsed settings object: a missing or falsy theme becomes
      `'orange'`, a missing or null flag becomes `true`. */
  function SettingsFromObject(fields: map<string, Json>): (r: SettingsLoad)
    ensures r.ApplySettings?
    ensures "theme" !in fields ==> r.theme == JStr("orange")
    ensures "theme" in fields && Truthy(fields["theme"]) ==> r.theme == fields["theme"]
    ensures "theme" in fields && !Truthy(fields["theme"]) ==> r.theme == JStr("orange")
    ensures "musicEnabled" in fields && fields["musicEnabled"] == JNull ==> r.music
    ensures "hapticsEnabled" in fields && fields["hapticsEnabled"] == JNull ==> r.haptics
    ensures "musicEnabled" !in fields ==> r.music
    ensures "hapticsEnabled" !in fields ==> r.haptics
    ensures "musicEnabled" in fields && fields["musicEnabled"].JBool? ==> r.music == fields["musicEnabled"].b
    ensures "hapticsEnabled" in fields && fields["hapticsEnabled"].JBool? ==> r.haptics == fields["hapticsEnabled"].b
  {
    ApplySettings(
      OrElse(Field(fields, "theme"), JStr("orange")),
      FlagOr(Field(fields, "musicEnabled"), true),
      FlagOr(Field(fields, "hapticsEnabled"), true))
  }

  function SettingsLoadDecision(e: Option<Entry>): SettingsLoad {
    match e
    case None => KeepSettings
    case Some(entry) =>
      if IsBlankEntry(entry) then KeepSettings
      else if !StartsLikeJson(entry) then DropSettingsKey
      else
        match ParseOf(entry)
        case Throws => DefaultSettings
        case Parsed(v) => if v.JObj? then SettingsFromObject(v.fields) else DropSettingsKeyAndDefault
  }

  /** Saved preferences are read back as saved (a falsy theme reads back as orange). */
  lemma SettingsRoundTrip(theme: Json, music: bool, haptics: bool)
    ensures SettingsLoadDecision(Some(Written(SettingsJson(theme, music, haptics)))) ==
      ApplySettings(if Truthy(theme) then theme else JStr("orange"), music, haptics)
  {
  }

  // ---------------------------------------------------------------------------------------
  // The store

  class SettingsStore {
    var theme: Json
    var musicEnabled: bool
    var hapticsEnabled: bool
    var gameConfig: GameConfig
    var bestScores: BestScores
    /** The device's key-value storage. */
    var storage: map<string, Entry>

    /** The preferences and configuration: everything but the scores and the storage. */
    function Prefs(): (Json, bool, bool, GameConfig)
      reads this
    {
      (theme, musicEnabled, hapticsEnabled, gameConfig)
    }

    /** The provider's initial state, over whatever the device's storage already holds. */
    constructor(initialStorage: map<string, Entry>)
      ensures theme == JStr("orange") && musicEnabled && hapticsEnabled
      ensures gameConfig == INITIAL_GAME_CONFIG && bestScores == DEFAULT_BEST_SCORES
      ensures storage == initialStorage
    {
      theme := JStr("orange");
      musicEnabled := true;
      hapticsEnabled := true;
      gameConfig := INITIAL_GAME_CONFIG;
      bestScores := DEFAULT_BEST_SCORES;
      storage := initialStorage;
    }

    /** The palette the screens draw with. */
    function Colors(): Theme
      reads this
    {
      Palette(theme)
    }

    /** `saveSettings(theme, music, haptics)`. */
    method SaveSettings()
      modifies this
      ensures storage == old(storage)[SETTINGS_KEY := Written(SettingsJson(theme, musicEnabled, hapticsEnabled))]
      ensures Prefs() == old(Prefs()) && bestScores == old(bestScores)
    {
      storage := storage[SETTINGS_KEY := Written(SettingsJson(theme, musicEnabled, hapticsEnabled))];
    }

    /** `loadSettings`. */
    method LoadSettings()
      modifies this
      ensures var d := SettingsLoadDecision(Lookup(old(storage), SETTINGS_KEY));
        && (d.ApplySettings? ==> theme == d.theme && musicEnabled == d.music && hapticsEnabled == d.haptics)
        && (d.DefaultSettings? || d.DropSettingsKeyAndDefault? ==> theme == JStr("orange") && musicEnabled && hapticsEnabled)
        && (d.KeepSettings? || d.DropSettingsKey? ==>
              theme == old(theme) && musicEnabled == old(musicEnabled) && hapticsEnabled == old(hapticsEnabled))
        && storage == (if d.DropSettingsKey? || d.DropSettingsKeyAndDefault? then old(storage) - {SETTINGS_KEY} else old(storage))
      ensures gameConfig == old(gameConfig) && bestScores == old(bestScores)
    {
      var d := SettingsLoadDecision(Lookup(storage, SETTINGS_KEY));
      match d {
        case KeepSettings =>
        case DropSettingsKey =>
          storage := storage - {SETTINGS_KEY};
        case DefaultSettings =>
          theme, musicEnabled, hapticsEnabled := JStr("orange"), true, true;
        case DropSettingsKeyAndDefault =>
          storage := storage - {SETTINGS_KEY};
          theme, musicEnabled, hapticsEnabled := JStr("orange"), true, true;
        case ApplySettings(t, m, h) =>
          theme, musicEnabled, hapticsEnabled := t, m, h;
      }
    }

    /** `loadBestScores`. */
    method LoadBestScores()
      modifies this
      ensures var d := ScoresLoadDecision(Lookup(old(storage), BEST_SCORES_KEY));
        && bestScores == (match d
                          case AcceptScores(s) => s
                          case ResetScores => DEFAULT_BEST_SCORES
                          case DropScoresKeyAndReset => DEFAULT_BEST_SCORES
                          case _ => old(bestScores))
        && storage == (if d.DropScoresKey? || d.DropScoresKeyAndReset? then old(storage) - {BEST_SCORES_KEY} else old(storage))
      ensures Prefs() == old(Prefs())
    {
      var d := ScoresLoadDecision(Lookup(storage, BEST_SCORES_KEY));
      match d {
        case KeepScores =>
        case DropScoresKey =>
          storage := storage - {BEST_SCORES_KEY};
        case ResetScores =>
          bestScores := DEFAULT_BEST_SCORES;
        case DropScoresKeyAndReset =>
          storage := storage - {BEST_SCORES_KEY};
          bestScores := DEFAULT_BEST_SCORES;
        case AcceptScores(s) =>
          bestScores := s;
      }
    }

    /** `updateTheme`: set the theme and save the preferences. */
    method UpdateTheme(t: Theme)
      modifies this
      ensures theme == JStr(ThemeName(t)) && Colors() == t
      ensures musicEnabled == old(musicEnabled) && hapticsEnabled == old(hapticsEnabled)
      ensures gameConfig == old(gameConfig) && bestScores == old(bestScores)
      ensures storage == old(storage)[SETTINGS_KEY := Written(SettingsJson(theme, musicEnabled, hapticsEnabled))]
    {
      theme := JStr(ThemeName(t));
      SaveSettings();
    }

    /** `toggleMusic`: flip the flag and save the preferences. */
    method ToggleMusic()
      modifies this
      ensures musicEnabled == !old(musicEnabled)
      ensures theme == old(theme) && hapticsEnabled == old(hapticsEnabled)
      ensures gameConfig == old(gameConfig) && bestScores == old(bestScores)
      ensures storage == old(storage)[SETTINGS_KEY := Written(SettingsJson(theme, musicEnabled, hapticsEnabled))]
    {
      musicEnabled := !musicEnabled;
      SaveSettings();
    }

    /** `toggleHaptics`: flip the flag and save the preferences. */
    method ToggleHaptics()
      modifies this
      ensures hapticsEnabled == !old(hapticsEnabled)
      ensures theme == old(theme) && musicEnabled == old(musicEnabled)
      ensures gameConfig == old(gameConfig) && bestScores == old(bestScores)
      ensures storage == old(storage)[SETTINGS_KEY := Written(SettingsJson(theme, musicEnabled, hapticsEnabled))]
    {
      hapticsEnabled := !hapticsEnabled;
      SaveSettings();
    }

    /** `updateGameConfig(partial)`: merged in memory, not persisted. */
    method UpdateGameConfig(patch: ConfigPatch)
      modifies this
      ensures gameConfig == MergeConfig(old(gameConfig), patch)
      ensures theme == old(theme) && musicEnabled == old(musicEnabled) && hapticsEnabled == old(hapticsEnabled)
      ensures bestScores == old(bestScores) && storage == old(storage)
    {
      gameConfig := MergeConfig(gameConfig, patch);
    }

    /** `updateBestScore(mode, score)`: the slot is raised to `score` only when `score` is
      strictly greater, and only then is the record written to storage. */
    method UpdateBestScore(k: ScoreKey, score: int)
      modifies this
      ensures bestScores == Record(old(bestScores), k, score)
      ensures storage == if score > Get(old(bestScores), k)
                         then old(storage)[BEST_SCORES_KEY := Written(ScoresJson(bestScores))]
                         else old(storage)
      ensures Prefs() == old(Prefs())
    {
      var current := Get(bestScores, k);
      if score > current {
        bestScores := With(bestScores, k, score);
        storage := storage[BEST_SCORES_KEY := Written(ScoresJson(bestScores))];
      }
    }

    /** `resetBestScores`: every slot back to 0, written to storage. */
    method ResetBestScores()
      modifies this
      ensures bestScores == DEFAULT_BEST_SCORES
      ensures forall k :: Get(bestScores, k) == 0
      ensures storage == old(storage)[BEST_SCORES_KEY := Written(ScoresJson(DEFAULT_BEST_SCORES))]
      ensures Prefs() == old(Prefs())
    {
      bestScores := DEFAULT_BEST_SCORES;
      storage := storage[BEST_SCORES_KEY := Written(ScoresJson(DEFAULT_BEST_SCORES))];
    }
  }

  /** Toggling haptics twice restores the flag; the stored preferences then hold the
      original values again. */
  method ToggleHapticsTwice(store: SettingsStore)
    modifies store
    ensures store.Prefs() == old(store.Prefs()) && store.bestScores == old(store.bestScores)
    ensures store.storage == old(store.storage)[SETTINGS_KEY := Written(SettingsJson(store.theme, store.musicEnabled, store.hapticsEnabled))]
  {
    store.ToggleHaptics();
    store.ToggleHaptics();
  }

  /** Resetting and then loading gives the all-zero record, whatever was stored before. */
  method ResetThenLoad(store: SettingsStore)
    modifies store
    ensures store.bestScores == DEFAULT_BEST_SCORES
  {
    store.ResetBestScores();
    ScoresRoundTrip(DEFAULT_BEST_SCORES);
    store.LoadBestScores();
  }
}
