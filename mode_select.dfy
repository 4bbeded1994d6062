/** The mode selection screen (app/mode-select.tsx): a local copy of the game configuration
    that the player edits, written to the settings store and followed by a route when the
    game is started. */
module ModeSelect {
  import opened Wrappers
  import opened SettingsContext

  /** The screens `handleStart` can push. */
  datatype Route = PiDigitsRoute | PiGameRoute | ColorsRoute | NumbersRoute

  function RoutePath(r: Route): string {
    match r
    case PiDigitsRoute => "/pi-digits"
    case PiGameRoute => "/game-pi"
    case ColorsRoute => "/game-colors"
    case NumbersRoute => "/game-numbers"
  }

  /** The patch `handleStart` passes to `updateGameConfig`: every field is present, and
      `piMode` holds the chosen pi mode for the pi game and `undefined` otherwise. */
  function StartPatch(mode: GameMode, piMode: PiMode, difficulty: Difficulty, gridSize: GridSize): ConfigPatch {
    ConfigPatch(Some(mode), Some(if mode == Pi then Some(piMode) else None), Some(difficulty), Some(gridSize))
  }

  /** The route `handleStart` pushes. */
  function RouteFor(mode: GameMode, piMode: PiMode): Route {
    if mode == Pi then (if piMode == Learn then PiDigitsRoute else PiGameRoute)
    else if mode == Colors then ColorsRoute
    else NumbersRoute
  }

  /** Starting replaces the whole configuration, whatever it was: the chosen mode,
      difficulty and grid, and the chosen pi mode only for the pi game. */
  lemma StartedConfiguration(prev: GameConfig, mode: GameMode, piMode: PiMode, difficulty: Difficulty, gridSize: GridSize)
    ensures var c := MergeConfig(prev, StartPatch(mode, piMode, difficulty, gridSize));
      && c.mode == mode && c.difficulty == difficulty && c.gridSize == gridSize
      && (mode == Pi ==> c.piMode == Some(piMode))
      && (mode != Pi ==> c.piMode == None)
  {
    MergeConfigProperties(prev, StartPatch(mode, piMode, difficulty, gridSize));
  }

  /** Each mode gets exactly one route, and each route is reached from exactly the selections
      that lead there: the learn sub-mode opens the digit list, the other pi sub-modes the
      pi game, and each grid game its own screen. The pi screen then plays the chosen
      sub-mode. */
  lemma RouteChoice(prev: GameConfig, mode: GameMode, piMode: PiMode, difficulty: Difficulty, gridSize: GridSize)
    ensures RouteFor(mode, piMode) == PiDigitsRoute <==> mode == Pi && piMode == Learn
    ensures RouteFor(mode, piMode) == PiGameRoute <==> mode == Pi && piMode != Learn
    ensures RouteFor(mode, piMode) == ColorsRoute <==> mode == Colors
    ensures RouteFor(mode, piMode) == NumbersRoute <==> mode == Numbers
    ensures RouteFor(mode, piMode) == PiGameRoute ==>
      EffectivePiMode(MergeConfig(prev, StartPatch(mode, piMode, difficulty, gridSize))) == piMode
  {
  }

  /** Different routes go to different paths. */
  lemma RoutePathsAreDistinct(a: Route, b: Route)
    requires a != b
    ensures RoutePath(a) != RoutePath(b)
  {
    assert RoutePath(a)[1] != RoutePath(b)[1] || RoutePath(a)[6] != RoutePath(b)[6];
  }

  /** The grid sizes offered by the picker. */
  const GRID_CHOICES: seq<GridSize> := [Grid2x2, Grid3x3, Grid4x4, Grid5x5]

  /** The picker offers every grid size exactly once, in the order of their texts. */
  lemma GridChoicesAreAllSizes()
    ensures forall g: GridSize :: g in GRID_CHOICES
    ensures forall i, j :: 0 <= i < j < |GRID_CHOICES| ==> GRID_CHOICES[i] != GRID_CHOICES[j]
    ensures forall i :: 0 <= i < |GRID_CHOICES| ==> GridSizeText(GRID_CHOICES[i]) == [('2' as int + i) as char, 'x', ('2' as int + i) as char]
  {
    forall g: GridSize
      ensures g in GRID_CHOICES
    {
      var i := match g case Grid2x2 => 0 case Grid3x3 => 1 case Grid4x4 => 2 case Grid5x5 => 3;
      assert GRID_CHOICES[i] == g;
    }
  }

  class ModeSelection {
    const settings: SettingsStore

    var selectedMode: GameMode
    var piMode: PiMode
    var difficulty: Difficulty
    var gridSize: GridSize

    /** The local selection mirrors the store's configuration, with a missing pi mode
        read as `'sequence'`. */
    predicate Mirrors(config: GameConfig)
      reads this
    {
      selectedMode == config.mode && piMode == EffectivePiMode(config) &&
      difficulty == config.difficulty && gridSize == config.gridSize
    }

    /** The initial `useState` values. */
    constructor(store: SettingsStore)
      ensures settings == store && Mirrors(store.gameConfig)
    {
      settings := store;
      selectedMode := store.gameConfig.mode;
      piMode := EffectivePiMode(store.gameConfig);
      difficulty := store.gameConfig.difficulty;
      gridSize := store.gameConfig.gridSize;
    }

    /** The effect run whenever `gameConfig` changes. */
    method Resync()
      modifies this
      ensures Mirrors(settings.gameConfig)
    {
      selectedMode := settings.gameConfig.mode;
      piMode := EffectivePiMode(settings.gameConfig);
      difficulty := settings.gameConfig.difficulty;
      gridSize := settings.gameConfig.gridSize;
    }

    /** The mode buttons. */
    method SelectMode(m: GameMode)
      modifies this
      ensures selectedMode == m && piMode == old(piMode) && difficulty == old(difficulty) && gridSize == old(gridSize)
    {
      selectedMode := m;
    }

    /** The pi mode picker. */
    method SelectPiMode(p: PiMode)
      modifies this
      ensures piMode == p && selectedMode == old(selectedMode) && difficulty == old(difficulty) && gridSize == old(gridSize)
    {
      piMode := p;
    }

    /** The difficulty buttons. */
    method SelectDifficulty(d: Difficulty)
      modifies this
      ensures difficulty == d && selectedMode == old(selectedMode) && piMode == old(piMode) && gridSize == old(gridSize)
    {
      difficulty := d;
    }

    /** The grid size picker, which offers the sizes of `GRID_CHOICES`. */
    method SelectGridSize(g: GridSize)
      requires g in GRID_CHOICES
      modifies this
      ensures gridSize == g && selectedMode == old(selectedMode) && piMode == old(piMode) && difficulty == old(difficulty)
    {
      gridSize := g;
    }

    /** `handleStart`: the selection is written to the store and the matching screen is
        pushed. */
    method HandleStart() returns (route: Route)
      modifies settings
      ensures settings.gameConfig == MergeConfig(old(settings.gameConfig), StartPatch(selectedMode, piMode, difficulty, gridSize))
      ensures route == RouteFor(selectedMode, piMode)
      ensures settings.bestScores == old(settings.bestScores) && settings.storage == old(settings.storage)
      ensures settings.theme == old(settings.theme)
      ensures settings.musicEnabled == old(settings.musicEnabled) && settings.hapticsEnabled == old(settings.hapticsEnabled)
    {
      settings.UpdateGameConfig(StartPatch(selectedMode, piMode, difficulty, gridSize));
      if selectedMode == Pi {
        if piMode == Learn {
          route := PiDigitsRoute;
        } else {
          route := PiGameRoute;
        }
      } else if selectedMode == Colors {
        route := ColorsRoute;
      } else {
        route := NumbersRoute;
      }
    }
  }

  /** Starting a game and coming back to the screen (the resync effect runs on the new
      configuration) keeps the selection, except that after a grid game the pi mode reads
      `'sequence'` again, because the stored pi mode was cleared. */
  method StartThenResync(screen: ModeSelection) returns (route: Route)
    modifies screen, screen.settings
    ensures screen.selectedMode == old(screen.selectedMode)
    ensures screen.difficulty == old(screen.difficulty) && screen.gridSize == old(screen.gridSize)
    ensures screen.piMode == if old(screen.selectedMode) == Pi then old(screen.piMode) else Sequence
  {
    route := screen.HandleStart();
    screen.Resync();
  }
}
