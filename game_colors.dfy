/** The colour-grid screen (app/game-colors.tsx): a sequence of lit cells is shown, the player
    taps it back, a correct round records the level as the colours best score and advances
    after a pause by appending one cell. */
module GameColors {
  import opened Wrappers
  import opened SettingsContext
  import opened SequenceRound
  import opened GamePhase

  class ColorsGame {
    /** The shared settings store (`useSettings()`). */
    const settings: SettingsStore
    /** `totalCells`, from the configured grid size. */
    const cells: int

    var phase: Phase
    var level: int
    var sequence: seq<int>
    var userSequence: seq<int>
    var isCorrect: Option<bool>

    function State(): Round
      reads this
    {
      Round(phase, level, sequence, userSequence, isCorrect)
    }

    ghost predicate Valid()
      reads this
    {
      4 <= cells && Inv(State(), cells)
    }

    /** Mounting the screen: `startGame` at level 1 with a fresh one-cell target. */
    constructor(store: SettingsStore)
      ensures settings == store && cells == TotalCells(store.gameConfig.gridSize)
      ensures Valid() && phase == Showing && level == 1 && |sequence| == 1
    {
      settings := store;
      cells := TotalCells(store.gameConfig.gridSize);
      var s := GenerateSequence(1, TotalCells(store.gameConfig.gridSize));
      phase := Showing;
      level := 1;
      sequence := s;
      userSequence := [];
      isCorrect := None;
    }

    /** The end of `showSequence`: input opens once every cell was shown. */
    method FinishShowing()
      requires Valid()
      modifies this
      ensures Valid()
      ensures State() == if old(phase) == Showing then Shown(old(State())) else old(State())
    {
      if phase == Showing {
        ShownKeepsInv(State(), cells);
        phase := Input;
      }
    }

    /** `handleCellPress(index)`: the round advances as `Press` says, and a correct completion
        offers the level to the `colors` slot of the best scores. */
    method HandleCellPress(index: int)
      requires Valid()
      modifies this, settings
      ensures Valid()
      ensures State() == Press(old(State()), index)
      ensures settings.bestScores == BestAfterPress(old(State()), index, old(settings.bestScores), ColorsKey)
      ensures settings.storage ==
        if settings.bestScores != old(settings.bestScores)
        then old(settings.storage)[BEST_SCORES_KEY := Written(ScoresJson(settings.bestScores))]
        else old(settings.storage)
      ensures settings.Prefs() == old(settings.Prefs())
    {
      if phase != Input {
        return;
      }
      PressKeepsInv(State(), cells, index);
      var newUserSequence := userSequence + [index];
      userSequence := newUserSequence;
      var currentStep := |newUserSequence| - 1;
      if Mismatch(sequence, currentStep, index) {
        isCorrect := Some(false);
        phase := Result;
        return;
      }
      if |newUserSequence| == |sequence| {
        isCorrect := Some(true);
        var currentBest := settings.bestScores.colors;
        if level > currentBest {
          settings.UpdateBestScore(ColorsKey, level);
        }
        phase := Result;
      }
    }

    /** `nextLevel`: one more cell, drawn from the grid, appended to the same target. */
    method NextLevel() returns (added: int)
      requires Valid()
      modifies this
      ensures Valid()
      ensures 0 <= added < cells && State() == Advance(old(State()), added)
    {
      added :| 0 <= added < cells;
      AdvanceKeepsPrefix(State(), cells, added);
      level := level + 1;
      sequence := sequence + [added];
      userSequence := [];
      isCorrect := None;
      phase := Showing;
    }

    /** `restartGame`: back to level 1 with a fresh one-cell target. */
    method RestartGame() returns (first: int)
      requires Valid()
      modifies this
      ensures Valid()
      ensures 0 <= first < cells && State() == Restart(first)
    {
      var s := GenerateSequence(1, cells);
      first := s[0];
      RestartKeepsInv(cells, first);
      level := 1;
      sequence := s;
      userSequence := [];
      isCorrect := None;
      phase := Showing;
    }
  }
}
