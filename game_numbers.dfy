/** The number-grid screen (app/game-numbers.tsx): the same round rules as the colour grid,
    with the `numbers` best score. As written, the screen reads the best score as
    `bestScores.numbers[gameConfig.gridSize]`, which is `undefined` because `numbers` is a plain
    number; `level > undefined` is false, so the best score is never raised and the
    "new record" badge never shows. The screen also starts `nextLevel` twice after a correct
    round when the player taps "next level" before the uncancelled 1.5 s timer fires. The
    class below uses the evidently intended lookup and cancels the timer as the colour grid
    does; `BestAfterPressAsWritten` and `NextLevelAsWritten` keep the code as written. */
module GameNumbers {
  import opened Wrappers
  import opened SettingsContext
  import opened SequenceRound
  import opened GamePhase

  // ---------------------------------------------------------------------------------------
  // The best-score lookup, as written and as intended

  /** `bestScores.numbers[gridSize]`: a property read on a number, which is `undefined`
      whatever the grid size. */
  function NumbersSlotAsWritten(best: BestScores, g: GridSize): Option<int> {
    None
  }

  /** `currentLevel > currentBest`: a comparison with `undefined` is false. */
  predicate Beats(level: int, currentBest: Option<int>) {
    match currentBest
    case None => false
    case Some(b) => level > b
  }

  /** The best-score record after a tap, with the lookup as written. */
  function BestAfterPressAsWritten(r: Round, index: int, best: BestScores, g: GridSize): BestScores {
    if CompletedCorrectly(r, Press(r, index)) && Beats(r.level, NumbersSlotAsWritten(best, g))
    then Record(best, NumbersKey, r.level)
    else best
  }

  /** As written, no tap ever changes the record. */
  lemma AsWrittenNeverRecords(r: Round, index: int, best: BestScores, g: GridSize)
    ensures BestAfterPressAsWritten(r, index, best, g) == best
    ensures !Beats(r.level, NumbersSlotAsWritten(best, g))
  {
  }

  /** The first round of a fresh install, played correctly on any grid: level 1 beats the
      stored 0, the intended lookup records it, the lookup as written does not. */
  lemma FirstRoundIsNotRecorded(g: GridSize, cells: int)
    requires cells >= 1
    ensures var r := Round(Input, 1, [0], [], None);
      && Inv(r, cells)
      && BestAfterPressAsWritten(r, 0, DEFAULT_BEST_SCORES, g) == DEFAULT_BEST_SCORES
      && BestAfterPress(r, 0, DEFAULT_BEST_SCORES, NumbersKey).numbers == 1
  {
  }

  // ---------------------------------------------------------------------------------------
  // The advance, as written

  /** `nextLevel` as written: the level comes from the functional update of the current
      state, while the target is the `sequence` the callback captured when it was made. */
  function NextLevelAsWritten(current: Round, captured: Round, added: int): Round {
    Round(Showing, current.level + 1, captured.sequence + [added], [], None)
  }

  /** After a correct round both the "next level" button and the timer started by the last tap
      hold a `nextLevel` made from the result screen. One call alone is the intended advance;
      the button followed by the timer raises the level twice but the target only once, so the
      level no longer counts the target's cells. */
  lemma ButtonThenTimerBreaksTheRound(r: Round, cells: int, a: int, b: int)
    requires Inv(r, cells) && r.phase == Result && r.isCorrect == Some(true)
    requires 0 <= a < cells && 0 <= b < cells
    ensures NextLevelAsWritten(r, r, a) == Advance(r, a)
    ensures var twice := NextLevelAsWritten(NextLevelAsWritten(r, r, a), r, b);
      && twice.level == r.level + 2
      && |twice.sequence| == r.level + 1
      && !Inv(twice, cells)
  {
  }

  // ---------------------------------------------------------------------------------------
  // checkAnswer

  /** The judgement of `checkAnswer`: same length and every tap equal to the target at its
      position. The screen never calls it; taps are judged one by one by `Press`. */
  function CheckAnswer(userSequence: seq<int>, sequence: seq<int>): (correct: bool)
    ensures correct <==> userSequence == sequence
  {
    |userSequence| == |sequence| && forall i :: 0 <= i < |userSequence| ==> userSequence[i] == sequence[i]
  }

  /** A round judged correct tap by tap would also be judged correct by `checkAnswer`, and
      one judged incorrect would not. */
  lemma CheckAnswerAgreesWithPress(r: Round, cells: int)
    requires Inv(r, cells) && r.phase == Result
    ensures CheckAnswer(r.userSequence, r.sequence) <==> r.isCorrect == Some(true)
  {
  }

  // ---------------------------------------------------------------------------------------
  // The screen

  class NumbersGame {
    const settings: SettingsStore
    const cells: int

    var phase: Phase
    var level: int
    var sequence: seq<int>
    var userSequence: seq<int>
    var isCorrect: Option<bool>
    /** The 1.5 s timer that a correct round starts; here `nextLevel` cancels it, as the
        colour grid's `nextLevelTimeoutRef` does. */
    var advancePending: bool

    function State(): Round
      reads this
    {
      Round(phase, level, sequence, userSequence, isCorrect)
    }

    /** The round invariant, and a pending advance only on a correct result screen. */
    ghost predicate Valid()
      reads this
    {
      && 4 <= cells && Inv(State(), cells)
      && (advancePending ==> phase == Result && isCorrect == Some(true))
    }

    /** Mounting the screen: `startGame` at level 1 with a fresh one-cell target. */
    constructor(store: SettingsStore)
      ensures settings == store && cells == TotalCells(store.gameConfig.gridSize)
      ensures Valid() && phase == Showing && level == 1 && |sequence| == 1 && !advancePending
    {
      settings := store;
      cells := TotalCells(store.gameConfig.gridSize);
      var s := GenerateSequence(1, TotalCells(store.gameConfig.gridSize));
      phase := Showing;
      level := 1;
      sequence := s;
      userSequence := [];
      isCorrect := None;
      advancePending := false;
    }

    /** The end of `showSequence`, half a second after the last cell: input opens. */
    method FinishShowing()
      requires Valid()
      modifies this
      ensures Valid() && advancePending == old(advancePending)
      ensures State() == if old(phase) == Showing then Shown(old(State())) else old(State())
    {
      if phase == Showing {
        ShownKeepsInv(State(), cells);
        phase := Input;
      }
    }

    /** `handleCellPress(index)`, with the best score read from `bestScores.numbers`. */
    method HandleCellPress(index: int)
      requires Valid()
      modifies this, settings
      ensures Valid()
      ensures State() == Press(old(State()), index)
      ensures advancePending == (old(advancePending) || CompletedCorrectly(old(State()), State()))
      ensures settings.bestScores == BestAfterPress(old(State()), index, old(settings.bestScores), NumbersKey)
      ensures settings.storage ==
        if settings.bestScores != old(settings.bestScores)
        then old(settings.storage)[BEST_SCORES_KEY := Written(ScoresJson(settings.bestScores))]
        else old(settings.storage)
      ensures settings.Prefs() == old(settings.Prefs())
    {
      if phase != Input {
        return;
      }
      PressKeepsInv(State(), cells, index);
      var newUserSequence := userSequence + [index];
      userSequence := newUserSequence;
      var currentStep := |newUserSequence| - 1;
      if Mismatch(sequence, currentStep, index) {
        isCorrect := Some(false);
        phase := Result;
        return;
      }
      if |newUserSequence| == |sequence| {
        isCorrect := Some(true);
        var currentBest := settings.bestScores.numbers;
        if level > currentBest {
          settings.UpdateBestScore(NumbersKey, level);
        }
        phase := Result;
        advancePending := true;
      }
    }

    /** `nextLevel`, from the "next level" button or the timer; a pending timer is cancelled. */
    method NextLevel() returns (added: int)
      requires Valid()
      modifies this
      ensures Valid() && !advancePending
      ensures 0 <= added < cells && State() == Advance(old(State()), added)
    {
      advancePending := false;
      added :| 0 <= added < cells;
      AdvanceKeepsPrefix(State(), cells, added);
      level := level + 1;
      sequence := sequence + [added];
      userSequence := [];
      isCorrect := None;
      phase := Showing;
    }

    /** The timer started by a correct round: it advances only if nothing cancelled it, so a
        round reached through the button is never advanced a second time. */
    method TimerFires() returns (added: int)
      requires Valid()
      modifies this
      ensures Valid() && !advancePending
      ensures old(advancePending) ==> 0 <= added < cells && State() == Advance(old(State()), added)
      ensures !old(advancePending) ==> State() == old(State())
    {
      added := 0;
      if advancePending {
        added := NextLevel();
      }
    }

    /** `restartGame`: back to level 1 with a fresh one-cell target. Its button is drawn only
        on the screen after a wrong tap, where no advance is pending. */
    method RestartGame() returns (first: int)
      requires Valid() && !advancePending
      modifies this
      ensures Valid() && !advancePending
      ensures 0 <= first < cells && State() == Restart(first)
    {
      var s := GenerateSequence(1, cells);
      first := s[0];
      RestartKeepsInv(cells, first);
      level := 1;
      sequence := s;
      userSequence := [];
      isCorrect := None;
      phase := Showing;
    }
  }
}
