/** The pi screen (app/game-pi.tsx). In sequence mode the first `level` digits of pi are shown
    one by one and typed back; a correct answer advances after a pause. In free mode nothing is
    shown and the player types digits until the first wrong one. The digits of pi are the
    constant `PI_DIGITS` of constants/pi.ts, which is not part of this model: it is the
    parameter `digits` here. */
module GamePi {
  import opened Wrappers
  import opened SettingsContext
  import JsText
  import opened GamePhase

  /** The state the screen keeps: `gamePhase`, `currentLevel`, `userInput`, `isCorrect`
      (`None` is `null`) and `isNewRecord`. */
  datatype PiRound = PiRound(phase: Phase, level: int, input: string, isCorrect: Option<bool>, isNewRecord: bool)

  /** `PI_DIGITS.substring(0, length)`: the digits shown in sequence mode and the answer a
      check compares against. */
  function Expected(digits: string, length: int): (e: string)
    ensures 0 <= length <= |digits| ==> e == digits[..length]
    ensures length > |digits| ==> e == digits
    ensures length <= 0 ==> e == []
  {
    JsText.Substring(digits, 0, length)
  }

  /** The outcome of `checkAnswer(input)`: whether the answer is right, whether the result
      screen announces a new record, the `updateBestScore` call it makes, if any, and whether
      it schedules `nextLevel`. */
  datatype Verdict = Verdict(correct: bool, isRecord: bool, update: Option<ScoreUpdate>, advance: bool)

  /** `checkAnswer(input)`, judged against the best scores the screen currently sees. */
  function Judge(mode: PiMode, level: int, digits: string, best: BestScores, input: string): (v: Verdict)
    ensures mode == Sequence ==> (v.correct <==> input == Expected(digits, level))
    ensures mode == Free ==> (v.correct <==> input == Expected(digits, |input|))
    ensures v.update.Some? ==> v.update.value.score > Get(best, v.update.value.key)
    ensures v.update.Some? ==> (mode == Sequence && v.update.value.key == PiKey) || (mode == Free && v.update.value.key == PiFreeKey)
    ensures mode == Sequence ==> (v.isRecord <==> v.update.Some?)
    ensures mode == Free ==> (v.isRecord <==> v.update.Some?)
    ensures level >= 0 && v.update.Some? ==> v.update.value.score >= 0
    ensures v.advance <==> v.correct && mode == Sequence
    ensures mode == Sequence ==>
      v.update == if level > best.pi then Some(ScoreUpdate(PiKey, level)) else None
    ensures mode == Free ==>
      var score := if v.correct then |input| else Max(0, |input| - 1);
      v.update == if score > best.piFree then Some(ScoreUpdate(PiFreeKey, score)) else None
    ensures mode == Learn ==> v.update.None?
  {
    var actualLength := if mode == Free then |input| else level;
    var correct := input == Expected(digits, actualLength);
    if correct then
      var isRecord := if mode == Sequence then level > best.pi else |input| > best.piFree;
      var update :=
        if mode == Sequence && level > best.pi then Some(ScoreUpdate(PiKey, level))
        else if mode == Free && |input| > best.piFree then Some(ScoreUpdate(PiFreeKey, |input|))
        else None;
      Verdict(true, isRecord, update, mode == Sequence)
    else
      var actualScore := if mode == Free then Max(0, |input| - 1) else level;
      var isRecord := if mode == Sequence then actualScore > best.pi else actualScore > best.piFree;
      var update :=
        if mode == Sequence && actualScore > best.pi then Some(ScoreUpdate(PiKey, actualScore))
        else if mode == Free && actualScore > best.piFree then Some(ScoreUpdate(PiFreeKey, actualScore))
        else None;
      Verdict(false, isRecord, update, false)
  }

  /** The record after the `updateBestScore` call a verdict makes. */
  function Apply(best: BestScores, update: Option<ScoreUpdate>): BestScores {
    match update
    case None => best
    case Some(u) => Record(best, u.key, u.score)
  }

  /** What one event does: the new round, the `updateBestScore` call it makes, and whether it
      schedules `nextLevel`. */
  datatype Step = Step(round: PiRound, update: Option<ScoreUpdate>, advance: bool)

  /** `checkAnswer(input)`: the result screen with the verdict. */
  function Check(r: PiRound, mode: PiMode, digits: string, best: BestScores, input: string): Step {
    var v := Judge(mode, r.level, digits, best, input);
    Step(r.(phase := Result, isCorrect := Some(v.correct), isNewRecord := v.isRecord), v.update, v.advance)
  }

  /** `PI_DIGITS[index] === num`: an index past the end reads `undefined`, equal to no text. */
  predicate IsDigitAt(digits: string, index: int, num: string) {
    0 <= index < |digits| && num == [digits[index]]
  }

  /** `handleNumberPress(num)`. In free mode a press that is not the next digit is checked at
      once and a matching one only extends the input; in the other modes the input is checked
      when it reaches the level's length. */
  function Press(r: PiRound, mode: PiMode, digits: string, best: BestScores, num: string): Step {
    if r.phase != Input then Step(r, None, false)
    else
      var newInput := r.input + num;
      var typed := r.(input := newInput);
      if mode == Free then
        if !IsDigitAt(digits, |r.input|, num) then Check(typed, mode, digits, best, newInput)
        else Step(typed, None, false)
      else if |newInput| == r.level then Check(typed, mode, digits, best, newInput)
      else Step(typed, None, false)
  }

  /** `prev.slice(0, -1)`: the text without its last character; empty stays empty. */
  function DropLast(s: string): (t: string)
    ensures s == [] ==> t == []
    ensures s != [] ==> t + [s[|s| - 1]] == s
  {
    if s == [] then [] else s[..|s| - 1]
  }

  /** `handleBackspace`. */
  function Backspace(r: PiRound): PiRound {
    if r.phase != Input then r else r.(input := DropLast(r.input))
  }

  /** `startGame`: a clean answer; the digits are shown first in sequence mode only. */
  function Start(r: PiRound, mode: PiMode): PiRound {
    PiRound(if mode == Sequence then Showing else Input, r.level, [], None, false)
  }

  /** The end of `showSequence`: input opens. */
  function Shown(r: PiRound): PiRound {
    if r.phase == Showing then r.(phase := Input) else r
  }

  /** `nextLevel`: one digit more, started again. */
  function Next(r: PiRound, mode: PiMode): PiRound {
    Start(r.(level := r.level + 1), mode)
  }

  /** `restartGame`: level 1, started again. */
  function Restart(r: PiRound, mode: PiMode): PiRound {
    Start(r.(level := 1), mode)
  }

  /** The invariant of the screen: the level is positive; while digits are shown (sequence
      mode only) nothing is typed; no verdict before the result; and in free mode the text
      typed so far is always a prefix of the digits of pi. */
  ghost predicate PiInv(r: PiRound, mode: PiMode, digits: string) {
    && r.level >= 1
    && (r.phase == Showing ==> mode == Sequence && r.input == [] && r.isCorrect == None && !r.isNewRecord)
    && (r.phase == Input ==> r.isCorrect == None)
    && (r.phase == Result ==> r.isCorrect.Some?)
    && (mode == Free && r.phase == Input ==> |r.input| <= |digits| && r.input == digits[..|r.input|])
  }

  // ---------------------------------------------------------------------------------------
  // The keyboard

  /** `e.key || e.nativeEvent?.key`. */
  function EventKey(key: Option<string>, nativeKey: Option<string>): (k: Option<string>)
    ensures key.Some? && key.value != [] ==> k == key
    ensures (key.None? || key.value == []) ==> k == nativeKey
  {
    if key.Some? && key.value != [] then key else nativeKey
  }

  datatype KeyAction = IgnoreKey | DigitKey(num: string) | EraseKey

  /** The `keydown` handler: nothing outside input or without a key; a key with
      `key >= '0' && key <= '9'` is typed; `Backspace` and `Delete` erase. */
  function KeyActionOf(phase: Phase, key: Option<string>): KeyAction {
    if phase != Input || key.None? || key.value == [] then IgnoreKey
    else if JsText.LessOrEqual("0", key.value) && JsText.LessOrEqual(key.value, "9") then DigitKey(key.value)
    else if key.value == "Backspace" || key.value == "Delete" then EraseKey
    else IgnoreKey
  }

  /** The comparison filter compares texts, not numbers: it lets through exactly the keys
      that start with `0` to `8`, and `9` itself. Every single digit is among them, and so are
      longer texts such as `10` or `0x`; `Backspace` and `Delete` are not. */
  lemma DigitFilterIsLexicographic(key: string)
    ensures JsText.LessOrEqual("0", key) && JsText.LessOrEqual(key, "9") <==>
      key != [] && '0' <= key[0] && (key[0] < '9' || key == "9")
  {
    if key != [] {
      assert JsText.LessOrEqual("0", key) <==> '0' <= key[0] by {
        if key[0] == '0' {
          assert "0"[1..] == [];
        }
      }
      if key[0] == '9' {
        assert JsText.LessOrEqual(key, "9") == JsText.LessOrEqual(key[1..], []);
        assert key[1..] == [] <==> key == "9";
      }
    }
  }

  lemma KeyActionCases(phase: Phase, key: string)
    requires phase == Input
    ensures |key| == 1 && JsText.IsDigit(key[0]) ==> KeyActionOf(phase, Some(key)) == DigitKey(key)
    ensures key == "Backspace" || key == "Delete" ==> KeyActionOf(phase, Some(key)) == EraseKey
    ensures KeyActionOf(phase, Some(key)).DigitKey? && |key| == 1 ==> JsText.IsDigit(key[0])
    ensures KeyActionOf(phase, Some("10")) == DigitKey("10")
  {
    DigitFilterIsLexicographic(key);
    DigitFilterIsLexicographic("10");
    DigitFilterIsLexicographic("Backspace");
    DigitFilterIsLexicographic("Delete");
  }

  // ---------------------------------------------------------------------------------------
  // Invariant

  lemma PressKeepsInv(r: PiRound, mode: PiMode, digits: string, best: BestScores, num: string)
    requires PiInv(r, mode, digits)
    ensures PiInv(Press(r, mode, digits, best, num).round, mode, digits)
  {
    if r.phase == Input && mode == Free && IsDigitAt(digits, |r.input|, num) {
      var k := |r.input|;
      assert r.input + num == digits[..k + 1];
    }
  }

  lemma EventsKeepInv(r: PiRound, mode: PiMode, digits: string)
    requires PiInv(r, mode, digits)
    ensures PiInv(Backspace(r), mode, digits)
    ensures PiInv(Shown(r), mode, digits)
    ensures PiInv(Next(r, mode), mode, digits)
    ensures PiInv(Restart(r, mode), mode, digits)
  {
    if r.phase == Input && mode == Free && r.input != [] {
      var t := DropLast(r.input);
      assert t == r.input[..|t|];
    }
  }

  // ---------------------------------------------------------------------------------------
  // Free mode

  /** In free mode a single typed digit either is the next digit of pi, which extends the
      correct prefix and keeps input open, or it is not, and the round ends as incorrect with
      the score offered to `piFree` being the number of correct digits typed before it. */
  lemma FreeModeSingleDigit(r: PiRound, digits: string, best: BestScores, num: string)
    requires PiInv(r, Free, digits) && r.phase == Input && |num| == 1
    ensures var s := Press(r, Free, digits, best, num);
      && s.round.input == r.input + num
      && (IsDigitAt(digits, |r.input|, num) ==>
            s.round.phase == Input && s.update == None && s.round.input == digits[..|r.input| + 1])
      && (!IsDigitAt(digits, |r.input|, num) ==>
            && s.round.phase == Result && s.round.isCorrect == Some(false)
            && s.update == (if |r.input| > best.piFree then Some(ScoreUpdate(PiFreeKey, |r.input|)) else None))
      && !s.advance
  {
    var k := |r.input|;
    var newInput := r.input + num;
    if IsDigitAt(digits, k, num) {
      assert newInput == digits[..k + 1];
    } else if k < |digits| {
      assert newInput[k] != digits[..k + 1][k];
    } else {
      assert |Expected(digits, |newInput|)| < |newInput|;
    }
  }

  /** Free mode can only end as correct through a key of more than one character: with the
      on-screen digit pad every free game ends as incorrect. */
  lemma FreeModeCorrectNeedsLongKey(r: PiRound, digits: string, best: BestScores, num: string)
    requires PiInv(r, Free, digits) && r.phase == Input
    requires Press(r, Free, digits, best, num).round.isCorrect == Some(true)
    ensures |num| != 1
  {
    if |num| == 1 {
      FreeModeSingleDigit(r, digits, best, num);
    }
  }

  /** Typing the next digits of pi one by one in free mode keeps input open and the typed
      text a prefix of pi. */
  lemma {:induction false} FreeModeTypingPi(r: PiRound, digits: string, best: BestScores, cs: string)
    requires PiInv(r, Free, digits) && r.phase == Input
    requires |r.input| + |cs| <= |digits| && r.input + cs == digits[..|r.input| + |cs|]
    ensures var t := TypeAll(r, Free, digits, best, cs);
      t.phase == Input && t.input == r.input + cs && PiInv(t, Free, digits)
    decreases |cs|
  {
    if cs != [] {
      var k := |r.input|;
      assert digits[..k + |cs|][k] == cs[0];
      assert IsDigitAt(digits, k, [cs[0]]);
      FreeModeSingleDigit(r, digits, best, [cs[0]]);
      var next := Press(r, Free, digits, best, [cs[0]]).round;
      PressKeepsInv(r, Free, digits, best, [cs[0]]);
      assert next.input + cs[1..] == r.input + cs;
      FreeModeTypingPi(next, digits, best, cs[1..]);
    }
  }

  /** The round after typing the characters of `cs` one at a time, against a fixed record. */
  function TypeAll(r: PiRound, mode: PiMode, digits: string, best: BestScores, cs: string): PiRound
    decreases |cs|
  {
    if cs == [] then r else TypeAll(Press(r, mode, digits, best, [cs[0]]).round, mode, digits, best, cs[1..])
  }

  // ---------------------------------------------------------------------------------------
  // Sequence mode

  /** In sequence mode, while the input is shorter than the level one typed character
      extends it; the character that brings it to the level's length ends the round, correct
      exactly when the input is the digits shown. Either way the level is offered to `pi`:
      a wrong answer at level `n` still records `n`. */
  lemma SequenceModeSingleDigit(r: PiRound, digits: string, best: BestScores, num: string)
    requires PiInv(r, Sequence, digits) && r.phase == Input && |num| == 1 && |r.input| < r.level
    ensures var s := Press(r, Sequence, digits, best, num);
      && s.round.input == r.input + num
      && (|r.input| + 1 < r.level ==> s.round.phase == Input && s.update == None)
      && (|r.input| + 1 == r.level ==>
            && s.round.phase == Result
            && (s.round.isCorrect == Some(true) <==> r.input + num == Expected(digits, r.level))
            && s.update == (if r.level > best.pi then Some(ScoreUpdate(PiKey, r.level)) else None)
            && (s.advance <==> s.round.isCorrect == Some(true)))
  {
  }

  /** Typing back exactly the digits shown, one at a time, ends the round as correct. */
  lemma {:induction false} SequenceModeReplaySucceeds(r: PiRound, digits: string, best: BestScores, cs: string)
    requires PiInv(r, Sequence, digits) && r.phase == Input
    requires r.level <= |digits| && cs != [] && r.input + cs == Expected(digits, r.level)
    ensures var t := TypeAll(r, Sequence, digits, best, cs);
      t.phase == Result && t.isCorrect == Some(true) && t.input == Expected(digits, r.level)
    decreases |cs|
  {
    var next := Press(r, Sequence, digits, best, [cs[0]]).round;
    SequenceModeSingleDigit(r, digits, best, [cs[0]]);
    PressKeepsInv(r, Sequence, digits, best, [cs[0]]);
    assert next.input + cs[1..] == r.input + cs;
    if |cs| == 1 {
      assert TypeAll(next, Sequence, digits, best, cs[1..]) == next;
    } else {
      SequenceModeReplaySucceeds(next, digits, best, cs[1..]);
    }
  }

  /** The learn mode never writes a best score and never advances by itself. */
  lemma LearnModeRecordsNothing(r: PiRound, digits: string, best: BestScores, num: string)
    ensures Press(r, Learn, digits, best, num).update == None && !Press(r, Learn, digits, best, num).advance
  {
  }

  /** A correct sequence-mode answer followed by `nextLevel` shows one digit more, and the
      digits shown before are a prefix of the new ones. */
  lemma NextLevelExtendsShownDigits(r: PiRound, digits: string)
    requires r.level >= 1 && r.level < |digits|
    ensures var n := Next(r, Sequence);
      && n.phase == Showing && n.level == r.level + 1 && n.input == []
      && Expected(digits, n.level) == Expected(digits, r.level) + [digits[r.level]]
  {
    assert digits[..r.level + 1] == digits[..r.level] + [digits[r.level]];
  }

  // ---------------------------------------------------------------------------------------
  // Pacing

  /** The `speedConfig` of `showSequence`: milliseconds each digit stays on screen. */
  function ShowSpeed(d: Difficulty): int {
    match d
    case Easy => 1000
    case Normal => 800
    case Hard => 600
  }

  lemma ShowSpeedIsMonotone()
    ensures ShowSpeed(Easy) > ShowSpeed(Normal) > ShowSpeed(Hard) > 0
  {
  }

  // ---------------------------------------------------------------------------------------
  // The screen

  class PiGame {
    const settings: SettingsStore
    /** `PI_DIGITS`. */
    const digits: string
    /** `gameConfig.piMode || 'sequence'`. */
    const mode: PiMode

    var phase: Phase
    var level: int
    var userInput: string
    var isCorrect: Option<bool>
    var isNewRecord: bool

    function State(): PiRound
      reads this
    {
      PiRound(phase, level, userInput, isCorrect, isNewRecord)
    }

    ghost predicate Valid()
      reads this
    {
      PiInv(State(), mode, digits)
    }

    /** Mounting the screen: level 1, `startGame`. */
    constructor(store: SettingsStore, piDigits: string)
      ensures settings == store && digits == piDigits && mode == EffectivePiMode(store.gameConfig)
      ensures Valid() && level == 1
      ensures phase == (if mode == Sequence then Showing else Input)
      ensures userInput == [] && isCorrect == None && !isNewRecord
    {
      settings := store;
      digits := piDigits;
      mode := EffectivePiMode(store.gameConfig);
      level := 1;
      userInput := [];
      isCorrect := None;
      isNewRecord := false;
      phase := if EffectivePiMode(store.gameConfig) == Sequence then Showing else Input;
    }

    /** `checkAnswer(input)`. It is called right after a press, when the free-mode text may
        no longer be a prefix of pi, so it does not need `Valid()`; the result screen it
        leaves is valid whenever the level is positive. */
    method CheckAnswer(input: string) returns (advanceScheduled: bool)
      modifies this, settings
      ensures Valid() <==> level >= 1
      ensures level == old(level)
      ensures var s := Check(old(State()), mode, digits, old(settings.bestScores), input);
        && State() == s.round && advanceScheduled == s.advance
        && settings.bestScores == Apply(old(settings.bestScores), s.update)
        && settings.storage ==
             if s.update.Some?
             then old(settings.storage)[BEST_SCORES_KEY := Written(ScoresJson(settings.bestScores))]
             else old(settings.storage)
      ensures settings.Prefs() == old(settings.Prefs())
    {
      var actualLength := if mode == Free then |input| else level;
      var correctSequence := JsText.Substring(digits, 0, actualLength);
      var correct := input == correctSequence;
      isCorrect := Some(correct);
      phase := Result;
      advanceScheduled := correct && mode == Sequence;
      if correct {
        isNewRecord := if mode == Sequence then level > settings.bestScores.pi else |input| > settings.bestScores.piFree;
        if mode == Sequence && level > settings.bestScores.pi {
          settings.UpdateBestScore(PiKey, level);
        } else if mode == Free && |input| > settings.bestScores.piFree {
          settings.UpdateBestScore(PiFreeKey, |input|);
        }
      } else {
        var actualScore := if mode == Free then Max(0, |input| - 1) else level;
        isNewRecord := if mode == Sequence then actualScore > settings.bestScores.pi else actualScore > settings.bestScores.piFree;
        if mode == Sequence && actualScore > settings.bestScores.pi {
          settings.UpdateBestScore(PiKey, actualScore);
        } else if mode == Free && actualScore > settings.bestScores.piFree {
          settings.UpdateBestScore(PiFreeKey, actualScore);
        }
      }
    }

    /** `handleNumberPress(num)`. */
    method HandleNumberPress(num: string) returns (advanceScheduled: bool)
      requires Valid()
      modifies this, settings
      ensures Valid()
      ensures var s := Press(old(State()), mode, digits, old(settings.bestScores), num);
        && State() == s.round && advanceScheduled == s.advance
        && settings.bestScores == Apply(old(settings.bestScores), s.update)
        && settings.storage ==
             if s.update.Some?
             then old(settings.storage)[BEST_SCORES_KEY := Written(ScoresJson(settings.bestScores))]
             else old(settings.storage)
      ensures settings.Prefs() == old(settings.Prefs())
    {
      PressKeepsInv(State(), mode, digits, settings.bestScores, num);
      advanceScheduled := false;
      if phase != Input {
        return;
      }
      var newInput := userInput + num;
      var currentIndex := |userInput|;
      if mode == Free {
        if !IsDigitAt(digits, currentIndex, num) {
          userInput := newInput;
          advanceScheduled := CheckAnswer(newInput);
          return;
        }
        userInput := newInput;
      } else {
        userInput := newInput;
        if |newInput| == level {
          advanceScheduled := CheckAnswer(newInput);
        }
      }
    }

    /** `handleBackspace`. */
    method HandleBackspace()
      requires Valid()
      modifies this
      ensures Valid() && State() == Backspace(old(State()))
    {
      EventsKeepInv(State(), mode, digits);
      if phase != Input {
        return;
      }
      userInput := DropLast(userInput);
    }

    /** The `keydown` listener. */
    method HandleKey(key: Option<string>, nativeKey: Option<string>)
      requires Valid()
      modifies this, settings
      ensures Valid()
      ensures match KeyActionOf(old(phase), EventKey(key, nativeKey))
        case IgnoreKey => State() == old(State()) && settings.bestScores == old(settings.bestScores)
          && settings.storage == old(settings.storage)
        case EraseKey => State() == Backspace(old(State())) && settings.bestScores == old(settings.bestScores)
          && settings.storage == old(settings.storage)
        case DigitKey(num) =>
          var s := Press(old(State()), mode, digits, old(settings.bestScores), num);
          && State() == s.round && settings.bestScores == Apply(old(settings.bestScores), s.update)
          && settings.storage ==
               if s.update.Some?
               then old(settings.storage)[BEST_SCORES_KEY := Written(ScoresJson(settings.bestScores))]
               else old(settings.storage)
      ensures settings.Prefs() == old(settings.Prefs())
    {
      if phase != Input {
        return;
      }
      var k := EventKey(key, nativeKey);
      if k.None? || k.value == [] {
        return;
      }
      if JsText.LessOrEqual("0", k.value) && JsText.LessOrEqual(k.value, "9") {
        var _ := HandleNumberPress(k.value);
      } else if k.value == "Backspace" || k.value == "Delete" {
        HandleBackspace();
      }
    }

    /** The end of `showSequence`: input opens. */
    method FinishShowing()
      requires Valid()
      modifies this
      ensures Valid() && State() == Shown(old(State()))
    {
      EventsKeepInv(State(), mode, digits);
      if phase == Showing {
        phase := Input;
      }
    }

    /** `startGame` with the current level. */
    method StartGame()
      requires Valid()
      modifies this
      ensures Valid() && State() == Start(old(State()), mode)
    {
      userInput := [];
      isCorrect := None;
      isNewRecord := false;
      phase := if mode == Sequence then Showing else Input;
    }

    /** `nextLevel`, run by the timer after a correct sequence-mode answer. */
    method NextLevel()
      requires Valid()
      modifies this
      ensures Valid() && State() == Next(old(State()), mode)
    {
      EventsKeepInv(State(), mode, digits);
      level := level + 1;
      StartGame();
    }

    /** `restartGame`. */
    method RestartGame()
      requires Valid()
      modifies this
      ensures Valid() && State() == Restart(old(State()), mode)
    {
      EventsKeepInv(State(), mode, digits);
      level := 1;
      StartGame();
    }
  }
}
