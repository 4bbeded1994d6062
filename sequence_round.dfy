/** One round of the grid games (app/game-colors.tsx and app/game-numbers.tsx run the same
    rules): a target sequence of cell indices is shown, the player taps cells, the first wrong
    tap ends the round as incorrect and a complete correct sequence ends it as correct; a
    correct round advances by appending one random cell to the same sequence. */
module SequenceRound {
  import opened Wrappers
  import opened SettingsContext
  import JsText
  import opened GamePhase

  /** The state both grid screens keep: `gamePhase`, `currentLevel`, `sequence`,
      `userSequence` and `isCorrect` (`None` is `null`). */
  datatype Round = Round(phase: Phase, level: int, sequence: seq<int>, userSequence: seq<int>, isCorrect: Option<bool>)

  /** `parseInt(gridSize.split('x')[0], 10)`: the side of the square grid. */
  function GridDimension(g: GridSize): (n: int)
    ensures n == match g case Grid2x2 => 2 case Grid3x3 => 3 case Grid4x4 => 4 case Grid5x5 => 5
  {
    var text := GridSizeText(g);
    FirstFieldOfOneChar(text, 'x');
    var n := match g case Grid2x2 => 2 case Grid3x3 => 3 case Grid4x4 => 4 case Grid5x5 => 5;
    assert text[..1] == JsText.IntToString(n);
    JsText.ParseIntOfIntToString(n);
    JsText.ParseInt(FirstField(text, 'x')).GetOr(0)
  }

  lemma FirstFieldOfOneChar(s: string, sep: char)
    requires |s| >= 2 && s[0] != sep && s[1] == sep
    ensures FirstField(s, sep) == s[..1]
  {
    assert FirstField(s[1..], sep) == [];
  }

  /** `s.split(sep)[0]`: the text before the first separator. */
  function FirstField(s: string, sep: char): (r: string)
    ensures |r| <= |s| && r == s[..|r|] && sep !in r
    ensures |r| < |s| ==> s[|r|] == sep
  {
    if s == [] || s[0] == sep then [] else [s[0]] + FirstField(s[1..], sep)
  }

  /** `totalCells`: the number of cells of the grid. */
  function TotalCells(g: GridSize): (n: int)
    ensures 4 <= n <= 25
    ensures n == match g case Grid2x2 => 4 case Grid3x3 => 9 case Grid4x4 => 16 case Grid5x5 => 25
  {
    var d := GridDimension(g);
    assert d == 2 || d == 3 || d == 4 || d == 5;
    d * d
  }

  /** Every element is a cell index of a grid of `cells` cells. */
  predicate InRange(s: seq<int>, cells: int) {
    forall i :: 0 <= i < |s| ==> 0 <= s[i] < cells
  }

  /** `u` is a prefix of `s` that is shorter than `s`. */
  predicate IsProperPrefix(u: seq<int>, s: seq<int>) {
    |u| < |s| && u == s[..|u|]
  }

  /** `u` agrees with `s` up to its last element, which is the first one that differs. */
  predicate FailsAtLast(u: seq<int>, s: seq<int>) {
    0 < |u| <= |s| && u[..|u| - 1] == s[..|u| - 1] && u[|u| - 1] != s[|u| - 1]
  }

  /** The invariant of a round: the level is the length of the target; while the target is
      shown nothing has been tapped; during input the taps so far are a proper prefix of the
      target; in the result the outcome is recorded, correct exactly when the taps are the
      whole target, and otherwise the last tap is the first wrong one. */
  ghost predicate Inv(r: Round, cells: int) {
    && r.level >= 1
    && |r.sequence| == r.level
    && InRange(r.sequence, cells)
    && (r.phase == Showing ==> r.userSequence == [] && r.isCorrect == None)
    && (r.phase == Input ==> IsProperPrefix(r.userSequence, r.sequence) && r.isCorrect == None)
    && (r.phase == Result ==>
          && r.isCorrect.Some?
          && (r.isCorrect.value <==> r.userSequence == r.sequence)
          && (!r.isCorrect.value ==> FailsAtLast(r.userSequence, r.sequence)))
  }

  /** `newUserSequence[k] !== sequence[k]`: an index past the end of the target reads
      `undefined`, which differs from every tap. */
  predicate Mismatch(s: seq<int>, k: int, tap: int) {
    k < 0 || k >= |s| || s[k] != tap
  }

  /** `handleCellPress(index)`. */
  function Press(r: Round, index: int): Round {
    if r.phase != Input then r
    else
      var u := r.userSequence + [index];
      if Mismatch(r.sequence, |u| - 1, index) then r.(phase := Result, userSequence := u, isCorrect := Some(false))
      else if |u| == |r.sequence| then r.(phase := Result, userSequence := u, isCorrect := Some(true))
      else r.(userSequence := u)
  }

  /** The end of `showSequence`: every element was shown, input opens. */
  function Shown(r: Round): Round {
    r.(phase := Input)
  }

  /** `nextLevel`: one level up, the same target with `added` appended, shown again. */
  function Advance(r: Round, added: int): Round {
    Round(Showing, r.level + 1, r.sequence + [added], [], None)
  }

  /** `restartGame`: level 1 with a fresh one-element target. */
  function Restart(first: int): Round {
    Round(Showing, 1, [first], [], None)
  }

  /** A tap that made the whole target correctly: the moment the best score is offered. */
  predicate CompletedCorrectly(before: Round, after: Round) {
    before.phase == Input && after.phase == Result && after.isCorrect == Some(true)
  }

  /** The best-score record after a tap, when a correct completion offers the finished level
      for slot `k` (`if (currentLevel > currentBest) updateBestScore(k, currentLevel)`). */
  function BestAfterPress(r: Round, index: int, best: BestScores, k: ScoreKey): BestScores {
    if CompletedCorrectly(r, Press(r, index)) && r.level > Get(best, k) then Record(best, k, r.level) else best
  }

  // ---------------------------------------------------------------------------------------
  // Properties of one step

  /** Outside input a tap changes nothing; during input it appends exactly the tapped cell,
      ends the round as incorrect when that cell differs from the target at the same position,
      ends it as correct when it completes the target, and otherwise leaves input open. */
  lemma PressEffect(r: Round, cells: int, index: int)
    requires Inv(r, cells)
    ensures r.phase != Input ==> Press(r, index) == r
    ensures r.phase == Input ==>
      var p := Press(r, index);
      var k := |r.userSequence|;
      && p.userSequence == r.userSequence + [index]
      && p.level == r.level && p.sequence == r.sequence
      && (index != r.sequence[k] ==> p.phase == Result && p.isCorrect == Some(false))
      && (index == r.sequence[k] && k + 1 == |r.sequence| ==> p.phase == Result && p.isCorrect == Some(true))
      && (index == r.sequence[k] && k + 1 < |r.sequence| ==> p.phase == Input)
  {
  }

  lemma PressKeepsInv(r: Round, cells: int, index: int)
    requires Inv(r, cells)
    ensures Inv(Press(r, index), cells)
  {
    if r.phase == Input {
      var u := r.userSequence + [index];
      var k := |r.userSequence|;
      assert u[..k] == r.userSequence == r.sequence[..k];
      if !Mismatch(r.sequence, k, index) {
        assert u == r.sequence[..k + 1];
      }
    }
  }

  lemma ShownKeepsInv(r: Round, cells: int)
    requires Inv(r, cells) && r.phase == Showing
    ensures Inv(Shown(r), cells) && Shown(r).phase == Input && Shown(r).userSequence == []
  {
  }

  /** An advance keeps the target shown so far as a prefix, adds exactly one element in range,
      raises the level by one and restarts the showing phase with no taps. */
  lemma AdvanceKeepsPrefix(r: Round, cells: int, added: int)
    requires Inv(r, cells) && 0 <= added < cells
    ensures var a := Advance(r, added);
      && Inv(a, cells)
      && a.sequence[..|r.sequence|] == r.sequence
      && |a.sequence| == |r.sequence| + 1 && a.sequence[|r.sequence|] == added
      && a.level == r.level + 1 && a.phase == Showing && a.userSequence == []
  {
    assert Advance(r, added).sequence[..|r.sequence|] == r.sequence;
  }

  lemma RestartKeepsInv(cells: int, first: int)
    requires 0 <= first < cells
    ensures Inv(Restart(first), cells) && Restart(first).level == 1 && |Restart(first).sequence| == 1
  {
  }

  /** A tap changes the record only in slot `k`, never lowers it, raises it to the level
      exactly when the tap completes the whole target and the level beats the slot, and
      leaves it alone after a wrong tap, an unfinished target or a tap outside input. */
  lemma BestAfterPressEffect(r: Round, cells: int, index: int, best: BestScores, k: ScoreKey)
    requires Inv(r, cells)
    ensures var b := BestAfterPress(r, index, best, k);
      && Get(b, k) >= Get(best, k)
      && (forall k' :: k' != k ==> Get(b, k') == Get(best, k'))
      && (b != best <==> r.phase == Input && Press(r, index).userSequence == r.sequence && r.level > Get(best, k))
      && (b != best ==> Get(b, k) == r.level)
  {
    var p := Press(r, index);
    PressKeepsInv(r, cells, index);
    if r.phase == Input && p.userSequence == r.sequence {
      assert |r.userSequence| + 1 == |r.sequence|;
      assert r.sequence[|r.userSequence|] == index;
    }
  }

  // ---------------------------------------------------------------------------------------
  // Properties of a whole input phase

  /** The round after the player taps `taps` in order. */
  function PressAll(r: Round, taps: seq<int>): Round
    decreases |taps|
  {
    if taps == [] then r else PressAll(Press(r, taps[0]), taps[1..])
  }

  /** Tapping back exactly the target from the start of input ends the round as correct. */
  lemma {:induction false} ReplayingTheTargetSucceeds(r: Round, cells: int, taps: seq<int>)
    requires Inv(r, cells) && r.phase == Input
    requires r.userSequence + taps == r.sequence && taps != []
    ensures PressAll(r, taps).phase == Result && PressAll(r, taps).isCorrect == Some(true)
    ensures PressAll(r, taps).userSequence == r.sequence
    decreases |taps|
  {
    var k := |r.userSequence|;
    assert taps[0] == r.sequence[k];
    var p := Press(r, taps[0]);
    PressKeepsInv(r, cells, taps[0]);
    assert p.userSequence == r.userSequence + [taps[0]];
    if |taps| == 1 {
      assert PressAll(p, taps[1..]) == p;
    } else {
      assert p.userSequence + taps[1..] == r.sequence;
      ReplayingTheTargetSucceeds(p, cells, taps[1..]);
    }
  }

  /** The first wrong tap ends the round as incorrect, whatever is tapped after it: the taps
      that count are those up to and including the first wrong one. */
  lemma {:induction false} FirstMismatchEndsTheRound(r: Round, cells: int, taps: seq<int>, m: nat)
    requires Inv(r, cells) && r.phase == Input
    requires m < |taps| && |r.userSequence| + m < |r.sequence|
    requires r.userSequence + taps[..m] == r.sequence[..|r.userSequence| + m]
    requires taps[m] != r.sequence[|r.userSequence| + m]
    ensures PressAll(r, taps).phase == Result && PressAll(r, taps).isCorrect == Some(false)
    ensures PressAll(r, taps).userSequence == r.userSequence + taps[..m + 1]
    decreases |taps|
  {
    var k := |r.userSequence|;
    var p := Press(r, taps[0]);
    PressKeepsInv(r, cells, taps[0]);
    assert p.userSequence == r.userSequence + [taps[0]];
    if m == 0 {
      assert p.phase == Result && p.isCorrect == Some(false);
      ResultIsFinal(p, taps[1..]);
      assert taps[..1] == [taps[0]];
    } else {
      assert taps[0] == (r.userSequence + taps[..m])[k];
      assert taps[0] == r.sequence[k];
      assert p.phase == Input;
      assert taps[1..][..m - 1] == taps[1..m];
      assert p.userSequence + taps[1..][..m - 1] == r.userSequence + taps[..m];
      FirstMismatchEndsTheRound(p, cells, taps[1..], m - 1);
      assert r.userSequence + taps[..m + 1] == p.userSequence + taps[1..][..m];
    }
  }

  /** Once the result is shown, further taps are ignored. */
  lemma {:induction false} ResultIsFinal(r: Round, taps: seq<int>)
    requires r.phase == Result
    ensures PressAll(r, taps) == r
    decreases |taps|
  {
    if taps != [] {
      ResultIsFinal(Press(r, taps[0]), taps[1..]);
    }
  }

  // ---------------------------------------------------------------------------------------
  // Sequence generation and pacing

  /** `generateSequence(length)`: `length` cells, each drawn from `[0, cells)`
      (`Math.floor(Math.random() * totalCells)`; the draw is a free choice here). */
  method GenerateSequence(length: nat, cells: int) returns (s: seq<int>)
    requires cells > 0
    ensures |s| == length && InRange(s, cells)
  {
    s := [];
    for i := 0 to length
      invariant |s| == i && InRange(s, cells)
    {
      var cell :| 0 <= cell < cells;
      s := s + [cell];
    }
  }

  /** How long each cell is lit and how long the pause after it lasts, in milliseconds. */
  datatype Pace = Pace(show: int, pause: int)

  /** The `speedConfig` table of the grid screens. */
  function Speed(d: Difficulty): Pace {
    match d
    case Easy => Pace(800, 300)
    case Normal => Pace(600, 200)
    case Hard => Pace(400, 150)
  }

  /** A harder difficulty never shows a cell longer or pauses longer than an easier one. */
  lemma SpeedIsMonotone()
    ensures Speed(Easy).show >= Speed(Normal).show >= Speed(Hard).show > 0
    ensures Speed(Easy).pause >= Speed(Normal).pause >= Speed(Hard).pause > 0
  {
  }
}
