# Sequence Master: game logic in Dafny

This project models the game logic of Sequence Master, a memory game app with three games.

- **Colour grid.** A sequence of lit cells is shown and the player taps it back.
- **Number grid.** The same rules, with numbered cells.
- **Pi.** In sequence mode the first *n* digits of pi are shown and typed back. In free mode the player types digits of pi until the first mistake.

The app also has a shared settings and best-score store, a screen that lists the digits of pi in rows of ten, and a mode selection screen that writes the game configuration and opens a game.

The model has one module per source file. `SequenceRound` holds the rules the two grid games share, and four support modules hold the phase type and the JavaScript semantics.

| module | file | models |
|---|---|---|
| `SettingsContext` | `settings_context.dfy` | `contexts/SettingsContext.tsx` as a class `SettingsStore`. Its fields are the preferences, the configuration, the best scores and the device storage (a map from key to stored entry). The load decisions, the record check and the best-score update are functions proved about separately. |
| `SequenceRound` | `sequence_round.dfy` | The round rules that `app/game-colors.tsx` and `app/game-numbers.tsx` share: the grid-size parse, `generateSequence`, the tap rule, advance, restart and the speed table. It also proves the invariant of a round and what a whole input phase does. |
| `GameColors` | `game_colors.dfy` | `app/game-colors.tsx` as a class whose methods are proved against `SequenceRound`. |
| `GameNumbers` | `game_numbers.dfy` | `app/game-numbers.tsx`: the same class shape, the unused `checkAnswer` judgement, the best-score lookup as written and as corrected, and the advance that the button and the timer can both start (see Findings). |
| `GamePi` | `game_pi.dfy` | `app/game-pi.tsx`: the answer check, the press, backspace and key handlers, and start, advance and restart. These are spec functions over a `PiRound` value and a class `PiGame` proved against them. |
| `PiDigits` | `pi_digits.dfy` | `app/pi-digits.tsx`: the digit count clamp, the `formatDigits` loop and the row labels. |
| `ModeSelect` | `mode_select.dfy` | `app/mode-select.tsx`: the selection class, the resync effect, and the patch and route `handleStart` chooses. |
| `GamePhase` | `game_phase.dfy` | The `'showing' \| 'input' \| 'result'` phase that every game screen declares. |
| `JsText`, `JsonValue`, `Wrappers` | | The JavaScript semantics the code relies on: `parseInt`, `toString`, `padStart`, `substring`, string comparison, truthiness, `||` and `??`, and an `Option` type standing for `undefined` / `null` / `NaN`. |

## How it is modelled

**Effects and external inputs**
- Each timer callback the screens schedule is an explicit method: `FinishShowing` for the end of the showing phase, and `NextLevel` for the automatic advance. On the number grid, where a button can also advance, the timer is `TimerFires` and a pending advance is a field.
- `Math.random()` is a free choice within the same range.
- The digits of pi are a parameter (`PI_DIGITS` lives in `constants/pi.ts`, which is not part of this model).
- Storage reads and writes act on the `storage` map of `SettingsStore`.
- What `JSON.parse` returns for text that the store did not write itself is an input (`Entry.Foreign`).

**Behaviour the model pins down**
- **Pi, sequence mode:** a wrong answer at level *n* still offers *n* to the `pi` best score (`GamePi.SequenceModeSingleDigit`). Free mode offers only the number of correct digits.
- **Pi, free mode:** with single-character keys the game always ends as incorrect. A "correct" result needs a key of several characters (`GamePi.FreeModeCorrectNeedsLongKey`).
- **Pi key filter:** `key >= '0' && key <= '9'` compares strings. It accepts every key that starts with `0` to `8`, and `9` itself (`GamePi.DigitFilterIsLexicographic`).

## Model

| member | source | states |
|---|---|---|
| `JsText.ParseIntOfIntToString` | app/game-colors.tsx:41 | `parseInt` reads back what `toString` writes, for every integer |
| `JsText.ParseIntOfZeroPadded` | app/pi-digits.tsx:106 | zero padding on the left does not change the value `parseInt` reads |
| `JsText.Substring` | app/pi-digits.tsx:27 | `substring(a, b)` with ends in range is the slice `[a, b)` |
| `SettingsContext.ThemeNameLookup` | contexts/SettingsContext.tsx:5 | a name selects a theme exactly when it is that theme's name |
| `SettingsContext.Palette` | contexts/SettingsContext.tsx:440 | the palette is the stored theme's when it names a theme, and orange otherwise |
| `SettingsContext.MergeConfigProperties` | contexts/SettingsContext.tsx:373-375 | a patch overwrites exactly the fields it carries: each carried field takes the patch's value, each absent field keeps the old one, the empty patch is the identity, a full patch replaces everything, and the merge is idempotent |
| `SettingsContext.With` | contexts/SettingsContext.tsx:382-386 | writing a slot sets that slot and leaves the other three alone |
| `SettingsContext.Record` | contexts/SettingsContext.tsx:381-395 | after an update the slot holds `max(old, score)`, the other slots are unchanged, and the record changes exactly when the score is strictly greater |
| `SettingsContext.ReplayIsRunningMax` | contexts/SettingsContext.tsx:377-400 | after any run of updates each slot holds the maximum of its start value and the scores offered to it, so it never decreases |
| `SettingsContext.AsWrittenAcceptsNonNumericPiFree` | contexts/SettingsContext.tsx:320-323 | the shape check as written accepts a record whose `piFree` is not a number, and the merge keeps that value |
| `SettingsContext.ScoresFromRecord` | contexts/SettingsContext.tsx:319-327 | an accepted record gives the stored `colors`, `numbers` and `pi`, and the stored `piFree` or 0 when it is missing |
| `SettingsContext.ScoresRoundTrip` | contexts/SettingsContext.tsx:319-327 | any record the store writes is accepted unchanged by the next load |
| `SettingsContext.SettingsFromObject` | contexts/SettingsContext.tsx:280-283 | a missing or falsy theme reads as orange and a truthy one is kept. A missing or null flag reads as true, and a stored boolean is kept |
| `SettingsContext.SettingsRoundTrip` | contexts/SettingsContext.tsx:341-352 | saved preferences load back as saved, with a falsy theme loading as orange |
| `SettingsContext.SettingsStore.constructor` | contexts/SettingsContext.tsx:230-241 | initial state: orange theme, music and haptics on, pi/sequence/normal/3x3, all scores 0 |
| `SettingsContext.SettingsStore.SaveSettings` | contexts/SettingsContext.tsx:341-352 | writes the three preferences under `pi_game_settings` and changes nothing else |
| `SettingsContext.SettingsStore.LoadSettings` | contexts/SettingsContext.tsx:260-298 | null or blank text: nothing changes. Text that does not look like JSON: the key is removed. Text that does not parse: defaults. A parsed non-object: key removed and defaults. An object: its preferences |
| `SettingsContext.SettingsStore.LoadBestScores` | contexts/SettingsContext.tsx:300-339 | null or blank: nothing changes. Text that does not look like JSON: key removed, record kept. Text that does not parse: record reset. Not a score record: key removed and record reset. Otherwise the stored record over the defaults |
| `SettingsContext.SettingsStore.UpdateTheme` | contexts/SettingsContext.tsx:354-357 | sets the theme, keeps the flags, and saves the preferences |
| `SettingsContext.SettingsStore.ToggleMusic` | contexts/SettingsContext.tsx:359-365 | flips music, keeps everything else, and saves the preferences |
| `SettingsContext.SettingsStore.ToggleHaptics` | contexts/SettingsContext.tsx:367-371 | flips haptics, keeps everything else, and saves the preferences |
| `SettingsContext.ToggleHapticsTwice` | contexts/SettingsContext.tsx:367-371 | toggling haptics twice restores every preference |
| `SettingsContext.SettingsStore.UpdateGameConfig` | contexts/SettingsContext.tsx:373-375 | the configuration becomes the merge of the old one and the patch |
| `SettingsContext.SettingsStore.UpdateBestScore` | contexts/SettingsContext.tsx:377-400 | the record becomes `Record(old, slot, score)`, and storage is written only when the score is strictly greater |
| `SettingsContext.SettingsStore.ResetBestScores` | contexts/SettingsContext.tsx:402-411 | all four slots become 0 and the zero record is written to storage |
| `SettingsContext.ResetThenLoad` | contexts/SettingsContext.tsx:402-405 | after a reset, loading gives the zero record whatever was stored before |
| `SequenceRound.GridDimension` | app/game-colors.tsx:41 | parsing the text before `x` in `"NxN"` gives N, for each of the four sizes |
| `SequenceRound.TotalCells` | app/game-colors.tsx:42 | a grid has the square of its side in cells: 4, 9, 16 or 25 |
| `SequenceRound.GenerateSequence` | app/game-colors.tsx:48-54 | returns exactly `length` cells, each in `[0, cells)` |
| `SequenceRound.SpeedIsMonotone` | app/game-colors.tsx:59-63 | harder difficulties never show a cell longer or pause longer |
| `SequenceRound.PressEffect` | app/game-colors.tsx:136-200 | outside input a tap changes nothing. In input it appends exactly the tapped cell. A mismatch gives an incorrect result, completing the target gives a correct result, and otherwise input stays open |
| `SequenceRound.PressKeepsInv` | app/game-colors.tsx:149-200 | a tap keeps the round invariant: during input the taps are a proper prefix of the target, and a result is correct exactly when the taps are the whole target |
| `SequenceRound.ShownKeepsInv` | app/game-colors.tsx:77-80 | the end of the showing phase opens input with no taps |
| `SequenceRound.AdvanceKeepsPrefix` | app/game-colors.tsx:118-134 | an advance keeps the old target as a prefix, appends one in-range cell, raises the level by one, and restarts showing with no taps |
| `SequenceRound.RestartKeepsInv` | app/game-colors.tsx:213-223 | a restart gives level 1 with a one-cell target that satisfies the invariant |
| `SequenceRound.BestAfterPressEffect` | app/game-colors.tsx:195-198 | a tap changes only its own slot and never lowers it. It raises the slot to the level exactly when the tap completes the target and the level beats the slot |
| `SequenceRound.ReplayingTheTargetSucceeds` | app/game-colors.tsx:190-200 | tapping back the rest of the target ends the round as correct |
| `SequenceRound.FirstMismatchEndsTheRound` | app/game-colors.tsx:152-188 | the first wrong tap ends the round as incorrect whatever follows, and the taps recorded end at that tap |
| `SequenceRound.ResultIsFinal` | app/game-colors.tsx:137 | once the result is shown, further taps change nothing |
| `GameColors.ColorsGame.constructor` | app/game-colors.tsx:86-106 | mounting starts level 1 with a one-cell target in the showing phase |
| `GameColors.ColorsGame.FinishShowing` | app/game-colors.tsx:77-80 | the showing phase ends in input |
| `GameColors.ColorsGame.HandleCellPress` | app/game-colors.tsx:136-211 | the round moves as `Press` says, and the `colors` best and its storage follow `BestAfterPress` |
| `GameColors.ColorsGame.NextLevel` | app/game-colors.tsx:118-134 | the round becomes `Advance` with a cell drawn in range |
| `GameColors.ColorsGame.RestartGame` | app/game-colors.tsx:213-223 | the round becomes `Restart` with a cell drawn in range |
| `GameNumbers.AsWrittenNeverRecords` | app/game-numbers.tsx:221-224 | with the lookup as written, no tap ever changes the best-score record |
| `GameNumbers.FirstRoundIsNotRecorded` | app/game-numbers.tsx:221-224 | a correct first round on a fresh install is recorded by the intended lookup and not by the lookup as written |
| `GameNumbers.CheckAnswer` | app/game-numbers.tsx:102-104 | equal lengths and every position equal is exactly sequence equality |
| `GameNumbers.CheckAnswerAgreesWithPress` | app/game-numbers.tsx:102-104 | the tap-by-tap verdict agrees with the `checkAnswer` judgement |
| `GameNumbers.NumbersGame.constructor` | app/game-numbers.tsx:79-93 | mounting starts level 1 with a one-cell target in the showing phase, with no advance pending |
| `GameNumbers.NumbersGame.FinishShowing` | app/game-numbers.tsx:68-73 | the showing phase ends in input |
| `GameNumbers.NumbersGame.HandleCellPress` | app/game-numbers.tsx:168-237 | the round moves as `Press` says, the `numbers` best follows `BestAfterPress` with the corrected lookup, and an advance becomes pending exactly when the tap completes the target |
| `GameNumbers.NumbersGame.NextLevel` | app/game-numbers.tsx:239-250 | the round becomes `Advance` with a cell drawn in range, and a pending timer is cancelled, so the level keeps counting the target's cells |
| `GameNumbers.NumbersGame.TimerFires` | app/game-numbers.tsx:233-235 | the timer advances the round only while its advance is still pending, and otherwise changes nothing |
| `GameNumbers.ButtonThenTimerBreaksTheRound` | app/game-numbers.tsx:233-242 | as written, the button and then the timer raise the level by two but lengthen the target by one, which breaks the round invariant |
| `GameNumbers.NumbersGame.RestartGame` | app/game-numbers.tsx:252-262 | from the wrong-answer screen, where no advance is pending, the round becomes `Restart` with a cell drawn in range |
| `GamePi.Expected` | app/game-pi.tsx:56 | the shown digits are the first `level` digits of pi, or all of them when `level` is larger |
| `GamePi.Judge` | app/game-pi.tsx:130-176 | correct exactly when the input equals the pi prefix of the level's length (sequence mode) or of its own length (free mode). Sequence mode offers the level to `pi`, whether right or wrong. Free mode offers the input's length when right and one less (at least 0) when wrong to `piFree`. Learn mode offers nothing. A score is recorded exactly when it beats its slot, and the record banner shows exactly then. Auto-advance follows exactly a correct sequence-mode answer |
| `GamePi.DropLast` | app/game-pi.tsx:231-234 | `slice(0, -1)` removes the last character and leaves empty text empty |
| `GamePi.DigitFilterIsLexicographic` | app/game-pi.tsx:244 | the filter accepts exactly the keys that start with `0`–`8`, and `9` itself |
| `GamePi.KeyActionCases` | app/game-pi.tsx:236-250 | in input every single digit is typed, `Backspace` and `Delete` erase, a one-character key that is typed is a digit, and `10` passes the filter |
| `GamePi.PressKeepsInv` | app/game-pi.tsx:207-229 | a press keeps the screen invariant: in free mode the typed text stays a prefix of pi |
| `GamePi.EventsKeepInv` | app/game-pi.tsx:231-234 | backspace, the end of showing, advance and restart keep the invariant |
| `GamePi.FreeModeSingleDigit` | app/game-pi.tsx:213-221 | in free mode the next digit of pi extends the prefix and keeps input open. Any other digit ends the round as incorrect and offers the number of correct digits typed before it |
| `GamePi.FreeModeCorrectNeedsLongKey` | app/game-pi.tsx:213-218 | a free-mode press judged correct was not a single character |
| `GamePi.FreeModeTypingPi` | app/game-pi.tsx:213-221 | typing the next digits of pi one by one keeps input open with the typed text a prefix of pi |
| `GamePi.SequenceModeSingleDigit` | app/game-pi.tsx:222-227 | in sequence mode a press below the level only extends the input. The press that reaches the level is checked against the shown digits, offers the level to `pi`, and advances exactly when correct |
| `GamePi.SequenceModeReplaySucceeds` | app/game-pi.tsx:222-227 | typing back the shown digits one by one ends the round as correct |
| `GamePi.LearnModeRecordsNothing` | app/game-pi.tsx:151-162 | the learn mode never updates a best score and never advances by itself |
| `GamePi.NextLevelExtendsShownDigits` | app/game-pi.tsx:124-128 | the next level shows the previous digits plus one more |
| `GamePi.ShowSpeedIsMonotone` | app/game-pi.tsx:58-62 | harder difficulties show each digit for less time |
| `GamePi.PiGame.constructor` | app/game-pi.tsx:113-122 | mounting starts level 1: showing in sequence mode, input otherwise, with empty input |
| `GamePi.PiGame.CheckAnswer` | app/game-pi.tsx:130-205 | the state becomes the result of `Judge`. The best score and storage follow its update, the auto-advance flag follows its verdict, and the result screen is valid exactly when the level is positive |
| `GamePi.PiGame.HandleNumberPress` | app/game-pi.tsx:207-229 | the state, best score and storage follow `Press` |
| `GamePi.PiGame.HandleBackspace` | app/game-pi.tsx:231-234 | the state follows `Backspace` |
| `GamePi.PiGame.HandleKey` | app/game-pi.tsx:236-258 | a key is ignored, erases, or is typed, as `KeyActionOf` decides. Only a typed key can change the best score and storage, and then as `Press` says; the preferences never change |
| `GamePi.PiGame.FinishShowing` | app/game-pi.tsx:86-92 | the showing phase ends in input |
| `GamePi.PiGame.StartGame` | app/game-pi.tsx:98-111 | the input is emptied and the verdict cleared, keeping the screen invariant. The phase is showing in sequence mode and input otherwise |
| `GamePi.PiGame.NextLevel` | app/game-pi.tsx:124-128 | one level up, then started again |
| `GamePi.PiGame.RestartGame` | app/game-pi.tsx:260-265 | back to level 1, then started again |
| `PiDigits.DisplayCount` | app/pi-digits.tsx:26 | never more than the digits available. Text that does not parse, or parses as 0, asks for 100. Any other number is kept |
| `PiDigits.DisplayedDigits` | app/pi-digits.tsx:27 | the shown digits are a prefix of pi: empty for a count of 0 or less, and exactly `count` long when in range |
| `PiDigits.DisplayedIsPrefix` | app/pi-digits.tsx:26-27 | whatever is typed, a prefix of pi is shown, and 100 digits (or all, when fewer) for text that is not a number |
| `PiDigits.FormatDigits` | app/pi-digits.tsx:29-35 | the groups concatenate back to the input. There are `ceil(len/10)` of them. Every group but the last has 10 digits, the last has 1 to 10, and group `j` starts at offset `10j` |
| `PiDigits.GroupLabelReadsBack` | app/pi-digits.tsx:106 | a label is all digits, reads back as `10 * index`, and is 4 characters long unless the offset needs more |
| `PiDigits.GroupLabelsAreDistinct` | app/pi-digits.tsx:106 | different rows have different labels |
| `ModeSelect.StartedConfiguration` | app/mode-select.tsx:35-40 | starting sets mode, difficulty and grid. It sets the chosen pi mode for the pi game and clears it for the grid games |
| `ModeSelect.RouteChoice` | app/mode-select.tsx:42-52 | pi with learn opens the digit list, the other pi modes open the pi game, and each grid game opens its own screen. Each route is reached exactly from those selections, and the pi game plays the chosen mode |
| `ModeSelect.RoutePathsAreDistinct` | app/mode-select.tsx:42-52 | the four routes push four different paths |
| `ModeSelect.GridChoicesAreAllSizes` | app/mode-select.tsx:232 | the picker offers each of `2x2`, `3x3`, `4x4`, `5x5` exactly once |
| `ModeSelect.ModeSelection.constructor` | app/mode-select.tsx:20-23 | the selection starts as the configuration, with a missing pi mode read as `sequence` |
| `ModeSelect.ModeSelection.Resync` | app/mode-select.tsx:27-32 | after the effect the selection mirrors the configuration again |
| `ModeSelect.ModeSelection.SelectMode` | app/mode-select.tsx:86 | the mode button sets the mode only |
| `ModeSelect.ModeSelection.SelectPiMode` | app/mode-select.tsx:189-191 | the pi mode picker sets the pi mode only |
| `ModeSelect.ModeSelection.SelectDifficulty` | app/mode-select.tsx:125 | the difficulty button sets the difficulty only |
| `ModeSelect.ModeSelection.SelectGridSize` | app/mode-select.tsx:239-241 | the grid picker sets the grid size only |
| `ModeSelect.ModeSelection.HandleStart` | app/mode-select.tsx:34-53 | the configuration becomes the merge with the start patch, the route is `RouteFor` the selection, and scores, storage, theme, music and haptics are untouched |
| `ModeSelect.StartThenResync` | app/mode-select.tsx:27-40 | starting and resyncing keeps the selection. The exception is after a grid game, where the pi mode reads `sequence` again |

## Left out

- Timers and animation. The showing walk (`highlightedCell`, `showingIndex`, `displayedDigit`), the timer delays, the shake and fade animations and `clearAllTimeouts` are not modelled. Their end states are the explicit `FinishShowing` and `NextLevel` methods. Apart from the number grid's pending advance, nothing orders or cancels these calls the way the real timers would.
- React scheduling. Stale closures, effect re-runs and double-invoked state updaters are left out. Each handler acts on the current state. For the pi screen's `nextLevel`, the model takes the net effect: one level up, then `startGame`.
- SequenceRound.GenerateSequence: every cell is an arbitrary choice in range. The uniform distribution of `Math.random()` is not modelled.
- Storage I/O. Asynchrony, failing reads and writes, and the order of the three loads in `initializeSettings` are left out. Storage is a map that the methods update at once.
- JSON. The text syntax is not modelled: what `JSON.parse` returns for foreign text is an input. JSON numbers are integers here, so fractional and non-finite scores are not represented.
- SettingsContext.SettingsStore.LoadBestScores: extra fields of an accepted record are dropped. The source's `{...DEFAULT_BEST_SCORES, ...scores}` copies them into state.
- SettingsContext.SettingsStore.LoadSettings: the stored theme is kept as any JSON value, as the source does. A stored flag that is neither a boolean nor null is kept as its truthiness. The source keeps the raw value in state and writes it back unchanged on the next save. A reload reads the same truthiness either way; only the stored form differs.
- SettingsContext.Palette: gives orange for every stored theme that is not the name of a theme. The source looks the theme up as a property name of the `THEMES` object. So a one-element array such as `["blue"]` is converted to the string `blue` and gets that palette. An inherited name such as `constructor` or `toString` finds an `Object.prototype` member, which is not a palette at all.
- The ad-removal flag and its storage key, `isLoading`, and `setAdRemovalStatus` have no game logic.
- Audio, haptics, console logging, `Alert`, Game Center, sharing, purchases and the network client are left out: they are platform or service calls.
- Rendering and layout are left out. This includes `getGridCellSize` (floating point), the grid colour table, and the "new record" badges of the grid screens.
- `constants/pi.ts` is not part of this model. The digits of pi are the parameter `digits`.
- GameNumbers.CheckAnswer: only the judgement is modelled. Nothing calls the source's `checkAnswer`, so its result-screen and timer effects are not.
- The pi-digits text field's `maxLength={4}` and the keyboard visibility toggle are input-widget details, not modelled.

## Findings

| source | as written | input that shows it | evidently intended | confidence | as-written member | corrected member |
|---|---|---|---|---|---|---|
| app/game-numbers.tsx:221-224 | The best score is read as `bestScores.numbers[gameConfig.gridSize]`. That indexes a number, so it reads `undefined`, and `currentLevel > undefined` is false. | A correct first round on a fresh install: level 1, numbers best 0, grid 3x3. Nothing is recorded, and the same lookup hides the "new record" badge (line 377). | Compare with `bestScores.numbers` and record the level when it is higher, as the colour grid does. | high (not executed) | `GameNumbers.FirstRoundIsNotRecorded` | `SequenceRound.BestAfterPressEffect` |
| contexts/SettingsContext.tsx:320-327 | The shape check tests that `colors`, `numbers` and `pi` are numbers but does not test `piFree`, and the merge copies whatever `piFree` holds. | The stored record `{"colors":3,"numbers":2,"pi":5,"piFree":"7"}` is accepted, and the best free-mode score becomes the string `"7"`. | `piFree`, when present, is a number like the other slots. A missing one still defaults to 0. | medium (not executed) | `SettingsContext.AsWrittenAcceptsNonNumericPiFree` | `SettingsContext.ScoresFromRecord` |
| app/game-numbers.tsx:233-242 | After a correct round, `handleCellPress` starts a 1.5 s timer that calls `nextLevel`, and nothing cancels it. The result screen's "next level" button (line 361) calls `nextLevel` too. `nextLevel` raises the level from the current state but appends to the `sequence` its callback captured. | A correct level-2 round, then a tap on "next level" within 1.5 s. The timer then fires: the level is 4 but the target has 3 cells. A round already in progress is also thrown back to the showing phase. | One advance per correct round: the button cancels the timer, as `nextLevelTimeoutRef` does on the colour grid (app/game-colors.tsx:118-122, 207). | high (not executed) | `GameNumbers.ButtonThenTimerBreaksTheRound` | `GameNumbers.NumbersGame.TimerFires` |
