# Lyric Match: a Dafny model of the game session

Lyric Match is a browser trivia game. The player sees a lyric snippet and has 30
seconds to guess the song title. Each game has five rounds. A correct guess earns
points that shrink with the time taken and with the number of title hints used.
Revealing the artist costs 20 points. A round ends in one of three ways: a correct
guess, a skip, or the clock running out. Each ending records exactly one round result.

This project models the logic of the game and proves properties of it:

- `GameSession` (game_session.dfy) is the session controller. It is a class `Session`
  whose fields are the state cells of the game context: `gameState`, `currentRound`,
  `totalRounds = 5`, `timeRemaining`, `score`, `isTimerActive`, the current song,
  `guess`, `hintLevel`, `artistHintRevealed`, `feedback`, `results` and `error`.
  - Every operation is a method that changes these fields. Each method's contract
    gives the whole new state, through the `State()` snapshot.
  - `Valid()` holds after every operation, in any order. It says:
    - the round counter stays in 1..5 and the clock stays in 0..30;
    - a running clock has time left, and "Time's up!" is never shown while it runs;
    - the score and hint level are never negative;
    - every recorded result has the points that `CalculatePoints` gives it.
  - `RoundsConsistent()` is the round bookkeeping:
    - results are numbered 1, 2, … in order;
    - while playing, there is one result per resolved round;
    - on the results screen there are exactly five results.

    The operations preserve it whenever they resolve a round that is still open.
    The controller does not check this itself: `SkipRound` and `SubmitGuess` act
    whether or not the round is open. Their contracts therefore state the
    preservation conditionally.
- `GameView` (game_view.dfy) is the game screen's own state:
  - the four-second skip countdown (`HandleSkip`, `SkipStep`), which calls the
    session's `SkipRound` exactly once;
  - the single-flight guard `isSubmitting` (`HandleSubmitGuess`, then `SubmitSettled`);
  - `ShouldShowSongTitle`, which is true after a timeout or during a skip, and never
    while the round is being played.
- `HangmanHint` (hangman_hint.dfy) is the title hint.
  - `GenerateHangmanHint` is the source's character loop. It is proved equal to the
    function `Masked`, and lemmas about `Masked` give:
    - the length of the hint;
    - where each title character lands;
    - that a non-space character is shown exactly when fewer than the reveal count
      of non-space characters come before it.
  - The reveal budget is the JavaScript length of the title with every `\s`
    character removed. That length counts UTF-16 code units, so an emoji counts twice.
    The masking loop walks characters, counts each non-space character once and treats
    only `' '` as a word break. The model keeps both notions, as the code does, and
    `HintWithNoBreakSpace` and `HintWithEmoji` show where they part.
- `GuessMatch` (guess_match.dfy) is the local matcher: trimmed, lower-cased equality.
  Whitespace is the ECMAScript set that both `trim` and `\s` use: the WhiteSpace and
  LineTerminator characters of ECMA-262. Case mapping covers A to Z only.
- `ResultsSummary` (results_summary.dfy) holds the count of correct rounds and the
  share text.
- `TimerColor` (timer_color.dfy) holds the clock's three colour bands.
- `GameTypes` (game_types.dfy) holds the shared values. `RoundResult` carries
  `hintsUsed`, which the controller writes although the declared record type omits it.

The two network calls are inputs:

- The lyric fetch is an `Option<LyricData>`. `None` means the request failed: the
  error message is set and, as in the code, the round's clock starts anyway.
- The guess check is the validator's verdict. `SubmitSettled` takes an
  `Option<bool>`, where `None` means the request failed. The session is then left
  untouched and only the guard is released.

Each `setInterval`/`setTimeout` callback is an explicit event method:

- `Tick`: one second of the round clock;
- `AdvanceAfterDelay`: the delayed move to the next round;
- `ClearFeedback`: clears the retry message;
- `SkipStep`: one second of the skip countdown.

`Tick` and `SkipStep` also include the effect that runs again on the new value.
So the step that brings the clock to zero also ends the round. Likewise, the step
that brings the countdown to zero also skips.

## Model

| member | source | states |
|---|---|---|
| GameSession.CalculatePoints | src/context/GameContext.tsx:132-138 | never negative; 0 for a wrong answer; for a right one at least 100 + 5·(30 − timeUsed) − 30·hints, and equal to it whenever positive |
| GameSession.PointsScenarios | src/context/GameContext.tsx:132-138 | (t=0,h=0) gives 250, (30,0) gives 100, (10,2) gives 140, (30,5) gives 0 |
| GameSession.PointsBounds | src/context/GameContext.tsx:132-138 | within a round a correct answer earns at most 250, exactly 250 iff immediate and unaided, at least 100 without hints |
| GameSession.PointsAntitone | src/context/GameContext.tsx:132-138 | answering sooner or with fewer hints never earns fewer points |
| GameSession.Session.constructor | src/context/GameContext.tsx:37-59 | initial state: welcome screen, round 1, 30 s, score 0, timer stopped, no results; `Valid` and `RoundsConsistent` hold |
| GameSession.Session.FetchNewLyric | src/context/GameContext.tsx:95-109 | a fetched song replaces lyrics, title and artist and clears the error; a failed fetch only sets the error message |
| GameSession.Session.StartNewRound | src/context/GameContext.tsx:121-129 | clock back to 30 and running, guess/hint level/feedback/artist flag cleared, song loaded or error set; round, score and results unchanged |
| GameSession.Session.StartGame | src/context/GameContext.tsx:112-118 | playing, round 1, score 0, no results, first round started; round bookkeeping established |
| GameSession.Session.Tick | src/context/GameContext.tsx:62-90 | stopped clock: nothing changes; running clock above 1: one second less, nothing else; at 1: clock 0 and stopped, exactly one result appended (not correct, 30 s used, 0 points, current hint level), feedback "Time's up!"; keeps `Valid` and the bookkeeping |
| GameSession.Session.AdvanceRound | src/context/GameContext.tsx:196-201 | below the last round: round + 1 and a fresh round started; at the last round: results screen and nothing else changes; score and results untouched |
| GameSession.Session.AdvanceAfterDelay | src/context/GameContext.tsx:79-87 | clears feedback, then advances as above; keeps the bookkeeping after a resolved round |
| GameSession.Session.SubmitGuess | src/context/GameContext.tsx:141-174 | correct: clock stopped, score + CalculatePoints(true, 30 − timeRemaining, hints), one correct result appended, "Correct!"; wrong: only feedback "Wrong! Try again."; guess cleared either way |
| GameSession.Session.ClearFeedback | src/context/GameContext.tsx:171 | only the feedback is cleared |
| GameSession.Session.SetGuess | src/context/GameContext.tsx:49 | only the guess changes |
| GameSession.Session.RequestHint | src/context/GameContext.tsx:177-179 | hint level + 1, no other field changes |
| GameSession.Session.SkipRound | src/context/GameContext.tsx:182-202 | clock stopped, exactly one result appended (not correct, 30 − timeRemaining used, 0 points), score unchanged, then advance or results screen |
| GameSession.Session.ResetGame | src/context/GameContext.tsx:205-215 | welcome screen with round 1, score 0, 30 s stopped clock, cleared guess/hints/feedback/results; other fields unchanged |
| GameSession.Session.DeductScore | src/context/GameContext.tsx:217-219 | score becomes max(score − points, 0), nothing else changes, never negative |
| GameSession.Session.RevealArtistHint | src/context/GameContext.tsx:222-227 | first call: flag set and score max(score − 20, 0); once set: nothing changes |
| GameSession.RevealArtistHintTwice | src/context/GameContext.tsx:222-227 | two reveals in a row cost exactly what one does |
| GameSession.RevealArtistHintFloor | src/context/GameContext.tsx:217-227 | score 15 drops to 0, not −5, when the artist is shown |
| GameSession.ResultsBounded | src/context/GameContext.tsx:194-201 | with consistent bookkeeping: at most five results, exactly five on the results screen |
| GuessMatch.Lower | src/types/api.ts:24 | lower-casing keeps whitespace-ness, leaves non-letters alone, never yields an upper-case letter |
| GuessMatch.TrimStart | src/types/api.ts:24 | result is a suffix of the input, empty or starting with non-whitespace, and everything dropped is whitespace |
| GuessMatch.TrimEnd | src/types/api.ts:24 | result is a prefix of the input, empty or ending with non-whitespace, and everything dropped is whitespace |
| GuessMatch.CheckGuess | src/types/api.ts:21-25 | trimmed strings of different lengths never match |
| GuessMatch.CheckGuessReflexive | src/types/api.ts:24 | every string matches itself |
| GuessMatch.CheckGuessSymmetric | src/types/api.ts:24 | the verdict does not depend on argument order |
| GuessMatch.TrimIgnoresPadding | src/types/api.ts:24 | whitespace added before and after a string does not change its trimmed form |
| GuessMatch.CheckGuessIgnoresPadding | src/types/api.ts:24 | leading or trailing whitespace on either argument does not change the verdict |
| GuessMatch.TrimCommutesWithLower | src/types/api.ts:24 | trimming and lower-casing commute |
| GuessMatch.CheckGuessIgnoresCase | src/types/api.ts:24 | changing the case of letters in either argument does not change the verdict |
| HangmanHint.NumLetters | src/components/Game.tsx:96-97 | the UTF-16 length of the title without whitespace is at most twice its character count |
| HangmanHint.NumLettersCounts | src/components/Game.tsx:96-97 | the letter count is the number of non-whitespace characters plus the number of those beyond the Basic Multilingual Plane |
| HangmanHint.NumLettersScenarios | src/components/Game.tsx:96-97 | a no-break space is not a letter; three emoji are six letters |
| HangmanHint.RevealCount | src/components/Game.tsx:98-103 | 0 at level 0; under 5 letters at most 1 (exactly 1 from level 1); otherwise the largest k with 5·k ≤ letters·level, capped at all letters |
| HangmanHint.RevealCountMonotone | src/components/Game.tsx:98-103 | a higher level never reveals fewer letters |
| HangmanHint.GenerateHangmanHint | src/components/Game.tsx:95-115 | the loop's output is `Masked(title, RevealCount(letters, level))` |
| HangmanHint.MaskedLength | src/components/Game.tsx:106-113 | hint length = non-space characters + 4 × spaces |
| HangmanHint.MaskedPrefix | src/components/Game.tsx:104-113 | the hint of a title prefix is a prefix of the hint |
| HangmanHint.MaskedAt | src/components/Game.tsx:104-112 | each space becomes four spaces at its position; each other character is shown unchanged iff fewer than the reveal count of non-space characters precede it, else '_' |
| HangmanHint.MaskedMonotone | src/components/Game.tsx:104-112 | with a larger reveal count every shown character stays shown, and the length is the same |
| HangmanHint.MaskedNothingRevealed | src/components/Game.tsx:98-112 | at level 0 the hint is only spaces and underscores |
| HangmanHint.MaskedNoSpaces | src/components/Game.tsx:104-112 | a title without spaces shows its first `revealCount` characters, and each later one becomes '_' |
| HangmanHint.HintWithNoBreakSpace | src/components/Game.tsx:95-113 | six lower-case letters with a no-break space second count 5; level 5 then masks the last letter |
| HangmanHint.HintWithEmoji | src/components/Game.tsx:95-113 | three emoji count 6 letters; level 3 shows all of them |
| ResultsSummary.CorrectAnswers | src/components/Results.tsx:9 | the count is at most the number of results |
| ResultsSummary.CorrectAnswersCountsFlags | src/components/Results.tsx:9 | the count equals the number of `true` correctness flags |
| ResultsSummary.CorrectAnswersAppend | src/components/Results.tsx:9 | appending a result adds 1 if it is correct and 0 otherwise |
| ResultsSummary.CorrectAnswersAll | src/components/Results.tsx:9 | count = number of results iff every round was correct |
| ResultsSummary.CorrectAnswersNone | src/components/Results.tsx:9 | count = 0 iff no round was correct |
| ResultsSummary.CorrectAnswersAtMostRounds | src/components/Results.tsx:9 | in a consistent session the count is at most the five rounds |
| ResultsSummary.DecimalDigits | src/components/Results.tsx:14 | a number prints as a non-empty run of digits without a leading zero |
| ResultsSummary.DecimalRoundTrip | src/components/Results.tsx:14 | reading the printed digits back gives the number |
| ResultsSummary.ShareText | src/components/Results.tsx:14 | the text starts "I scored " and ends " songs correct." |
| ResultsSummary.ShareTextInjective | src/components/Results.tsx:14 | different score, correct count or round count never give the same text |
| TimerColor.GetTimerColor | src/components/CircularTimer.tsx:17-21 | one of the three classes: red iff ≤ 5 s, yellow iff 6–10 s, purple iff > 10 s |
| TimerColor.UrgencyMonotone | src/components/CircularTimer.tsx:17-21 | less time never shows a less urgent colour |
| GameView.View.constructor | src/components/Game.tsx:30-32 | not submitting, not skipping, countdown 0 |
| GameView.View.HandleSkip | src/components/Game.tsx:53-56 | skipping with the countdown at 4; the title is shown |
| GameView.View.SkipStep | src/components/Game.tsx:34-50 | not skipping: nothing changes; countdown above 1: one less, session untouched, title shown; at 1: countdown ends, exactly one skipped result is recorded, score unchanged, then the next round starts or the results screen shows with nothing else changed; round bookkeeping kept when the round was open |
| GameView.SkipCountdownFiresOnce | src/components/Game.tsx:34-56 | after "Skip Round", later steps record exactly one result in total and the countdown ends |
| GameView.View.HandleSubmitGuess | src/components/Game.tsx:59-62 | starts only when no submission is in flight; a second attempt changes nothing |
| GameView.View.SubmitSettled | src/components/Game.tsx:63-69 | failure: session untouched; wrong: only feedback and cleared guess; right: clock stopped, score raised by the round's points, one correct result recorded, "Correct!", guess cleared, nothing else; bookkeeping kept; guard released in every case |
| GameView.View.ShouldShowSongTitle | src/components/Game.tsx:73 | shown during a skip countdown; hidden while the round's clock runs and no skip is pending |
| GameView.TimeoutShowsSongTitle | src/components/Game.tsx:73 | the tick that runs the clock out turns the title from hidden to shown |

## Left out

- The network requests behind `fetchLyricSnippet` and the remote `checkGuess` (src/services/api.ts) are not modelled. Their answers are method parameters.
- The loading flag `isLoading` is left out. It is only visible while a request is awaited.
- Timer delays (1000 ms, 2000 ms, 4000 ms) are left out. So are interval clearing and React's effect scheduling.
- Callbacks that run on stale captured state are left out. Every event method reads the current fields, so a delayed advance firing after a reset or a skip is not distinguished.
- The raw setters `setGameState` and `setArtistHintRevealed` are exported by the context but have no logic. They are not modelled.
- The conditions that disable buttons in the screen are rendering and are not modelled. `HandleSkip`, like the handler, has no guard of its own.
- Rendering is not part of this model: the JSX, `App.tsx`, `Welcome.tsx`, `Button.tsx`, the timer's circle geometry, `ProgressBar.tsx` and the random bars of `AudioVisualizer.tsx`.
- Clipboard, `alert`, `window.location.reload` and `console` output are not modelled.
- GuessMatch.CheckGuess: `toLowerCase` is modelled for A to Z only. Non-ASCII case mappings are left out. Whitespace is the full ECMAScript set.
- HangmanHint.NumLetters: titles are sequences of Unicode scalar values, so a JavaScript string holding a lone surrogate cannot be expressed.
- HangmanHint.RevealCount: the floating-point `numLetters * 0.2 * level` is modelled as the exact `(numLetters * level) / 5`. The two can differ only where the floating-point product rounds across a whole number.
- GameSession.CalculatePoints: `Math.round` of the time bonus is the identity on the whole seconds the controller passes. Fractional times are not modelled.
- Numbers are unbounded integers. JavaScript's floating-point number limits are not modelled.
