/** The round/session controller: every state cell of the game context as a field of
    one object, and every operation it offers as a method that updates those fields.

    The two network calls are inputs here. A lyric fetch arrives as an
    `Option<LyricData>` (None: the request failed) and a guess check as the
    validator's boolean verdict. Each timer callback is an explicit event method:
    `Tick` for the one-second interval, `AdvanceAfterDelay` for the delayed
    round advance and `ClearFeedback` for the delayed clearing of the retry message. */
module GameSession {
  import opened GameTypes

  /** Seconds on the clock at the start of every round. */
  const RoundSeconds: int := 30
  /** Points taken for revealing the artist. */
  const ArtistHintCost: int := 20

  const TimesUpMessage: string := "Time's up!"
  const CorrectMessage: string := "Correct!"
  const WrongMessage: string := "Wrong! Try again."
  const FetchErrorMessage: string := "Failed to fetch lyrics. Please try again."

  /** Points for one round: nothing unless the guess was right; otherwise 100 base
      points plus 5 for every second left, minus 30 for every hint, never below 0.
      The source rounds the time bonus; a whole number of seconds needs no rounding. */
  function CalculatePoints(correct: bool, timeUsed: int, hintsUsed: int): (points: int)
    ensures points >= 0
    ensures !correct ==> points == 0
    ensures correct ==> points >= 100 + (RoundSeconds - timeUsed) * 5 - hintsUsed * 30
    ensures points > 0 ==> points == 100 + (RoundSeconds - timeUsed) * 5 - hintsUsed * 30
  {
    if !correct then 0
    else Max(100 + (RoundSeconds - timeUsed) * 5 - hintsUsed * 30, 0)
  }

  /** The worked examples of the scoring rule. */
  lemma PointsScenarios()
    ensures CalculatePoints(true, 0, 0) == 250
    ensures CalculatePoints(true, 30, 0) == 100
    ensures CalculatePoints(true, 10, 2) == 140
    ensures CalculatePoints(true, 30, 5) == 0
  {
  }

  /** Within a round, a correct answer earns at most 250 points, and exactly 250
      only when it is immediate and unaided; without hints it earns at least 100. */
  lemma PointsBounds(timeUsed: int, hintsUsed: int)
    requires 0 <= timeUsed <= RoundSeconds && hintsUsed >= 0
    ensures CalculatePoints(true, timeUsed, hintsUsed) <= 250
    ensures CalculatePoints(true, timeUsed, hintsUsed) == 250 <==> timeUsed == 0 && hintsUsed == 0
    ensures hintsUsed == 0 ==> CalculatePoints(true, timeUsed, hintsUsed) >= 100
  {
  }

  /** Answering sooner, or with fewer hints, never earns fewer points. */
  lemma PointsAntitone(t1: int, h1: int, t2: int, h2: int)
    requires t1 <= t2 && h1 <= h2
    ensures CalculatePoints(true, t1, h1) >= CalculatePoints(true, t2, h2)
  {
  }

  /** A recorded round is well formed: its round number is in range, its time
      used is within the round, and its points are what the scoring rule gives. */
  ghost predicate WellFormedResult(r: RoundResult, totalRounds: int)
  {
    && 1 <= r.round <= totalRounds
    && 0 <= r.timeUsed <= RoundSeconds
    && r.hintsUsed >= 0
    && r.points == CalculatePoints(r.correct, r.timeUsed, r.hintsUsed)
  }

  /** The whole observable state of a session, as one value. */
  datatype Snapshot = Snapshot(
    gameState: GameState,
    currentRound: int,
    timeRemaining: int,
    score: int,
    isTimerActive: bool,
    currentLyrics: string,
    currentSongTitle: string,
    currentArtist: string,
    guess: string,
    hintLevel: int,
    artistHintRevealed: bool,
    feedback: Option<string>,
    results: seq<RoundResult>,
    error: Option<string>)

  class Session {
    var gameState: GameState
    var currentRound: int
    const totalRounds: int
    var timeRemaining: int
    var score: int
    var isTimerActive: bool

    var currentLyrics: string
    var currentSongTitle: string
    var currentArtist: string
    var guess: string
    var hintLevel: int
    var artistHintRevealed: bool
    var feedback: Option<string>

    var results: seq<RoundResult>
    var error: Option<string>

    ghost function State(): Snapshot
      reads this
    {
      Snapshot(gameState, currentRound, timeRemaining, score, isTimerActive,
               currentLyrics, currentSongTitle, currentArtist, guess, hintLevel,
               artistHintRevealed, feedback, results, error)
    }

    /** What holds after every operation, whatever order they are called in. */
    ghost predicate Valid()
      reads this
    {
      && totalRounds == 5
      && 1 <= currentRound <= totalRounds
      && 0 <= timeRemaining <= RoundSeconds
      && (isTimerActive ==> timeRemaining > 0)
      && (isTimerActive ==> feedback != Some(TimesUpMessage))
      && score >= 0
      && hintLevel >= 0
      && (forall i :: 0 <= i < |results| ==> WellFormedResult(results[i], totalRounds))
    }

    /** The round bookkeeping: one result per resolved round, in round order. While
        playing, a running timer means the current round is still open; a stopped
        one means it has been resolved and the advance to the next is pending. */
    ghost predicate RoundsConsistent()
      reads this
    {
      && (forall i :: 0 <= i < |results| ==> results[i].round == i + 1)
      && match gameState
         case Welcome => !isTimerActive && results == []
         case Playing => |results| == (if isTimerActive then currentRound - 1 else currentRound)
         case Results => !isTimerActive && |results| == totalRounds
    }

    /** The state a fresh round starts in; when the fetch failed, the previous
        song stays in place and the error message is set. */
    ghost predicate RoundStarted(fetched: Option<LyricData>, song0: string, artist0: string, lyrics0: string)
      reads this
    {
      && timeRemaining == RoundSeconds && isTimerActive
      && guess == "" && hintLevel == 0 && feedback == None && !artistHintRevealed
      && match fetched
         case Some(d) =>
           currentSongTitle == d.song && currentArtist == d.artist && currentLyrics == d.lyrics && error == None
         case None =>
           currentSongTitle == song0 && currentArtist == artist0 && currentLyrics == lyrics0
           && error == Some(FetchErrorMessage)
    }

    /** The result recorded for the current round if it ended now. */
    function CurrentResult(correct: bool, timeUsed: int, points: int): RoundResult
      reads this
    {
      RoundResult(currentRound, currentSongTitle, currentArtist, correct, timeUsed, points, hintLevel)
    }

    constructor ()
      ensures Valid() && RoundsConsistent()
      ensures State() == Snapshot(Welcome, 1, RoundSeconds, 0, false, "", "", "", "", 0, false, None, [], None)
      ensures totalRounds == 5
    {
      gameState := Welcome;
      currentRound := 1;
      totalRounds := 5;
      timeRemaining := RoundSeconds;
      score := 0;
      isTimerActive := false;
      currentLyrics, currentSongTitle, currentArtist := "", "", "";
      guess := "";
      hintLevel := 0;
      artistHintRevealed := false;
      feedback := None;
      results := [];
      error := None;
    }

    /** Stores what the lyric provider returned, or the error message when the
        request failed. */
    method FetchNewLyric(fetched: Option<LyricData>)
      modifies this
      ensures fetched.Some? ==> State() == old(State()).(currentLyrics := fetched.value.lyrics,
                                                          currentSongTitle := fetched.value.song,
                                                          currentArtist := fetched.value.artist,
                                                          error := None)
      ensures fetched.None? ==> State() == old(State()).(error := Some(FetchErrorMessage))
    {
      error := None;
      match fetched {
        case Some(data) =>
          currentLyrics := data.lyrics;
          currentSongTitle := data.song;
          currentArtist := data.artist;
        case None =>
          error := Some(FetchErrorMessage);
      }
    }

    /** Resets the clock and the per-round inputs, loads the next song and starts
        the timer. The timer starts even when the fetch failed. */
    method StartNewRound(fetched: Option<LyricData>)
      requires Valid()
      modifies this
      ensures Valid()
      ensures RoundStarted(fetched, old(currentSongTitle), old(currentArtist), old(currentLyrics))
      ensures gameState == old(gameState) && currentRound == old(currentRound)
      ensures score == old(score) && results == old(results)
    {
      timeRemaining := RoundSeconds;
      guess := "";
      hintLevel := 0;
      feedback := None;
      FetchNewLyric(fetched);
      isTimerActive := true;
      artistHintRevealed := false;
    }

    /** A new game: round 1, no score, no results, and the first round started. */
    method StartGame(fetched: Option<LyricData>)
      requires Valid()
      modifies this
      ensures Valid() && RoundsConsistent()
      ensures gameState == Playing && currentRound == 1 && score == 0 && results == []
      ensures RoundStarted(fetched, old(currentSongTitle), old(currentArtist), old(currentLyrics))
    {
      gameState := Playing;
      currentRound := 1;
      score := 0;
      results := [];
      StartNewRound(fetched);
    }

    /** One firing of the one-second interval, followed by the timer effect running
        again on the new value: the clock goes down by one second, and when it
        reaches zero on a running timer the round is lost to the clock. */
    method Tick()
      requires Valid()
      modifies this
      ensures Valid()
      ensures !old(isTimerActive) ==> State() == old(State())
      ensures old(isTimerActive) && old(timeRemaining) > 1 ==>
                State() == old(State()).(timeRemaining := old(timeRemaining) - 1)
      ensures old(isTimerActive) && old(timeRemaining) == 1 ==>
                State() == old(State()).(timeRemaining := 0, isTimerActive := false,
                                         results := old(results) + [old(CurrentResult(false, RoundSeconds, 0))],
                                         feedback := Some(TimesUpMessage))
      ensures old(RoundsConsistent()) ==> RoundsConsistent()
    {
      if isTimerActive && timeRemaining > 0 {
        timeRemaining := timeRemaining - 1;
      }
      if timeRemaining == 0 && isTimerActive {
        isTimerActive := false;
        results := results + [CurrentResult(false, RoundSeconds, 0)];
        feedback := Some(TimesUpMessage);
      }
    }

    /** Moves on after a resolved round: to the next round, or to the results
        screen after the last one. */
    method AdvanceRound(fetched: Option<LyricData>)
      requires Valid()
      modifies this
      ensures Valid()
      ensures score == old(score) && results == old(results)
      ensures old(currentRound) < totalRounds ==>
                && gameState == old(gameState) && currentRound == old(currentRound) + 1
                && RoundStarted(fetched, old(currentSongTitle), old(currentArtist), old(currentLyrics))
      ensures old(currentRound) >= totalRounds ==> State() == old(State()).(gameState := Results)
      ensures old(RoundsConsistent() && gameState == Playing && !isTimerActive) ==> RoundsConsistent()
    {
      if currentRound < totalRounds {
        currentRound := currentRound + 1;
        StartNewRound(fetched);
      } else {
        gameState := Results;
      }
    }

    /** The delayed callback scheduled when a round ends by a correct guess or by
        the clock: it clears the feedback and advances. */
    method AdvanceAfterDelay(fetched: Option<LyricData>)
      requires Valid()
      modifies this
      ensures Valid()
      ensures score == old(score) && results == old(results)
      ensures old(currentRound) < totalRounds ==>
                && gameState == old(gameState) && currentRound == old(currentRound) + 1
                && RoundStarted(fetched, old(currentSongTitle), old(currentArtist), old(currentLyrics))
      ensures old(currentRound) >= totalRounds ==>
                State() == old(State()).(gameState := Results, feedback := None)
      ensures old(RoundsConsistent() && gameState == Playing && !isTimerActive) ==> RoundsConsistent()
    {
      feedback := None;
      AdvanceRound(fetched);
    }

    /** Applies the validator's verdict on the current guess. A correct guess stops
        the clock, scores the round and records it; a wrong one only sets the
        retry message. The input is cleared either way. */
    method SubmitGuess(isCorrect: bool)
      requires Valid()
      modifies this
      ensures Valid()
      ensures isCorrect ==>
                State() == old(State()).(isTimerActive := false,
                                         score := old(score) + CalculatePoints(true, RoundSeconds - old(timeRemaining), old(hintLevel)),
                                         feedback := Some(CorrectMessage),
                                         results := old(results) + [old(CurrentResult(true, RoundSeconds - timeRemaining,
                                                        CalculatePoints(true, RoundSeconds - timeRemaining, hintLevel)))],
                                         guess := "")
      ensures !isCorrect ==> State() == old(State()).(feedback := Some(WrongMessage), guess := "")
      ensures old(RoundsConsistent() && isTimerActive) ==> RoundsConsistent()
    {
      if isCorrect {
        isTimerActive := false;
        var timeUsed := RoundSeconds - timeRemaining;
        var pointsEarned := CalculatePoints(true, timeUsed, hintLevel);
        score := score + pointsEarned;
        feedback := Some(CorrectMessage);
        results := results + [CurrentResult(true, timeUsed, pointsEarned)];
      } else {
        feedback := Some(WrongMessage);
      }
      guess := "";
    }

    /** The delayed callback after a wrong guess: the message goes away and the
        round goes on. */
    method ClearFeedback()
      modifies this
      ensures State() == old(State()).(feedback := None)
    {
      feedback := None;
    }

    /** The player typing into the guess field. */
    method SetGuess(text: string)
      modifies this
      ensures State() == old(State()).(guess := text)
    {
      guess := text;
    }

    /** One more title hint; no other field changes. */
    method RequestHint()
      requires Valid()
      modifies this
      ensures Valid()
      ensures State() == old(State()).(hintLevel := old(hintLevel) + 1)
    {
      hintLevel := hintLevel + 1;
    }

    /** Gives up the current round: the clock stops, a failed result with the time
        spent so far is recorded, and the game moves on at once. */
    method SkipRound(fetched: Option<LyricData>)
      requires Valid()
      modifies this
      ensures Valid()
      ensures score == old(score)
      ensures results == old(results) + [old(CurrentResult(false, RoundSeconds - timeRemaining, 0))]
      ensures old(currentRound) < totalRounds ==>
                && gameState == old(gameState) && currentRound == old(currentRound) + 1
                && RoundStarted(fetched, old(currentSongTitle), old(currentArtist), old(currentLyrics))
      ensures old(currentRound) >= totalRounds ==>
                State() == old(State()).(gameState := Results, isTimerActive := false, results := results)
      ensures old(RoundsConsistent() && isTimerActive) ==> RoundsConsistent()
    {
      isTimerActive := false;
      var timeUsed := RoundSeconds - timeRemaining;
      results := results + [CurrentResult(false, timeUsed, 0)];
      AdvanceRound(fetched);
    }

    /** Back to the welcome screen with a cleared session. The artist flag, the
        last song and the error are left as they were. */
    method ResetGame()
      requires Valid()
      modifies this
      ensures Valid() && RoundsConsistent()
      ensures State() == old(State()).(gameState := Welcome, currentRound := 1, score := 0,
                                       timeRemaining := RoundSeconds, isTimerActive := false,
                                       guess := "", hintLevel := 0, feedback := None, results := [])
    {
      gameState := Welcome;
      currentRound := 1;
      score := 0;
      timeRemaining := RoundSeconds;
      isTimerActive := false;
      guess := "";
      hintLevel := 0;
      feedback := None;
      results := [];
    }

    /** Takes points off the score, never going below zero. */
    method DeductScore(points: int)
      requires Valid()
      modifies this
      ensures Valid()
      ensures State() == old(State()).(score := Max(old(score) - points, 0))
      ensures points >= 0 ==> score <= old(score)
    {
      score := Max(score - points, 0);
    }

    /** Shows the artist for a one-time cost of 20 points; once shown, calling it
        again changes nothing. */
    method RevealArtistHint()
      requires Valid()
      modifies this
      ensures Valid()
      ensures old(artistHintRevealed) ==> State() == old(State())
      ensures !old(artistHintRevealed) ==>
                State() == old(State()).(artistHintRevealed := true,
                                         score := Max(old(score) - ArtistHintCost, 0))
    {
      if !artistHintRevealed {
        artistHintRevealed := true;
        DeductScore(ArtistHintCost);
      }
    }
  }

  /** However the operations are ordered, as long as each resolves an open round,
      there are never more results than rounds, and the results screen shows one
      result for every round. */
  lemma ResultsBounded(s: Session)
    requires s.Valid() && s.RoundsConsistent()
    ensures |s.results| <= s.totalRounds
    ensures s.gameState == Results ==> |s.results| == s.totalRounds
  {
  }

  /** Revealing the artist twice in a row costs the same as revealing it once. */
  method RevealArtistHintTwice(s: Session)
    requires s.Valid() && !s.artistHintRevealed
    modifies s
    ensures s.Valid()
    ensures s.State() == old(s.State()).(artistHintRevealed := true,
                                         score := Max(old(s.score) - ArtistHintCost, 0))
  {
    s.RevealArtistHint();
    s.RevealArtistHint();
  }

  /** A session that scored 15 points drops to 0, not to -5, when the artist is shown. */
  method RevealArtistHintFloor(s: Session)
    requires s.Valid() && !s.artistHintRevealed && s.score == 15
    modifies s
    ensures s.score == 0 && s.artistHintRevealed
  {
    s.RevealArtistHint();
  }
}
