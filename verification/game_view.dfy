/** The game screen's own state on top of the session: the countdown shown after
    the player skips a round, and the guard that lets only one guess submission be
    in flight at a time.

    As in the session, each timer callback and each settled request is an event
    method: `SkipStep` for one second of the skip countdown and `SubmitSettled`
    for the answer (or failure) of the guess validator. */
module GameView {
  import opened GameTypes
  import GameSession

  /** Seconds between pressing "Skip Round" and moving on. */
  const SkipCountdownSeconds: int := 4

  class View {
    const session: GameSession.Session
    var isSubmitting: bool
    var isSkipping: bool
    var skipCountdown: int

    /** A running skip countdown always has seconds left: it fires the skip on the
        step that brings it to zero. */
    ghost predicate Valid()
      reads this, session
    {
      && session.Valid()
      && 0 <= skipCountdown <= SkipCountdownSeconds
      && (isSkipping ==> skipCountdown > 0)
    }

    constructor (s: GameSession.Session)
      requires s.Valid()
      ensures Valid() && session == s
      ensures !isSubmitting && !isSkipping && skipCountdown == 0
    {
      session := s;
      isSubmitting := false;
      isSkipping := false;
      skipCountdown := 0;
    }

    /** The song title and artist are on screen once the clock has run out, or
        while a skip counts down: never while the round is still being played. */
    function ShouldShowSongTitle(): (show: bool)
      reads this, session
      ensures isSkipping ==> show
      ensures Valid() && session.isTimerActive && !isSkipping ==> !show
    {
      session.feedback == Some(GameSession.TimesUpMessage) || isSkipping
    }

    /** The "Skip Round" button: starts the four-second countdown, during which the
        answer is shown. */
    method HandleSkip()
      requires Valid()
      modifies this
      ensures Valid()
      ensures isSkipping && skipCountdown == SkipCountdownSeconds
      ensures isSubmitting == old(isSubmitting)
      ensures ShouldShowSongTitle()
    {
      isSkipping := true;
      skipCountdown := SkipCountdownSeconds;
    }

    /** One second of the skip countdown, followed by the skip effect running again
        on the new value: the countdown goes down by one, and when it reaches zero
        the countdown ends and the session skips the round, once. */
    method SkipStep(fetched: Option<LyricData>)
      requires Valid()
      modifies this, session
      ensures Valid()
      ensures isSubmitting == old(isSubmitting)
      ensures !old(isSkipping) ==>
                !isSkipping && skipCountdown == old(skipCountdown) && session.State() == old(session.State())
      ensures old(isSkipping) && old(skipCountdown) > 1 ==>
                && isSkipping && skipCountdown == old(skipCountdown) - 1 && session.State() == old(session.State())
                && ShouldShowSongTitle()
      ensures old(isSkipping) && old(skipCountdown) == 1 ==>
                && !isSkipping && skipCountdown == 0
                && session.score == old(session.score)
                && session.results == old(session.results)
                     + [old(session.CurrentResult(false, GameSession.RoundSeconds - session.timeRemaining, 0))]
      ensures old(isSkipping) && old(skipCountdown) == 1 && old(session.currentRound) < session.totalRounds ==>
                && session.gameState == old(session.gameState) && session.currentRound == old(session.currentRound) + 1
                && session.RoundStarted(fetched, old(session.currentSongTitle), old(session.currentArtist),
                                        old(session.currentLyrics))
      ensures old(isSkipping) && old(skipCountdown) == 1 && old(session.currentRound) >= session.totalRounds ==>
                session.State() == old(session.State()).(gameState := Results, isTimerActive := false,
                                                         results := session.results)
      ensures old(session.RoundsConsistent()) && (old(isSkipping) && old(skipCountdown) == 1 ==> old(session.isTimerActive)) ==>
                session.RoundsConsistent()
    {
      if isSkipping && skipCountdown > 0 {
        skipCountdown := skipCountdown - 1;
      }
      if isSkipping && skipCountdown == 0 {
        isSkipping := false;
        session.SkipRound(fetched);
      }
    }

    /** The start of a guess submission, up to the call to the validator: refused
        while another submission is in flight. */
    method HandleSubmitGuess() returns (started: bool)
      requires Valid()
      modifies this
      ensures Valid()
      ensures started <==> !old(isSubmitting)
      ensures isSubmitting
      ensures isSkipping == old(isSkipping) && skipCountdown == old(skipCountdown)
    {
      if !isSubmitting {
        isSubmitting := true;
        started := true;
      } else {
        started := false;
      }
    }

    /** The end of a started submission: the validator's verdict is applied to the
        session, or, when the request failed (None), the session is left as it
        was. Either way the guard is released. */
    method SubmitSettled(verdict: Option<bool>)
      requires Valid() && isSubmitting
      modifies this, session
      ensures Valid()
      ensures !isSubmitting
      ensures isSkipping == old(isSkipping) && skipCountdown == old(skipCountdown)
      ensures verdict == None ==> session.State() == old(session.State())
      ensures verdict == Some(false) ==>
                session.State() == old(session.State()).(feedback := Some(GameSession.WrongMessage), guess := "")
      ensures verdict == Some(true) ==>
                var points := GameSession.CalculatePoints(true, GameSession.RoundSeconds - old(session.timeRemaining),
                                                          old(session.hintLevel));
                session.State() == old(session.State()).(
                  isTimerActive := false,
                  score := old(session.score) + points,
                  feedback := Some(GameSession.CorrectMessage),
                  results := old(session.results)
                    + [old(session.CurrentResult(true, GameSession.RoundSeconds - session.timeRemaining, points))],
                  guess := "")
      ensures old(session.RoundsConsistent()) && (verdict == Some(true) ==> old(session.isTimerActive)) ==>
                session.RoundsConsistent()
    {
      match verdict {
        case Some(isCorrect) =>
          session.SubmitGuess(isCorrect);
        case None =>
      }
      isSubmitting := false;
    }
  }

  /** After "Skip Round", three steps only count down; the fourth skips the round
      once; later steps change nothing. */
  method SkipCountdownFiresOnce(v: View, fetched: Option<LyricData>)
    requires v.Valid()
    modifies v, v.session
    ensures v.Valid() && !v.isSkipping
    ensures |v.session.results| == |old(v.session.results)| + 1
  {
    v.HandleSkip();
    v.SkipStep(fetched);
    v.SkipStep(fetched);
    v.SkipStep(fetched);
    assert v.isSkipping && v.session.results == old(v.session.results);
    v.SkipStep(fetched);
    v.SkipStep(fetched);
  }

  /** The second that runs the clock out puts the song title on screen. */
  method TimeoutShowsSongTitle(v: View)
    requires v.Valid() && !v.isSkipping
    requires v.session.isTimerActive && v.session.timeRemaining == 1
    modifies v.session
    ensures v.Valid()
    ensures !old(v.ShouldShowSongTitle()) && v.ShouldShowSongTitle()
  {
    v.session.Tick();
  }
}
