/** The end-of-game summary: how many rounds were answered correctly, and the
    text offered for sharing the score. */
module ResultsSummary {
  import opened GameTypes
  import GameSession

  /** The number of recorded rounds whose guess was correct. */
  function CorrectAnswers(results: seq<RoundResult>): (n: nat)
    ensures n <= |results|
  {
    if results == [] then 0
    else (if results[0].correct then 1 else 0) + CorrectAnswers(results[1..])
  }

  /** The correctness flag of every round, in order. */
  function Flags(results: seq<RoundResult>): (flags: seq<bool>)
    ensures |flags| == |results|
    ensures forall i :: 0 <= i < |results| ==> flags[i] == results[i].correct
  {
    seq(|results|, i requires 0 <= i < |results| => results[i].correct)
  }

  /** The count agrees with counting `true` among the flags. */
  lemma {:induction false} CorrectAnswersCountsFlags(results: seq<RoundResult>)
    ensures CorrectAnswers(results) == multiset(Flags(results))[true]
  {
    if results != [] {
      CorrectAnswersCountsFlags(results[1..]);
      assert Flags(results) == [results[0].correct] + Flags(results[1..]);
    }
  }

  /** Recording one more round adds one exactly when that round was correct. */
  lemma {:induction false} CorrectAnswersAppend(results: seq<RoundResult>, r: RoundResult)
    ensures CorrectAnswers(results + [r]) == CorrectAnswers(results) + (if r.correct then 1 else 0)
  {
    if results != [] {
      assert (results + [r])[1..] == results[1..] + [r];
      CorrectAnswersAppend(results[1..], r);
    }
  }

  /** Every round counts exactly when every round was correct. */
  lemma {:induction false} CorrectAnswersAll(results: seq<RoundResult>)
    ensures CorrectAnswers(results) == |results| <==> forall i :: 0 <= i < |results| ==> results[i].correct
  {
    if results != [] {
      CorrectAnswersAll(results[1..]);
      assert forall i :: 1 <= i < |results| ==> results[i] == results[1..][i - 1];
    }
  }

  /** No round counts exactly when no round was correct. */
  lemma {:induction false} CorrectAnswersNone(results: seq<RoundResult>)
    ensures CorrectAnswers(results) == 0 <==> forall i :: 0 <= i < |results| ==> !results[i].correct
  {
    if results != [] {
      CorrectAnswersNone(results[1..]);
      assert forall i :: 1 <= i < |results| ==> results[i] == results[1..][i - 1];
    }
  }

  /** In a session that resolved its rounds one at a time, no more answers are
      counted correct than there are rounds. */
  lemma CorrectAnswersAtMostRounds(s: GameSession.Session)
    requires s.Valid() && s.RoundsConsistent()
    ensures CorrectAnswers(s.results) <= s.totalRounds
  {
    GameSession.ResultsBounded(s);
  }

  predicate IsDigit(c: char)
  {
    '0' <= c <= '9'
  }

  predicate AllDigits(s: string)
  {
    forall i :: 0 <= i < |s| ==> IsDigit(s[i])
  }

  function Digit(d: nat): (c: char)
    requires d < 10
    ensures IsDigit(c) && c as int - '0' as int == d
  {
    ('0' as int + d) as char
  }

  /** A whole number as the template literal writes it: its decimal digits, with
      no leading zero. */
  function DecimalDigits(n: nat): (s: string)
    ensures |s| >= 1 && AllDigits(s)
    ensures |s| > 1 ==> s[0] != '0'
  {
    if n < 10 then [Digit(n)] else DecimalDigits(n / 10) + [Digit(n % 10)]
  }

  /** The number a string of decimal digits denotes. */
  function DecimalValue(s: string): nat
    requires AllDigits(s)
  {
    if s == [] then 0 else DecimalValue(s[..|s| - 1]) * 10 + (s[|s| - 1] as int - '0' as int)
  }

  /** Reading the digits back gives the number. */
  lemma {:induction false} DecimalRoundTrip(n: nat)
    ensures DecimalValue(DecimalDigits(n)) == n
  {
    if n >= 10 {
      var s := DecimalDigits(n);
      assert s[..|s| - 1] == DecimalDigits(n / 10);
      DecimalRoundTrip(n / 10);
    }
  }

  /** The message copied to the clipboard from the results screen. */
  function ShareText(score: nat, correctAnswers: nat, totalRounds: nat): (text: string)
    ensures |text| >= 24 && text[..9] == "I scored "
    ensures text[|text| - 15..] == " songs correct."
  {
    "I scored " + (DecimalDigits(score) + (" points in Lyric Match! I got "
    + (DecimalDigits(correctAnswers) + (" out of " + (DecimalDigits(totalRounds) + " songs correct.")))))
  }

  /** Length of the run of digits a string starts with. */
  function LeadingDigits(s: string): (n: nat)
    ensures n <= |s| && AllDigits(s[..n])
    ensures n < |s| ==> !IsDigit(s[n])
  {
    if s != [] && IsDigit(s[0]) then 1 + LeadingDigits(s[1..]) else 0
  }

  lemma {:induction false} LeadingDigitsOfNumber(d: string, u: string)
    requires AllDigits(d) && u != [] && !IsDigit(u[0])
    ensures LeadingDigits(d + u) == |d|
  {
    if d != [] {
      assert (d + u)[1..] == d[1..] + u;
      LeadingDigitsOfNumber(d[1..], u);
    }
  }

  /** A run of digits followed by a non-digit splits in only one way. */
  lemma DigitsSplit(d1: string, u1: string, d2: string, u2: string)
    requires AllDigits(d1) && AllDigits(d2)
    requires u1 != [] && !IsDigit(u1[0]) && u2 != [] && !IsDigit(u2[0])
    requires d1 + u1 == d2 + u2
    ensures d1 == d2 && u1 == u2
  {
    LeadingDigitsOfNumber(d1, u1);
    LeadingDigitsOfNumber(d2, u2);
    assert d1 == (d1 + u1)[..|d1|];
    assert d2 == (d2 + u2)[..|d2|];
    assert u1 == (d1 + u1)[|d1|..];
    assert u2 == (d2 + u2)[|d2|..];
  }

  /** Different digit strings come from different numbers. */
  lemma DecimalDigitsInjective(m: nat, n: nat)
    requires DecimalDigits(m) == DecimalDigits(n)
    ensures m == n
  {
    DecimalRoundTrip(m);
    DecimalRoundTrip(n);
  }

  lemma StripPrefix(p: string, x: string, y: string)
    requires p + x == p + y
    ensures x == y
  {
    assert x == (p + x)[|p|..];
    assert y == (p + y)[|p|..];
  }

  /** The share text states the score, the correct count and the number of rounds
      unambiguously: different figures never give the same text. */
  lemma ShareTextInjective(score1: nat, correct1: nat, total1: nat, score2: nat, correct2: nat, total2: nat)
    requires ShareText(score1, correct1, total1) == ShareText(score2, correct2, total2)
    ensures score1 == score2 && correct1 == correct2 && total1 == total2
  {
    var m1, m2, e := " points in Lyric Match! I got ", " out of ", " songs correct.";
    var a1, b1, c1 := DecimalDigits(score1), DecimalDigits(correct1), DecimalDigits(total1);
    var a2, b2, c2 := DecimalDigits(score2), DecimalDigits(correct2), DecimalDigits(total2);
    StripPrefix("I scored ", a1 + (m1 + (b1 + (m2 + (c1 + e)))), a2 + (m1 + (b2 + (m2 + (c2 + e)))));
    DigitsSplit(a1, m1 + (b1 + (m2 + (c1 + e))), a2, m1 + (b2 + (m2 + (c2 + e))));
    DecimalDigitsInjective(score1, score2);
    StripPrefix(m1, b1 + (m2 + (c1 + e)), b2 + (m2 + (c2 + e)));
    DigitsSplit(b1, m2 + (c1 + e), b2, m2 + (c2 + e));
    DecimalDigitsInjective(correct1, correct2);
    StripPrefix(m2, c1 + e, c2 + e);
    DigitsSplit(c1, e, c2, e);
    DecimalDigitsInjective(total1, total2);
  }
}
