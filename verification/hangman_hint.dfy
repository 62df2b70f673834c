/** The title hint shown after the player asks for hints: a growing prefix of the
    title's characters is shown, every other character is masked by '_', and every
    space is widened to four spaces so that word breaks stay visible.

    Two notions of "letter" meet here, as in the source. The reveal budget is the
    length of the title with every whitespace character removed, and a JavaScript
    string length counts UTF-16 code units, so a character beyond the Basic
    Multilingual Plane (an emoji, say) counts twice. The masking loop walks the
    title character by character, counts each non-space character once, and treats
    only the space ' ' as a word break, so a tab or a no-break space in a title is
    masked or shown like a letter. */
module HangmanHint {
  import opened GameTypes
  import GuessMatch

  /** The code units a character takes in UTF-16: two beyond the Basic
      Multilingual Plane, one otherwise. */
  function Utf16Units(c: char): (n: nat)
    ensures n == 1 || n == 2
    ensures n == 2 <==> c as int > 0xFFFF
  {
    if c as int > 0xFFFF then 2 else 1
  }

  /** Letters in the title, as the source counts them: the UTF-16 length of the
      title once every whitespace character is removed. */
  function NumLetters(s: string): (n: nat)
    ensures n <= 2 * |s|
  {
    if s == [] then 0
    else
      var c := s[|s| - 1];
      NumLetters(s[..|s| - 1]) + (if GuessMatch.IsWhitespace(c) then 0 else Utf16Units(c))
  }

  /** Positions of the title's non-whitespace characters. */
  ghost function LetterPositions(s: string): set<int>
  {
    set i | 0 <= i < |s| && !GuessMatch.IsWhitespace(s[i])
  }

  /** Positions of the title's non-whitespace characters that take two UTF-16
      code units. */
  ghost function WideLetterPositions(s: string): set<int>
  {
    set i | 0 <= i < |s| && !GuessMatch.IsWhitespace(s[i]) && s[i] as int > 0xFFFF
  }

  /** The letter count is one per non-whitespace character plus one more per such
      character beyond the Basic Multilingual Plane. */
  lemma {:induction false} NumLettersCounts(s: string)
    ensures NumLetters(s) == |LetterPositions(s)| + |WideLetterPositions(s)|
  {
    if s != [] {
      var init, j := s[..|s| - 1], |s| - 1;
      NumLettersCounts(init);
      assert forall i :: 0 <= i < j ==> init[i] == s[i];
      if GuessMatch.IsWhitespace(s[j]) {
        assert LetterPositions(s) == LetterPositions(init);
        assert WideLetterPositions(s) == WideLetterPositions(init);
      } else if s[j] as int > 0xFFFF {
        assert LetterPositions(s) == LetterPositions(init) + {j};
        assert WideLetterPositions(s) == WideLetterPositions(init) + {j};
      } else {
        assert LetterPositions(s) == LetterPositions(init) + {j};
        assert WideLetterPositions(s) == WideLetterPositions(init);
      }
    }
  }

  /** A title with a no-break space has one letter fewer than characters that are
      not spaces; three musical notes count as six letters. */
  lemma NumLettersScenarios()
    ensures NumLetters("a\U{A0}bcde") == 5
    ensures NumLetters("\U{1F3B5}\U{1F3B5}\U{1F3B5}") == 6
  {
    var t := "a\U{A0}bcde";
    assert !GuessMatch.IsWhitespace('a');
    assert GuessMatch.IsWhitespace('\U{A0}');
    assert t[..2] == "a\U{A0}" && t[..2][..1] == "a";
    assert NumLetters(t[..2]) == 1;
    assert t[..3][..2] == t[..2] && t[..3][2] == 'b';
    assert NumLetters(t[..3]) == 2;
    assert t[..4][..3] == t[..3] && t[..4][3] == 'c';
    assert NumLetters(t[..4]) == 3;
    assert t[..5][..4] == t[..4] && t[..5][4] == 'd';
    assert NumLetters(t[..5]) == 4;
    assert t[..5] == t[..|t| - 1];
  }

  /** How many letters a hint of the given level shows. Short titles (under five
      letters) show at most one letter; longer ones show a fifth of their letters
      per level, rounded down, up to all of them. The source multiplies by the
      floating-point 0.2; here the product is divided by 5 exactly, which can
      differ from the floating-point result where n * 0.2 * level lies within a
      rounding error of a whole number. */
  function RevealCount(numLetters: nat, level: nat): (k: nat)
    ensures level == 0 ==> k == 0
    ensures numLetters < 5 ==> k <= 1 && (level >= 1 ==> k == 1)
    ensures numLetters >= 5 ==> k <= numLetters && k * 5 <= numLetters * level
    ensures numLetters >= 5 && level >= 5 ==> k == numLetters
    ensures numLetters >= 5 && k < numLetters ==> numLetters * level < (k + 1) * 5
  {
    if numLetters < 5 then Min(level, 1)
    else Min((numLetters * level) / 5, numLetters)
  }

  /** More hints never show fewer letters. */
  lemma RevealCountMonotone(numLetters: nat, level1: nat, level2: nat)
    requires level1 <= level2
    ensures RevealCount(numLetters, level1) <= RevealCount(numLetters, level2)
  {
  }

  /** Characters other than the space ' '. */
  function NonSpaceCount(s: string): (n: nat)
    ensures n <= |s|
  {
    if s == [] then 0
    else NonSpaceCount(s[..|s| - 1]) + (if s[|s| - 1] == ' ' then 0 else 1)
  }

  /** Occurrences of the space ' '. */
  function SpaceCount(s: string): (n: nat)
    ensures n + NonSpaceCount(s) == |s|
  {
    if s == [] then 0
    else SpaceCount(s[..|s| - 1]) + (if s[|s| - 1] == ' ' then 1 else 0)
  }

  /** What one character of the title becomes: a space widens to four spaces; any
      other character is shown when `revealed` and masked otherwise. */
  function Piece(c: char, revealed: bool): string
  {
    if c == ' ' then "    " else if revealed then [c] else "_"
  }

  /** The hint for a title that shows its first `revealCount` non-space characters. */
  function Masked(s: string, revealCount: int): string
  {
    if s == [] then []
    else
      var init := s[..|s| - 1];
      Masked(init, revealCount) + Piece(s[|s| - 1], NonSpaceCount(init) < revealCount)
  }

  /** Builds the hint character by character, as the source's loop does. */
  method GenerateHangmanHint(songTitle: string, level: nat) returns (hint: string)
    ensures hint == Masked(songTitle, RevealCount(NumLetters(songTitle), level))
  {
    var numLetters := NumLetters(songTitle);
    var revealCount := RevealCount(numLetters, level);
    var count := 0;
    hint := "";
    for i := 0 to |songTitle|
      invariant hint == Masked(songTitle[..i], revealCount)
      invariant count == NonSpaceCount(songTitle[..i])
    {
      var c := songTitle[i];
      assert songTitle[..i + 1][..i] == songTitle[..i];
      if c == ' ' {
        hint := hint + "    ";
      } else {
        hint := hint + (if count < revealCount then [c] else "_");
        count := count + 1;
      }
    }
    assert songTitle[..|songTitle|] == songTitle;
  }

  /** Every space becomes four characters and every other character one. */
  lemma {:induction false} MaskedLength(s: string, revealCount: int)
    ensures |Masked(s, revealCount)| == NonSpaceCount(s) + 4 * SpaceCount(s)
  {
    if s != [] {
      MaskedLength(s[..|s| - 1], revealCount);
    }
  }

  /** The hint for a prefix of the title is a prefix of the hint for the title. */
  lemma {:induction false} MaskedPrefix(s: string, i: nat, revealCount: int)
    requires i <= |s|
    ensures |Masked(s[..i], revealCount)| <= |Masked(s, revealCount)|
    ensures Masked(s, revealCount)[..|Masked(s[..i], revealCount)|] == Masked(s[..i], revealCount)
  {
    if i == |s| {
      assert s[..i] == s;
    } else {
      var init := s[..|s| - 1];
      assert init[..i] == s[..i];
      MaskedPrefix(init, i, revealCount);
    }
  }

  /** What the hint holds right after the part built from `s[..i]`: the piece
      that character `s[i]` becomes. */
  lemma PieceAt(s: string, i: nat, revealCount: int)
    requires i < |s|
    ensures var pre := Masked(s[..i], revealCount);
      var pc := Piece(s[i], NonSpaceCount(s[..i]) < revealCount);
      && |pre| + |pc| <= |Masked(s, revealCount)|
      && Masked(s, revealCount)[|pre|..|pre| + |pc|] == pc
  {
    var t := s[..i + 1];
    assert t[..|t| - 1] == s[..i];
    var pre := Masked(s[..i], revealCount);
    var pc := Piece(s[i], NonSpaceCount(s[..i]) < revealCount);
    assert Masked(t, revealCount) == pre + pc;
    MaskedPrefix(s, i + 1, revealCount);
    var m := Masked(s, revealCount);
    assert m[..|pre| + |pc|] == pre + pc;
    assert m[|pre|..|pre| + |pc|] == (pre + pc)[|pre|..];
  }

  /** Where each character of the title lands in the hint and what it shows: a
      non-space character is shown unchanged exactly when fewer than `revealCount`
      non-space characters precede it, and is '_' otherwise; a space is four spaces. */
  lemma MaskedAt(s: string, i: nat, revealCount: int)
    requires i < |s|
    ensures var p := NonSpaceCount(s[..i]) + 4 * SpaceCount(s[..i]);
      && (s[i] == ' ' ==> p + 4 <= |Masked(s, revealCount)| && Masked(s, revealCount)[p..p + 4] == "    ")
      && (s[i] != ' ' ==> p < |Masked(s, revealCount)|
                          && Masked(s, revealCount)[p] == if NonSpaceCount(s[..i]) < revealCount then s[i] else '_')
  {
    MaskedLength(s[..i], revealCount);
    PieceAt(s, i, revealCount);
    var p := |Masked(s[..i], revealCount)|;
    var m := Masked(s, revealCount);
    if s[i] != ' ' {
      assert m[p..p + 1][0] == m[p];
    }
  }

  /** With a larger reveal count, everything shown before is still shown. */
  lemma {:induction false} MaskedMonotone(s: string, rc1: int, rc2: int)
    requires rc1 <= rc2
    ensures |Masked(s, rc1)| == |Masked(s, rc2)|
    ensures forall k :: 0 <= k < |Masked(s, rc1)| ==>
              Masked(s, rc1)[k] == '_' || Masked(s, rc1)[k] == Masked(s, rc2)[k]
  {
    if s != [] {
      var init := s[..|s| - 1];
      MaskedMonotone(init, rc1, rc2);
      var a, b := Masked(init, rc1), Masked(init, rc2);
      var pa := Piece(s[|s| - 1], NonSpaceCount(init) < rc1);
      var pb := Piece(s[|s| - 1], NonSpaceCount(init) < rc2);
      forall k | 0 <= k < |a + pa|
        ensures (a + pa)[k] == '_' || (a + pa)[k] == (b + pb)[k]
      {
        if k >= |a| {
          assert (a + pa)[k] == pa[k - |a|] && (b + pb)[k] == pb[k - |a|];
        }
      }
    }
  }

  /** With nothing revealed (level 0), the hint is only spaces and underscores. */
  lemma {:induction false} MaskedNothingRevealed(s: string, revealCount: int)
    requires revealCount <= 0
    ensures forall k :: 0 <= k < |Masked(s, revealCount)| ==>
              Masked(s, revealCount)[k] == ' ' || Masked(s, revealCount)[k] == '_'
  {
    if s != [] {
      var init := s[..|s| - 1];
      MaskedNothingRevealed(init, revealCount);
      var a := Masked(init, revealCount);
      var pc := Piece(s[|s| - 1], NonSpaceCount(init) < revealCount);
      forall k | 0 <= k < |a + pc|
        ensures (a + pc)[k] == ' ' || (a + pc)[k] == '_'
      {
        if k >= |a| {
          assert (a + pc)[k] == pc[k - |a|];
        }
      }
    }
  }

  /** A no-break space is not counted in the budget but is walked past like a
      letter: in a six-character title of lower-case letters with a no-break space
      second, the budget is five, level 5 reveals five places, and so the last
      letter stays masked although every letter was meant to be shown. */
  lemma HintWithNoBreakSpace(t: string)
    requires |t| == 6 && t[1] == '\U{A0}'
    requires forall i :: 0 <= i < 6 && i != 1 ==> 'a' <= t[i] <= 'z'
    ensures NumLetters(t) == 5
    ensures Masked(t, RevealCount(NumLetters(t), 5)) == t[..5] + "_"
  {
    NumLettersCounts(t);
    assert LetterPositions(t) == {0, 2, 3, 4, 5};
    assert WideLetterPositions(t) == {};
    MaskedNoSpaces(t, 5);
  }

  /** In a title without spaces, the hint shows the first `revealCount`
      characters and masks the rest. */
  lemma {:induction false} MaskedNoSpaces(t: string, revealCount: nat)
    requires forall i :: 0 <= i < |t| ==> t[i] != ' '
    ensures Masked(t, revealCount) == t[..Min(revealCount, |t|)] + seq(|t| - Min(revealCount, |t|), _ => '_')
  {
    if t != [] {
      var init := t[..|t| - 1];
      MaskedNoSpaces(init, revealCount);
      assert NonSpaceCount(init) == |init| by {
        assert SpaceCount(init) == 0 by { NoSpacesCount(init); }
      }
    }
  }

  lemma {:induction false} NoSpacesCount(t: string)
    requires forall i :: 0 <= i < |t| ==> t[i] != ' '
    ensures SpaceCount(t) == 0
  {
    if t != [] {
      NoSpacesCount(t[..|t| - 1]);
    }
  }

  /** Three emoji are six letters, so level 3 reveals three places and shows
      every note. */
  lemma HintWithEmoji()
    ensures Masked("\U{1F3B5}\U{1F3B5}\U{1F3B5}", RevealCount(NumLetters("\U{1F3B5}\U{1F3B5}\U{1F3B5}"), 3))
              == "\U{1F3B5}\U{1F3B5}\U{1F3B5}"
  {
    NumLettersScenarios();
    var e := "\U{1F3B5}\U{1F3B5}\U{1F3B5}";
    assert e[..1] == "\U{1F3B5}" && Masked(e[..1], 3) == "\U{1F3B5}";
    assert e[..2][..1] == e[..1] && NonSpaceCount(e[..1]) == 1;
    assert Masked(e[..2], 3) == "\U{1F3B5}\U{1F3B5}";
    assert e[..2] == e[..|e| - 1] && NonSpaceCount(e[..2]) == 2;
  }
}
