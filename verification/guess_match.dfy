/** The local guess matcher: a guess matches a title when both are equal after
    trimming surrounding whitespace and lower-casing. Whitespace is the full set
    that ECMAScript's `trim` and the regular-expression class `\s` share; only the
    letters A to Z change case. */
module GuessMatch {

  /** The WhiteSpace characters of ECMA-262 (tab, vertical tab, form feed,
      no-break space, byte order mark and the space separators) and its
      LineTerminator characters (line feed, carriage return, line separator and
      paragraph separator). */
  predicate IsWhitespace(c: char)
  {
    var u := c as int;
    || u == 0x09 || u == 0x0A || u == 0x0B || u == 0x0C || u == 0x0D || u == 0x20
    || u == 0xA0 || u == 0x1680 || (0x2000 <= u <= 0x200A) || u == 0x2028 || u == 0x2029
    || u == 0x202F || u == 0x205F || u == 0x3000 || u == 0xFEFF
  }

  predicate AllWhitespace(s: string)
  {
    forall i :: 0 <= i < |s| ==> IsWhitespace(s[i])
  }

  /** ASCII lower-casing of one character. */
  function Lower(c: char): (d: char)
    ensures IsWhitespace(d) <==> IsWhitespace(c)
    ensures !('A' <= c <= 'Z') ==> d == c
    ensures !('A' <= d <= 'Z')
  {
    if 'A' <= c <= 'Z' then (c as int + 32) as char else c
  }

  function ToLower(s: string): (r: string)
    ensures |r| == |s|
    ensures forall i :: 0 <= i < |s| ==> r[i] == Lower(s[i])
  {
    seq(|s|, i requires 0 <= i < |s| => Lower(s[i]))
  }

  /** Drops leading whitespace: what is left is a suffix of the input that is
      empty or starts with a non-whitespace character, and all that was dropped
      is whitespace. */
  function TrimStart(s: string): (r: string)
    ensures |r| <= |s| && r == s[|s| - |r|..]
    ensures r == [] || !IsWhitespace(r[0])
    ensures AllWhitespace(s[..|s| - |r|])
  {
    if s != [] && IsWhitespace(s[0]) then TrimStart(s[1..]) else s
  }

  /** Drops trailing whitespace: what is left is a prefix of the input that is
      empty or ends with a non-whitespace character, and all that was dropped is
      whitespace. */
  function TrimEnd(s: string): (r: string)
    ensures |r| <= |s| && r == s[..|r|]
    ensures r == [] || !IsWhitespace(r[|r| - 1])
    ensures AllWhitespace(s[|r|..])
  {
    if s != [] && IsWhitespace(s[|s| - 1]) then TrimEnd(s[..|s| - 1]) else s
  }

  function Trim(s: string): string
  {
    TrimEnd(TrimStart(s))
  }

  /** Case-insensitive comparison of the trimmed guess and the trimmed title. */
  function CheckGuess(userGuess: string, actualSong: string): (ok: bool)
    ensures |Trim(userGuess)| != |Trim(actualSong)| ==> !ok
  {
    ToLower(Trim(userGuess)) == ToLower(Trim(actualSong))
  }

  lemma CheckGuessReflexive(s: string)
    ensures CheckGuess(s, s)
  {
  }

  lemma CheckGuessSymmetric(a: string, b: string)
    ensures CheckGuess(a, b) == CheckGuess(b, a)
  {
  }

  lemma {:induction false} TrimStartAllWhitespace(s: string)
    requires AllWhitespace(s)
    ensures TrimStart(s) == []
  {
    if s != [] {
      TrimStartAllWhitespace(s[1..]);
    }
  }

  lemma {:induction false} TrimEndAllWhitespace(s: string)
    requires AllWhitespace(s)
    ensures TrimEnd(s) == []
  {
    if s != [] {
      TrimEndAllWhitespace(s[..|s| - 1]);
    }
  }

  /** Leading whitespace in front of a string is skipped. */
  lemma {:induction false} TrimStartSkipsPrefix(w: string, s: string)
    requires AllWhitespace(w)
    ensures TrimStart(w + s) == TrimStart(s)
  {
    if w == [] {
      assert w + s == s;
    } else {
      assert (w + s)[1..] == w[1..] + s;
      TrimStartSkipsPrefix(w[1..], s);
    }
  }

  /** Trailing whitespace after a string is skipped. */
  lemma {:induction false} TrimEndSkipsSuffix(s: string, w: string)
    requires AllWhitespace(w)
    ensures TrimEnd(s + w) == TrimEnd(s)
  {
    if w == [] {
      assert s + w == s;
    } else {
      assert (s + w)[..|s + w| - 1] == s + w[..|w| - 1];
      TrimEndSkipsSuffix(s, w[..|w| - 1]);
    }
  }

  /** Trimming the front of a string followed by whitespace keeps that whitespace,
      unless the string itself is all whitespace. */
  lemma {:induction false} TrimStartKeepsSuffix(s: string, w: string)
    requires AllWhitespace(w)
    ensures AllWhitespace(s) ==> TrimStart(s + w) == []
    ensures !AllWhitespace(s) ==> TrimStart(s + w) == TrimStart(s) + w
  {
    if s == [] {
      assert s + w == w;
      TrimStartAllWhitespace(w);
    } else {
      assert (s + w)[1..] == s[1..] + w;
      if IsWhitespace(s[0]) {
        TrimStartKeepsSuffix(s[1..], w);
        if AllWhitespace(s[1..]) {
          assert AllWhitespace(s);
        }
      } else {
        assert !AllWhitespace(s);
      }
    }
  }

  /** Whitespace added around either the guess or the title never changes the verdict. */
  lemma TrimIgnoresPadding(before: string, s: string, after: string)
    requires AllWhitespace(before) && AllWhitespace(after)
    ensures Trim(before + s + after) == Trim(s)
  {
    assert before + s + after == before + (s + after);
    TrimStartSkipsPrefix(before, s + after);
    TrimStartKeepsSuffix(s, after);
    if AllWhitespace(s) {
      TrimStartAllWhitespace(s);
    } else {
      TrimEndSkipsSuffix(TrimStart(s), after);
    }
  }

  lemma CheckGuessIgnoresPadding(guess: string, title: string, pad1: string, pad2: string, pad3: string, pad4: string)
    requires AllWhitespace(pad1) && AllWhitespace(pad2) && AllWhitespace(pad3) && AllWhitespace(pad4)
    ensures CheckGuess(pad1 + guess + pad2, pad3 + title + pad4) == CheckGuess(guess, title)
  {
    TrimIgnoresPadding(pad1, guess, pad2);
    TrimIgnoresPadding(pad3, title, pad4);
  }

  lemma {:induction false} TrimStartCommutesWithLower(s: string)
    ensures TrimStart(ToLower(s)) == ToLower(TrimStart(s))
  {
    if s != [] {
      assert ToLower(s)[1..] == ToLower(s[1..]);
      TrimStartCommutesWithLower(s[1..]);
    }
  }

  lemma {:induction false} TrimEndCommutesWithLower(s: string)
    ensures TrimEnd(ToLower(s)) == ToLower(TrimEnd(s))
  {
    if s != [] {
      assert ToLower(s)[..|s| - 1] == ToLower(s[..|s| - 1]);
      TrimEndCommutesWithLower(s[..|s| - 1]);
    }
  }

  /** Lower-casing and trimming can be done in either order. */
  lemma TrimCommutesWithLower(s: string)
    ensures ToLower(Trim(s)) == Trim(ToLower(s))
  {
    TrimStartCommutesWithLower(s);
    TrimEndCommutesWithLower(TrimStart(s));
  }

  /** Two guesses that differ only in the case of their letters get the same
      verdict, and so do two titles that differ only in case. */
  lemma CheckGuessIgnoresCase(guess: string, guess2: string, title: string, title2: string)
    requires ToLower(guess) == ToLower(guess2) && ToLower(title) == ToLower(title2)
    ensures CheckGuess(guess, title) == CheckGuess(guess2, title2)
  {
    TrimCommutesWithLower(guess);
    TrimCommutesWithLower(guess2);
    TrimCommutesWithLower(title);
    TrimCommutesWithLower(title2);
  }
}
