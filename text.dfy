/**
 * Characters and strings the way the Python runtime treats them, restricted to
 * the Latin-1 range U+0000..U+00FF: whitespace (`str.isspace`, the regex `\s`),
 * word characters (the regex `\w`), decimal digits, `str.lower`, the title case
 * that `str.capitalize` applies to a first character, `str.split()` with no
 * argument, `str.strip()`, `' '.join(...)`, `int(...)` of a digit string and
 * `str(...)` of an integer.
 *
 * Scanning functions take the string and an index, so that a fixed message is
 * walked position by position the way a regex engine walks it.
 */
module Text {

  /** `str.isspace` within Latin-1: space, TAB..CR, the four separators U+001C..U+001F, NEL and NBSP. */
  function Min(a: int, b: int): int {
    if a <= b then a else b
  }

  predicate IsSpace(c: char) {
    c == ' ' || ('\t' <= c <= '\r') || ('\U{1C}' <= c <= '\U{1F}') || c == '\U{85}' || c == '\U{A0}'
  }

  predicate NotSpace(c: char) {
    !IsSpace(c)
  }

  /** The regex `\d`: within Latin-1 only the ASCII digits are decimal digits. */
  predicate IsDigit(c: char) {
    '0' <= c <= '9'
  }

  predicate IsAsciiLetter(c: char) {
    'A' <= c <= 'Z' || 'a' <= c <= 'z'
  }

  /** The regex `\w` within Latin-1: letters, digits and numerics of the Unicode database, and `_`. */
  predicate IsWordChar(c: char) {
    || IsAsciiLetter(c) || IsDigit(c) || c == '_'
    || c == '\U{AA}' || c == '\U{B2}' || c == '\U{B3}' || c == '\U{B5}' || c == '\U{B9}' || c == '\U{BA}'
    || ('\U{BC}' <= c <= '\U{BE}')
    || ('\U{C0}' <= c <= '\U{D6}') || ('\U{D8}' <= c <= '\U{F6}') || ('\U{F8}' <= c <= '\U{FF}')
  }

  /** Upper-case letters of Latin-1: A..Z and U+00C0..U+00DE except the multiplication sign. */
  predicate IsUpper(c: char) {
    'A' <= c <= 'Z' || ('\U{C0}' <= c <= '\U{DE}' && c != '\U{D7}')
  }

  /** `str.lower` on one character. */
  function LowerChar(c: char): (r: char)
    ensures !IsUpper(r)
    ensures !IsUpper(c) ==> r == c
    ensures IsSpace(r) <==> IsSpace(c)
  {
    if IsUpper(c) then (c as int + 32) as char else c
  }

  /** Title case of one character (for every character but U+00DF, whose title case is two characters). */
  function TitleChar(c: char): char {
    if 'a' <= c <= 'z' then (c as int - 32) as char
    else if '\U{E0}' <= c <= '\U{FE}' && c != '\U{F7}' then (c as int - 32) as char
    else if c == '\U{FF}' then '\U{178}'
    else if c == '\U{B5}' then '\U{39C}'
    else c
  }

  /** Title case of one character as a string: the sharp s becomes "Ss". */
  function TitleOf(c: char): string {
    if c == '\U{DF}' then "Ss" else [TitleChar(c)]
  }

  /** `str.lower`. */
  function Lower(s: string): string {
    seq(|s|, i requires 0 <= i < |s| => LowerChar(s[i]))
  }

  /** Case-insensitive equality of two characters, as the regex engine compares them. */
  predicate CaseEq(a: char, b: char) {
    LowerChar(a) == LowerChar(b)
  }

  /** `str.capitalize`: the first character in title case, the rest in lower case. */
  function Capitalize(w: string): string {
    if w == [] then [] else TitleOf(w[0]) + Lower(w[1..])
  }

  /** The first index at or after `i` whose character fails `p` (or `|s|`). */
  function RunEnd(p: char -> bool, s: string, i: nat): (j: nat)
    requires i <= |s|
    ensures i <= j <= |s|
    ensures forall k :: i <= k < j ==> p(s[k])
    ensures j < |s| ==> !p(s[j])
    decreases |s| - i
  {
    if i == |s| || !p(s[i]) then i else RunEnd(p, s, i + 1)
  }

  lemma RunEndUnique(p: char -> bool, s: string, i: nat, j: nat)
    requires i <= j <= |s|
    requires forall k :: i <= k < j ==> p(s[k])
    requires j < |s| ==> !p(s[j])
    ensures RunEnd(p, s, i) == j
    decreases j - i
  {
    if i < j {
      RunEndUnique(p, s, i + 1, j);
    }
  }

  /** A word of `str.split()`: non-empty and free of whitespace. */
  predicate IsWord(w: string) {
    |w| > 0 && forall k :: 0 <= k < |w| ==> !IsSpace(w[k])
  }

  /** `s[i:].split()`: the maximal whitespace-free runs, in order. */
  function SplitFrom(s: string, i: nat): (ws: seq<string>)
    requires i <= |s|
    ensures forall k :: 0 <= k < |ws| ==> IsWord(ws[k])
    decreases |s| - i
  {
    if i == |s| then []
    else if IsSpace(s[i]) then SplitFrom(s, i + 1)
    else
      var j := RunEnd(NotSpace, s, i);
      [s[i..j]] + SplitFrom(s, j)
  }

  /** `str.split()` with no argument. */
  function Split(s: string): seq<string> {
    SplitFrom(s, 0)
  }

  /** `' '.join(ws)`. */
  function JoinSpace(ws: seq<string>): string {
    if ws == [] then "" else if |ws| == 1 then ws[0] else ws[0] + " " + JoinSpace(ws[1..])
  }

  /** `s.lstrip()`. */
  function TrimStart(s: string): (r: string)
    ensures |r| <= |s| && r == s[|s| - |r|..]
    ensures r != [] ==> !IsSpace(r[0])
    ensures forall k :: 0 <= k < |s| - |r| ==> IsSpace(s[k])
  {
    if s != [] && IsSpace(s[0]) then TrimStart(s[1..]) else s
  }

  /** `s.rstrip()`. */
  function TrimEnd(s: string): (r: string)
    ensures |r| <= |s| && r == s[..|r|]
    ensures r != [] ==> !IsSpace(r[|r| - 1])
    ensures forall k :: |r| <= k < |s| ==> IsSpace(s[k])
  {
    if s != [] && IsSpace(s[|s| - 1]) then TrimEnd(s[..|s| - 1]) else s
  }

  /** `s.strip()`. */
  function Strip(s: string): (r: string)
    ensures r != [] ==> !IsSpace(r[0]) && !IsSpace(r[|r| - 1])
  {
    TrimEnd(TrimStart(s))
  }

  /** `strip()` keeps a slice of the input and removes only whitespace before and after it. */
  lemma StripRemovesSurroundingSpace(s: string)
    ensures exists i, j ::
              && 0 <= i <= j <= |s| && Strip(s) == s[i..j]
              && (forall k :: 0 <= k < i ==> IsSpace(s[k]))
              && (forall k :: j <= k < |s| ==> IsSpace(s[k]))
  {
    var t := TrimStart(s);
    var r := TrimEnd(t);
    var i := |s| - |t|;
    var j := i + |r|;
    PrefixOfSuffix(s, i, j);
    SpaceAfterPrefix(s, i, t, r);
    assert Strip(s) == r == s[i..j];
    assert forall k :: 0 <= k < i ==> IsSpace(s[k]);
    assert forall k :: j <= k < |s| ==> IsSpace(s[k]);
  }

  lemma PrefixOfSuffix<T>(s: seq<T>, i: nat, j: nat)
    requires i <= j <= |s|
    ensures s[i..][..j - i] == s[i..j]
  {
    forall k | 0 <= k < j - i ensures s[i..][..j - i][k] == s[i..j][k] {
      assert s[i..][k] == s[i + k];
    }
  }

  /** Whitespace after the kept prefix of a suffix is whitespace of the whole string. */
  lemma SpaceAfterPrefix(s: string, i: nat, t: string, r: string)
    requires i <= |s| && t == s[i..] && |r| <= |t|
    requires forall k :: |r| <= k < |t| ==> IsSpace(t[k])
    ensures forall k :: i + |r| <= k < |s| ==> IsSpace(s[k])
  {
    forall k | i + |r| <= k < |s| ensures IsSpace(s[k]) {
      assert s[k] == t[k - i];
    }
  }

  function DigitValue(c: char): nat
    requires IsDigit(c)
  {
    c as int - '0' as int
  }

  predicate AllDigits(s: string) {
    forall k :: 0 <= k < |s| ==> IsDigit(s[k])
  }

  /** `int(s)` for a string of decimal digits. */
  function DigitsValue(s: string): nat
    requires AllDigits(s)
  {
    if s == [] then 0 else DigitsValue(s[..|s| - 1]) * 10 + DigitValue(s[|s| - 1])
  }

  function DigitChar(d: nat): (c: char)
    requires d < 10
    ensures IsDigit(c) && DigitValue(c) == d
  {
    ('0' as int + d) as char
  }

  /** `str(n)` for a natural number. */
  function NatToString(n: nat): (s: string)
    ensures |s| > 0 && AllDigits(s)
  {
    if n < 10 then [DigitChar(n)] else NatToString(n / 10) + [DigitChar(n % 10)]
  }

  /** `str(i)` for an integer. */
  function IntToString(i: int): string {
    if i < 0 then "-" + NatToString(-i) else NatToString(i)
  }

  /** Rendering a number and reading it back gives the number. */
  lemma {:induction false} DigitsRoundTrip(n: nat)
    ensures DigitsValue(NatToString(n)) == n
  {
    var s := NatToString(n);
    if n >= 10 {
      assert s[..|s| - 1] == NatToString(n / 10);
      DigitsRoundTrip(n / 10);
    }
  }

  lemma {:induction false} DigitsValueBound(s: string)
    requires AllDigits(s)
    ensures DigitsValue(s) < Pow10(|s|)
  {
    if s != [] {
      DigitsValueBound(s[..|s| - 1]);
    }
  }

  function Pow10(n: nat): (r: nat)
    ensures r >= 1
  {
    if n == 0 then 1 else 10 * Pow10(n - 1)
  }

  // ---------------------------------------------------------------------------
  // Splitting and joining

  /** Moving a suffix behind a prefix shifts every scan by the prefix length. */
  lemma {:induction false} RunEndShift(p: char -> bool, pre: string, t: string, k: nat)
    requires k <= |t|
    ensures RunEnd(p, pre + t, |pre| + k) == |pre| + RunEnd(p, t, k)
    decreases |t| - k
  {
    var s := pre + t;
    if k < |t| && p(t[k]) {
      assert s[|pre| + k] == t[k];
      RunEndShift(p, pre, t, k + 1);
    } else if k < |t| {
      assert s[|pre| + k] == t[k];
    }
  }

  lemma {:induction false} SplitFromShift(pre: string, t: string, k: nat)
    requires k <= |t|
    ensures SplitFrom(pre + t, |pre| + k) == SplitFrom(t, k)
    decreases |t| - k
  {
    var s := pre + t;
    if k < |t| {
      assert s[|pre| + k] == t[k];
      if IsSpace(t[k]) {
        SplitFromShift(pre, t, k + 1);
      } else {
        RunEndShift(NotSpace, pre, t, k);
        var j := RunEnd(NotSpace, t, k);
        assert s[|pre| + k..|pre| + j] == t[k..j];
        SplitFromShift(pre, t, j);
      }
    }
  }

  /** A word followed by whitespace (or nothing) splits off as one item. */
  lemma SplitWordThen(w: string, t: string)
    requires IsWord(w)
    requires t == [] || IsSpace(t[0])
    ensures Split(w + t) == [w] + Split(t)
  {
    var s := w + t;
    assert s[0] == w[0];
    RunEndUnique(NotSpace, s, 0, |w|);
    assert s[0..|w|] == w;
    SplitFromShift(w, t, 0);
  }

  lemma SplitSpaceThen(t: string)
    ensures Split(" " + t) == Split(t)
  {
    SplitFromShift(" ", t, 0);
  }

  /** Splitting a space-joined list of words gives the words back. */
  lemma {:induction false} SplitJoin(ws: seq<string>)
    requires forall k :: 0 <= k < |ws| ==> IsWord(ws[k])
    ensures Split(JoinSpace(ws)) == ws
  {
    if ws == [] {
    } else if |ws| == 1 {
      SplitWordThen(ws[0], "");
      assert ws[0] + "" == ws[0];
    } else {
      var rest := JoinSpace(ws[1..]);
      assert ws[0] + " " + rest == ws[0] + (" " + rest);
      SplitWordThen(ws[0], " " + rest);
      SplitSpaceThen(rest);
      SplitJoin(ws[1..]);
    }
  }

  /** Whitespace only as single ' ' characters between non-space characters. */
  predicate SpacesCollapsed(s: string) {
    && (|s| > 0 ==> !IsSpace(s[0]) && !IsSpace(s[|s| - 1]))
    && (forall k :: 0 <= k < |s| && IsSpace(s[k]) ==> s[k] == ' ')
    && (forall k :: 0 <= k < |s| - 1 && IsSpace(s[k]) ==> !IsSpace(s[k + 1]))
  }

  lemma {:induction false} JoinSpaceCollapsed(ws: seq<string>)
    requires forall k :: 0 <= k < |ws| ==> IsWord(ws[k])
    ensures SpacesCollapsed(JoinSpace(ws))
  {
    if |ws| > 1 {
      JoinSpaceCollapsed(ws[1..]);
      var w, rest := ws[0], JoinSpace(ws[1..]);
      var s := w + " " + rest;
      assert |rest| > 0 by { JoinSpaceNonEmpty(ws[1..]); }
      assert forall k :: 0 <= k < |w| ==> s[k] == w[k];
      assert forall k :: |w| < k < |s| ==> s[k] == rest[k - |w| - 1];
      assert s[|w| + 1] == rest[0];
      assert s[0] == w[0];
      assert s[|s| - 1] == rest[|rest| - 1];
    }
  }

  lemma {:induction false} JoinSpaceNonEmpty(ws: seq<string>)
    requires forall k :: 0 <= k < |ws| ==> IsWord(ws[k])
    ensures |JoinSpace(ws)| > 0 <==> |ws| > 0
  {
    if |ws| > 1 {
      JoinSpaceNonEmpty(ws[1..]);
    }
  }

  /** A character property that holds of the string holds of every word `str.split()` returns. */
  lemma {:induction false} SplitFromKeeps(p: char -> bool, s: string, i: nat)
    requires i <= |s|
    requires forall k :: i <= k < |s| ==> p(s[k])
    ensures forall w, k :: w in SplitFrom(s, i) && 0 <= k < |w| ==> p(w[k])
    decreases |s| - i
  {
    if i < |s| {
      if IsSpace(s[i]) {
        SplitFromKeeps(p, s, i + 1);
      } else {
        var j := RunEnd(NotSpace, s, i);
        SplitFromKeeps(p, s, j);
        forall k | 0 <= k < j - i ensures p(s[i..j][k]) {
          assert s[i..j][k] == s[i + k];
        }
      }
    }
  }

  /** A character property of every word and of ' ' holds of the joined string. */
  lemma {:induction false} JoinSpaceKeeps(p: char -> bool, ws: seq<string>)
    requires p(' ')
    requires forall w, k :: w in ws && 0 <= k < |w| ==> p(w[k])
    ensures forall k :: 0 <= k < |JoinSpace(ws)| ==> p(JoinSpace(ws)[k])
  {
    if |ws| > 1 {
      JoinSpaceKeeps(p, ws[1..]);
      var w, rest := ws[0], JoinSpace(ws[1..]);
      var s := w + " " + rest;
      assert w in ws;
      forall k | 0 <= k < |s| ensures p(s[k]) {
        if k < |w| {
          assert s[k] == w[k];
        } else if k > |w| {
          assert s[k] == rest[k - |w| - 1];
        }
      }
    } else if |ws| == 1 {
      assert ws[0] in ws;
    }
  }

  /** `' '.join(s.split())` keeps the words of `s` and collapses its whitespace. */
  lemma CollapseSpaces(s: string)
    ensures Split(JoinSpace(Split(s))) == Split(s)
    ensures SpacesCollapsed(JoinSpace(Split(s)))
  {
    SplitJoin(Split(s));
    JoinSpaceCollapsed(Split(s));
  }

  // ---------------------------------------------------------------------------
  // Case mapping

  lemma LowerIdempotent(s: string)
    ensures Lower(Lower(s)) == Lower(s)
  {
  }

  lemma TitleCharNotSpace(c: char)
    requires !IsSpace(c)
    ensures !IsSpace(TitleChar(c))
  {
  }

  /** A capitalised word is still a word. */
  lemma CapitalizeWord(w: string)
    requires IsWord(w)
    ensures IsWord(Capitalize(w))
  {
    var r := Capitalize(w);
    var t := TitleOf(w[0]);
    var l := Lower(w[1..]);
    assert r == t + l;
    forall k | 0 <= k < |r| ensures !IsSpace(r[k]) {
      if k >= |t| {
        assert r[k] == l[k - |t|] == LowerChar(w[1..][k - |t|]);
      } else {
        TitleCharNotSpace(w[0]);
      }
    }
  }

  /** Apart from the sharp s, title case is never the sharp s and is its own title case. */
  lemma TitleCharFixed(c: char)
    requires c != '\U{DF}'
    ensures TitleChar(c) != '\U{DF}' && TitleChar(TitleChar(c)) == TitleChar(c)
  {
  }

  /** Capitalising twice is capitalising once. */
  lemma CapitalizeIdempotent(w: string)
    ensures Capitalize(Capitalize(w)) == Capitalize(w)
  {
    if w != [] {
      var l := Lower(w[1..]);
      LowerIdempotent(w[1..]);
      assert Lower(l) == l;
      if w[0] == '\U{DF}' {
        var c := "Ss" + l;
        assert Capitalize(w) == c;
        assert c[0] == 'S' && c[1..] == "s" + l;
        assert Lower("s" + l) == "s" + l;
        assert Capitalize(c) == "S" + ("s" + l);
      } else {
        var t := TitleChar(w[0]);
        var c := [t] + l;
        assert Capitalize(w) == c;
        TitleCharFixed(w[0]);
        assert c[0] == t && c[1..] == l;
        assert TitleOf(t) == [t];
      }
    }
  }
}
