/**
 * The fact extractor of `services/text_detection.py`: an age and a name pulled
 * out of one message by ordered regular expressions, searched case-insensitively,
 * the first accepted match winning.
 *
 * Each regular expression is written out as a recogniser over the message
 * (`AgeAt`, `NameAt`) that tries the alternatives in the order Python's
 * backtracking engine tries them, and `re.search` becomes a scan over the start
 * positions (`SearchAge`, `SearchName`). Only the first match of a pattern is
 * examined: when its value is rejected the next pattern is tried.
 */
module TextDetection {
  import opened Wrappers
  import opened Text

  // ---------------------------------------------------------------------------
  // Character classes and anchors of the patterns (all under re.IGNORECASE)

  /** `[A-Za-zÀ-ÿ]`: the ASCII letters and the whole block U+00C0..U+00FF. */
  predicate IsNameLetter(c: char) {
    IsAsciiLetter(c) || ('\U{C0}' <= c <= '\U{FF}')
  }

  /** `[a-zà-ÿ]` case-insensitively: also the upper-case partners U+00C0..U+00DE of à..þ. */
  predicate IsTailLetter(c: char) {
    IsAsciiLetter(c) || ('\U{E0}' <= c <= '\U{FF}') || ('\U{C0}' <= c <= '\U{DE}' && c != '\U{D7}')
  }

  /** `\b` at position i. */
  predicate Boundary(s: string, i: nat)
    requires i <= |s|
  {
    (i > 0 && IsWordChar(s[i - 1])) != (i < |s| && IsWordChar(s[i]))
  }

  function SpaceEnd(s: string, i: nat): (j: nat)
    requires i <= |s|
    ensures i <= j <= |s|
  {
    RunEnd(IsSpace, s, i)
  }

  function DigitEnd(s: string, i: nat): (j: nat)
    requires i <= |s|
    ensures i <= j <= |s|
  {
    RunEnd(IsDigit, s, i)
  }

  /** The literal `lit[k..]` found case-insensitively at position i + k. */
  predicate LiteralFrom(s: string, i: nat, lit: string, k: nat)
    requires k <= |lit| && i + k <= |s|
    ensures LiteralFrom(s, i, lit, k) ==> i + |lit| <= |s|
    decreases |lit| - k
  {
    k == |lit| || (i + k < |s| && CaseEq(s[i + k], lit[k]) && LiteralFrom(s, i, lit, k + 1))
  }

  predicate LiteralAt(s: string, i: nat, lit: string)
    requires i <= |s|
    ensures LiteralAt(s, i, lit) ==> i + |lit| <= |s|
  {
    LiteralFrom(s, i, lit, 0)
  }

  // ---------------------------------------------------------------------------
  // Age (text_detection.py:56-82)

  /** The four age patterns, in the order they are tried. */
  datatype AgePattern =
    | YearsWord       // \b(\d{1,3})\s*anos?\b
    | HaveNumber      // \btenho\s+(\d{1,3})\b
    | TrailingNumber  // \b(\d{1,3})\s*$
    | OnlyNumber      // ^\s*(\d{1,3})\s*$

  const AgePatterns: seq<AgePattern> := [YearsWord, HaveNumber, TrailingNumber, OnlyNumber]

  /** What must follow the digits of an age pattern. */
  datatype AgeTail = YearsTail | BoundaryTail | EndTail

  /**
   * Whether the tail matches at j. In `\s*ano` and `\s*$` giving back spaces of
   * the greedy `\s*` cannot help, since what follows would then be a space;
   * `$` needs the end, because a final newline is itself taken by `\s*`.
   * `s?\b`: the `s` is taken when present; without it `\b` would sit between
   * two letters.
   */
  predicate AgeTailAt(tail: AgeTail, s: string, j: nat)
    requires j <= |s|
  {
    match tail
    case YearsTail =>
      var t := SpaceEnd(s, j);
      LiteralAt(s, t, "ano")
      && ((t + 3 < |s| && CaseEq(s[t + 3], 's') && Boundary(s, t + 4)) || Boundary(s, t + 3))
    case BoundaryTail => Boundary(s, j)
    case EndTail => SpaceEnd(s, j) == |s|
  }

  /** The greedy `(\d{1,3})` at i: the lengths k, k-1, .., 1 in turn, the first followed by the tail. */
  function DigitsTry(tail: AgeTail, s: string, i: nat, k: nat): (r: Option<nat>)
    requires i + k <= |s| && k <= 3
    requires forall m :: i <= m < i + k ==> IsDigit(s[m])
    ensures r.Some? ==> r.value < 1000
    decreases k
  {
    if k == 0 then None
    else
      var d := s[i..i + k];
      assert AllDigits(d) by {
        forall m | 0 <= m < k ensures IsDigit(d[m]) { assert d[m] == s[i + m]; }
      }
      if AgeTailAt(tail, s, i + k) then
        DigitsValueBound(d);
        assert Pow10(k) <= 1000 by { assert k == 1 || k == 2 || k == 3; }
        Some(DigitsValue(d))
      else DigitsTry(tail, s, i, k - 1)
  }

  /** `(\d{1,3})` starting at i and followed by the tail. */
  function DigitsAt(tail: AgeTail, s: string, i: nat): (r: Option<nat>)
    requires i <= |s|
    ensures r.Some? ==> r.value < 1000
  {
    var k := Min(3, DigitEnd(s, i) - i);
    DigitsTry(tail, s, i, k)
  }

  /** The value of the group of the match of `pat` that starts at p, if there is one. */
  function AgeAt(pat: AgePattern, s: string, p: nat): (r: Option<nat>)
    requires p <= |s|
    ensures r.Some? ==> r.value < 1000
  {
    match pat
    case YearsWord => if Boundary(s, p) then DigitsAt(YearsTail, s, p) else None
    case HaveNumber =>
      if Boundary(s, p) && LiteralAt(s, p, "tenho") then
        var d := SpaceEnd(s, p + 5);
        if d == p + 5 then None else DigitsAt(BoundaryTail, s, d)
      else None
    case TrailingNumber => if Boundary(s, p) then DigitsAt(EndTail, s, p) else None
    case OnlyNumber => if p == 0 then DigitsAt(EndTail, s, SpaceEnd(s, 0)) else None
  }

  /** `re.search(pat, s[p:] ...)`: the leftmost start position whose match succeeds. */
  function SearchAge(pat: AgePattern, s: string, p: nat): (r: Option<nat>)
    requires p <= |s|
    ensures r.Some? ==> r.value < 1000
    decreases |s| - p
  {
    match AgeAt(pat, s, p)
    case Some(v) => Some(v)
    case None => if p == |s| then None else SearchAge(pat, s, p + 1)
  }

  predicate ValidAge(v: int) {
    1 <= v <= 120
  }

  predicate AcceptedAge(r: Option<nat>) {
    r.Some? && ValidAge(r.value)
  }

  /** The patterns in order; the first whose first match is in [1,120] decides. */
  function DetectAgeWith(pats: seq<AgePattern>, s: string): (r: Option<int>)
    ensures r.Some? ==> ValidAge(r.value)
  {
    if pats == [] then None
    else
      var m := SearchAge(pats[0], s, 0);
      if AcceptedAge(m) then Some(m.value) else DetectAgeWith(pats[1..], s)
  }

  /** `_detect_age`: None or an age in [1,120]. */
  function DetectAge(s: string): (r: Option<int>)
    ensures r.Some? ==> 1 <= r.value <= 120
  {
    DetectAgeWith(AgePatterns, s)
  }

  /** An age pattern whose first match is not accepted passes the decision on to the next. */
  lemma AgeSkip(pats: seq<AgePattern>, s: string)
    requires pats != [] && !AcceptedAge(SearchAge(pats[0], s, 0))
    ensures DetectAgeWith(pats, s) == DetectAgeWith(pats[1..], s)
  {
  }

  /** An age pattern whose first match is accepted decides. */
  lemma AgeTake(pats: seq<AgePattern>, s: string)
    requires pats != [] && AcceptedAge(SearchAge(pats[0], s, 0))
    ensures DetectAgeWith(pats, s) == Some(SearchAge(pats[0], s, 0).value)
  {
  }

  /** The result is the first pattern whose first match is accepted. */
  lemma {:induction false} AgeFirstAccepted(pats: seq<AgePattern>, s: string, i: nat)
    requires i < |pats|
    requires AcceptedAge(SearchAge(pats[i], s, 0))
    requires forall j :: 0 <= j < i ==> !AcceptedAge(SearchAge(pats[j], s, 0))
    ensures DetectAgeWith(pats, s) == Some(SearchAge(pats[i], s, 0).value)
  {
    if i == 0 {
      AgeTake(pats, s);
    } else {
      AgeSkip(pats, s);
      forall j | 0 <= j < i - 1 ensures !AcceptedAge(SearchAge(pats[1..][j], s, 0)) {
        assert pats[1..][j] == pats[j + 1];
      }
      AgeFirstAccepted(pats[1..], s, i - 1);
    }
  }

  /** No age is detected exactly when no pattern's first match is accepted. */
  lemma {:induction false} AgeNoneWhenNoneAccepted(pats: seq<AgePattern>, s: string)
    ensures DetectAgeWith(pats, s) == None <==> forall j :: 0 <= j < |pats| ==> !AcceptedAge(SearchAge(pats[j], s, 0))
  {
    if pats != [] {
      AgeNoneWhenNoneAccepted(pats[1..], s);
      if !AcceptedAge(SearchAge(pats[0], s, 0)) {
        forall j | 0 <= j < |pats| && j > 0 ensures pats[j] == pats[1..][j - 1] { }
      }
    }
  }

  lemma {:induction false} SearchSkipsFailures(pat: AgePattern, s: string, p: nat, d: nat)
    requires p <= d <= |s|
    requires forall q :: p <= q < d ==> AgeAt(pat, s, q).None?
    ensures SearchAge(pat, s, p) == SearchAge(pat, s, d)
  {
    NoAgeFrom(pat, s, p, d);
    SkipNoAge(pat, s, p, d);
  }

  /** No match of `pat` starts at any of p, .., d - 1. */
  predicate NoAgeIn(pat: AgePattern, s: string, p: nat, d: nat)
    requires p <= d <= |s|
    decreases d - p
  {
    p == d || (AgeAt(pat, s, p).None? && NoAgeIn(pat, s, p + 1, d))
  }

  lemma {:induction false} NoAgeFrom(pat: AgePattern, s: string, p: nat, d: nat)
    requires p <= d <= |s|
    requires forall q :: p <= q < d ==> AgeAt(pat, s, q).None?
    ensures NoAgeIn(pat, s, p, d)
    decreases d - p
  {
    if p < d {
      NoAgeFrom(pat, s, p + 1, d);
    }
  }

  lemma {:induction false} SkipNoAge(pat: AgePattern, s: string, p: nat, d: nat)
    requires p <= d <= |s| && NoAgeIn(pat, s, p, d)
    ensures SearchAge(pat, s, p) == SearchAge(pat, s, d)
    decreases d - p
  {
    if p < d {
      SkipNoAge(pat, s, p + 1, d);
    }
  }

  /**
   * The fourth age pattern never decides anything: whenever "only a number"
   * matches, "a trailing number" has already matched the same digits.
   */
  lemma OnlyNumberIsSubsumed(s: string)
    requires SearchAge(OnlyNumber, s, 0).Some?
    ensures SearchAge(TrailingNumber, s, 0) == SearchAge(OnlyNumber, s, 0)
  {
    var d := SpaceEnd(s, 0);
    if AgeAt(OnlyNumber, s, 0).None? {
      SearchSkipsFailures(OnlyNumber, s, 1, |s|);
      assert false;
    }
    var v := DigitsAt(EndTail, s, d);
    assert v.Some?;
    assert d < |s| && IsDigit(s[d]) by {
      if d == |s| || !IsDigit(s[d]) {
        assert false;
      }
    }
    forall q | 0 <= q < d ensures AgeAt(TrailingNumber, s, q).None? {
      assert IsSpace(s[q]);
      assert q > 0 ==> IsSpace(s[q - 1]);
    }
    assert Boundary(s, d) by {
      assert d > 0 ==> IsSpace(s[d - 1]);
    }
    SearchSkipsFailures(TrailingNumber, s, 0, d);
  }

  // ---------------------------------------------------------------------------
  // Name (text_detection.py:85-126)

  /** The five name patterns, in the order they are tried. */
  datatype NamePattern =
    | Introduction        // (?:me chamo|...|sou)\s+([A-Za-zÀ-ÿ]+(?:\s+[A-Za-zÀ-ÿ]+)?)\s*(?:e\s+|,|$)
    | BeforeAge           // ([A-Za-zÀ-ÿ]{3,})\s+(?:e\s+tenho|,\s*tenho)
    | LeadingCapitalised  // ^([A-Z][a-zà-ÿ]+(?:\s+[A-Z][a-zà-ÿ]+)?)\s*(?:e\s+|,|$)
    | LoneCapitalised     // ^\s*([A-Z][a-zà-ÿ]{2,})\s*$
    | AnyCapitalised      // \b([A-Z][a-zà-ÿ]{2,})\b

  const NamePatterns: seq<NamePattern> :=
    [Introduction, BeforeAge, LeadingCapitalised, LoneCapitalised, AnyCapitalised]

  /** The alternatives of the introduction phrase, in the order they are tried. */
  const IntroPhrases: seq<string> :=
    ["me chamo", "meu nome é", "nome é", "eu sou o", "eu sou a", "sou o", "sou a", "sou"]

  /** Words that are never taken for a name. */
  const Stoplist: seq<string> :=
    ["Oi", "Olá", "Bom", "Boa", "Tenho", "Anos", "Ano", "Meu", "Minha", "Nome", "Idade", "Sou", "E"]

  /** The two kinds of name word: `[A-Za-zÀ-ÿ]+` and `[A-Z][a-zà-ÿ]+`. */
  datatype WordShape = Plain | Capitalised

  /** Where the greedy word of this shape starting at i ends (i when none starts there). */
  function WordMaxEnd(shape: WordShape, s: string, i: nat): (j: nat)
    requires i <= |s|
    ensures i <= j <= |s|
  {
    match shape
    case Plain => RunEnd(IsNameLetter, s, i)
    case Capitalised => if i < |s| && IsAsciiLetter(s[i]) then RunEnd(IsTailLetter, s, i + 1) else i
  }

  /** The shortest end a word of this shape starting at i may have. */
  function WordMinEnd(shape: WordShape, i: nat): nat {
    match shape
    case Plain => i + 1
    case Capitalised => i + 2
  }

  /**
   * `\s*(?:e\s+|,|$)` at v (giving back spaces of `\s*` cannot help: each
   * alternative needs a non-space first, and a final newline is taken by `\s*`).
   */
  predicate NameTail(s: string, v: nat)
    requires v <= |s|
  {
    var t := SpaceEnd(s, v);
    || (t + 1 < |s| && CaseEq(s[t], 'e') && IsSpace(s[t + 1]))
    || (t < |s| && s[t] == ',')
    || t == |s|
  }

  /** Ends v, v-1, .. of the optional second word (begun at w2), the first followed by the tail. */
  function SecondEndTry(shape: WordShape, s: string, start: nat, w2: nat, v: nat): (r: Option<string>)
    requires start <= w2 <= v <= |s|
    ensures r.Some? ==> exists e :: start < e <= v && r.value == s[start..e]
    decreases v
  {
    if v < WordMinEnd(shape, w2) then None
    else if NameTail(s, v) then Some(s[start..v])
    else SecondEndTry(shape, s, start, w2, v - 1)
  }

  /** The optional `\s+word` after a first word ending at w. */
  function SecondTry(shape: WordShape, s: string, start: nat, w: nat): (r: Option<string>)
    requires start <= w <= |s|
    ensures r.Some? ==> exists e :: start < e <= |s| && r.value == s[start..e]
  {
    var w2 := SpaceEnd(s, w);
    if w2 == w then None
    else SecondEndTry(shape, s, start, w2, WordMaxEnd(shape, s, w2))
  }

  /**
   * The group `word(?:\s+word)?` starting at `start` followed by the tail: the
   * first word's ends are tried from the longest down, and for each end first
   * with the optional second word, then without it.
   */
  function GroupTry(shape: WordShape, s: string, start: nat, w: nat): (r: Option<string>)
    requires start <= w <= |s|
    ensures r.Some? ==> exists e :: start < e <= |s| && r.value == s[start..e]
    decreases w
  {
    if w < WordMinEnd(shape, start) then None
    else match SecondTry(shape, s, start, w)
      case Some(g) => Some(g)
      case None => if NameTail(s, w) then Some(s[start..w]) else GroupTry(shape, s, start, w - 1)
  }

  /** The rest of the introduction pattern after a phrase ending at q: `\s+` then the group. */
  function IntroRest(s: string, q: nat): Option<string>
    requires q <= |s|
  {
    var q1 := SpaceEnd(s, q);
    if q1 == q then None else GroupTry(Plain, s, q1, WordMaxEnd(Plain, s, q1))
  }

  /** The introduction phrases from index k on, tried in order at p. */
  function IntroTry(s: string, p: nat, k: nat): Option<string>
    requires p <= |s| && k <= |IntroPhrases|
    decreases |IntroPhrases| - k
  {
    if k == |IntroPhrases| then None
    else if LiteralAt(s, p, IntroPhrases[k]) then
      match IntroRest(s, p + |IntroPhrases[k]|)
      case Some(g) => Some(g)
      case None => IntroTry(s, p, k + 1)
    else IntroTry(s, p, k + 1)
  }

  /** Ends w, w-1, .., p+3 of `[A-Z][a-zà-ÿ]{2,}` at p, the first followed by `\b`. */
  function BoundaryTry(s: string, p: nat, w: nat): Option<string>
    requires p <= w <= |s|
    decreases w
  {
    if w < p + 3 then None
    else if Boundary(s, w) then Some(s[p..w])
    else BoundaryTry(s, p, w - 1)
  }

  /** The group of the match of `pat` that starts at p, if there is one. */
  function NameAt(pat: NamePattern, s: string, p: nat): Option<string>
    requires p <= |s|
  {
    match pat
    case Introduction => IntroTry(s, p, 0)
    case BeforeAge =>
      // Shortening the letters cannot help: `\s+` must follow them.
      var e := RunEnd(IsNameLetter, s, p);
      var sp := SpaceEnd(s, e);
      if e - p < 3 || sp == e || sp == |s| then None
      else if || (CaseEq(s[sp], 'e') && sp + 1 < |s| && IsSpace(s[sp + 1]) && LiteralAt(s, SpaceEnd(s, sp + 1), "tenho"))
              || (s[sp] == ',' && LiteralAt(s, SpaceEnd(s, sp + 1), "tenho"))
      then Some(s[p..e])
      else None
    case LeadingCapitalised =>
      if p == 0 then GroupTry(Capitalised, s, 0, WordMaxEnd(Capitalised, s, 0)) else None
    case LoneCapitalised =>
      var d := SpaceEnd(s, 0);
      if p == 0 && d < |s| && IsAsciiLetter(s[d]) then
        var e := RunEnd(IsTailLetter, s, d + 1);
        if e - (d + 1) >= 2 && SpaceEnd(s, e) == |s| then Some(s[d..e]) else None
      else None
    case AnyCapitalised =>
      if Boundary(s, p) && p < |s| && IsAsciiLetter(s[p]) then BoundaryTry(s, p, RunEnd(IsTailLetter, s, p + 1))
      else None
  }

  /** `re.search` for a name pattern: the leftmost start position whose match succeeds. */
  function SearchName(pat: NamePattern, s: string, p: nat): Option<string>
    requires p <= |s|
    decreases |s| - p
  {
    match NameAt(pat, s, p)
    case Some(g) => Some(g)
    case None => if p == |s| then None else SearchName(pat, s, p + 1)
  }

  /** Every word is capitalised: `str.capitalize` leaves it unchanged. */
  predicate IsCapitalisedName(n: string) {
    forall w :: w in Split(n) ==> Capitalize(w) == w
  }

  function CapitalizeAll(ws: seq<string>): (r: seq<string>)
    ensures |r| == |ws| && forall k :: 0 <= k < |r| ==> r[k] == Capitalize(ws[k])
  {
    seq(|ws|, k requires 0 <= k < |ws| => Capitalize(ws[k]))
  }

  /** `' '.join(word.capitalize() for word in g.strip().split())`: a name whose every word is capitalised. */
  function CanonicalName(g: string): (n: string)
    ensures IsCapitalisedName(n)
  {
    var ws := Split(Strip(g));
    var cs := CapitalizeAll(ws);
    CanonicalWords(ws);
    JoinSpace(cs)
  }

  lemma CanonicalWords(ws: seq<string>)
    requires forall k :: 0 <= k < |ws| ==> IsWord(ws[k])
    ensures IsCapitalisedName(JoinSpace(CapitalizeAll(ws)))
  {
    var cs := CapitalizeAll(ws);
    forall k | 0 <= k < |cs| ensures IsWord(cs[k]) && Capitalize(cs[k]) == cs[k] {
      CapitalizeWord(ws[k]);
      CapitalizeIdempotent(ws[k]);
    }
    SplitJoin(cs);
  }

  predicate AcceptedName(n: string) {
    n !in Stoplist && |n| > 1
  }

  /** The patterns in order; the first whose first match gives an accepted name decides. */
  function DetectNameWith(pats: seq<NamePattern>, s: string): (r: Option<string>)
    ensures r.Some? ==> AcceptedName(r.value) && IsCapitalisedName(r.value)
  {
    if pats == [] then None
    else match SearchName(pats[0], s, 0)
      case Some(g) =>
        var n := CanonicalName(g);
        if AcceptedName(n) then Some(n) else DetectNameWith(pats[1..], s)
      case None => DetectNameWith(pats[1..], s)
  }

  /** `_detect_name`: None, or a capitalised name that is not a stop word and is longer than one character. */
  function DetectName(s: string): (r: Option<string>)
    ensures r.Some? ==> r.value !in Stoplist && |r.value| > 1 && IsCapitalisedName(r.value)
  {
    DetectNameWith(NamePatterns, s)
  }

  /** What a pattern contributes: the canonical form of its first match, if that is accepted. */
  function NameCandidate(pat: NamePattern, s: string): Option<string> {
    match SearchName(pat, s, 0)
    case Some(g) => if AcceptedName(CanonicalName(g)) then Some(CanonicalName(g)) else None
    case None => None
  }

  /** A pattern whose first match is not accepted passes the decision on to the next. */
  lemma NameSkip(pats: seq<NamePattern>, s: string)
    requires pats != [] && NameCandidate(pats[0], s).None?
    ensures DetectNameWith(pats, s) == DetectNameWith(pats[1..], s)
  {
  }

  /** A pattern whose first match is accepted decides. */
  lemma NameTake(pats: seq<NamePattern>, s: string)
    requires pats != [] && NameCandidate(pats[0], s).Some?
    ensures DetectNameWith(pats, s) == NameCandidate(pats[0], s)
  {
  }

  /** The result is the first pattern whose first match is accepted; later matches of a rejected pattern are not looked at. */
  lemma {:induction false} NameFirstAccepted(pats: seq<NamePattern>, s: string, i: nat)
    requires i < |pats|
    requires NameCandidate(pats[i], s).Some?
    requires forall j :: 0 <= j < i ==> NameCandidate(pats[j], s).None?
    ensures DetectNameWith(pats, s) == NameCandidate(pats[i], s)
  {
    if i == 0 {
      NameTake(pats, s);
    } else {
      NameSkip(pats, s);
      forall j | 0 <= j < i - 1 ensures NameCandidate(pats[1..][j], s).None? {
        assert pats[1..][j] == pats[j + 1];
      }
      NameFirstAccepted(pats[1..], s, i - 1);
    }
  }

  /** The extracted facts of `detect_name_and_age`. */
  datatype Facts = Facts(nome: Option<string>, idade: Option<int>)

  /** `detect_name_and_age`: each field None or a value with the guarantees of its detector. */
  function DetectNameAndAge(s: string): (f: Facts)
    ensures f.idade.Some? ==> 1 <= f.idade.value <= 120
    ensures f.nome.Some? ==> f.nome.value !in Stoplist && |f.nome.value| > 1
    ensures f.nome.Some? ==> IsCapitalisedName(f.nome.value)
  {
    Facts(DetectName(s), DetectAge(s))
  }
}
