/**
 * Properties and worked examples of the fact extractor of
 * `services/text_detection.py`, stated over the recognisers of `TextDetection`.
 */
module DetectionExamples {
  import opened Wrappers
  import opened Text
  import opened TextDetection

  /** An age pattern can only match where a digit follows. */
  lemma DigitsNeedDigit(tail: AgeTail, s: string, i: nat)
    requires i <= |s|
    requires i == |s| || !IsDigit(s[i])
    ensures DigitsAt(tail, s, i) == None
  {
    assert DigitEnd(s, i) == i;
  }

  /** Without a digit in the message, no age pattern matches at any position. */
  lemma NoDigitAt(pat: AgePattern, s: string, p: nat)
    requires p <= |s|
    requires forall k :: 0 <= k < |s| ==> !IsDigit(s[k])
    ensures AgeAt(pat, s, p) == None
  {
    match pat {
      case YearsWord => DigitsNeedDigit(YearsTail, s, p);
      case HaveNumber =>
        if Boundary(s, p) && LiteralAt(s, p, "tenho") {
          DigitsNeedDigit(BoundaryTail, s, SpaceEnd(s, p + 5));
        }
      case TrailingNumber => DigitsNeedDigit(EndTail, s, p);
      case OnlyNumber => DigitsNeedDigit(EndTail, s, SpaceEnd(s, 0));
    }
  }

  lemma NoDigitNoMatch(pat: AgePattern, s: string)
    requires forall k :: 0 <= k < |s| ==> !IsDigit(s[k])
    ensures SearchAge(pat, s, 0) == None
  {
    forall q | 0 <= q <= |s| ensures AgeAt(pat, s, q) == None {
      NoDigitAt(pat, s, q);
    }
    SearchSkipsFailures(pat, s, 0, |s|);
  }

  /** A message without a decimal digit never yields an age. */
  lemma NoDigitNoAge(s: string)
    requires forall k :: 0 <= k < |s| ==> !IsDigit(s[k])
    ensures DetectAge(s) == None
  {
    forall j | 0 <= j < |AgePatterns| ensures !AcceptedAge(SearchAge(AgePatterns[j], s, 0)) {
      NoDigitNoMatch(AgePatterns[j], s);
    }
    AgeNoneWhenNoneAccepted(AgePatterns, s);
  }

  /** No name is detected exactly when no pattern's first match is accepted. */
  lemma {:induction false} NameNoneWhenNoneAccepted(pats: seq<NamePattern>, s: string)
    ensures DetectNameWith(pats, s) == None <==> forall j :: 0 <= j < |pats| ==> NameCandidate(pats[j], s).None?
  {
    if pats != [] {
      NameNoneWhenNoneAccepted(pats[1..], s);
      if NameCandidate(pats[0], s).None? {
        forall j | 0 <= j < |pats| && j > 0 ensures pats[j] == pats[1..][j - 1] { }
      }
    }
  }

  lemma SearchNameStep(pat: NamePattern, s: string, p: nat)
    requires p < |s| && NameAt(pat, s, p).None?
    ensures SearchName(pat, s, p) == SearchName(pat, s, p + 1)
  {
  }

  /** A pattern that matches at no start position from p on is not found from p on. */
  lemma {:induction false} ScanNone(pat: NamePattern, s: string, p: nat)
    requires p <= |s|
    requires forall q :: p <= q <= |s| ==> NameAt(pat, s, q).None?
    ensures SearchName(pat, s, p) == None
    decreases |s| - p
  {
    if p < |s| {
      ScanNone(pat, s, p + 1);
      SearchNameStep(pat, s, p);
    }
  }

  /** The introduction phrases from index k on, none of them present at p, give nothing. */
  lemma {:induction false} IntroAbsent(s: string, p: nat, k: nat)
    requires p <= |s| && k <= |IntroPhrases|
    requires forall j :: k <= j < |IntroPhrases| ==> !LiteralAt(s, p, IntroPhrases[j])
    ensures IntroTry(s, p, k) == None
    decreases |IntroPhrases| - k
  {
    if k < |IntroPhrases| {
      IntroAbsent(s, p, k + 1);
    }
  }

  /** A phrase absent at p hands over to the next phrase. */
  lemma IntroSkip(s: string, p: nat, k: nat)
    requires p <= |s| && k < |IntroPhrases| && !LiteralAt(s, p, IntroPhrases[k])
    ensures IntroTry(s, p, k) == IntroTry(s, p, k + 1)
  {
  }

  /** A phrase present at p followed by a name group gives that group. */
  lemma IntroTake(s: string, p: nat, k: nat, g: string)
    requires p <= |s| && k < |IntroPhrases| && LiteralAt(s, p, IntroPhrases[k])
    requires IntroRest(s, p + |IntroPhrases[k]|) == Some(g)
    ensures IntroTry(s, p, k) == Some(g)
  {
  }

  /** Every introduction phrase begins with m, n, e or s. */
  lemma IntroNeedsInitial(s: string, p: nat)
    requires p <= |s|
    requires p == |s| || !(CaseEq(s[p], 'm') || CaseEq(s[p], 'n') || CaseEq(s[p], 'e') || CaseEq(s[p], 's'))
    ensures IntroTry(s, p, 0) == None
  {
    forall j | 0 <= j < |IntroPhrases| ensures !LiteralAt(s, p, IntroPhrases[j]) {
      var lit := IntroPhrases[j];
      assert lit[0] in "mnes";
    }
    IntroAbsent(s, p, 0);
  }

  // ---------------------------------------------------------------------------
  // "oi": a greeting alone

  lemma OiIntro()
    ensures SearchName(Introduction, "oi", 0) == None
  {
    IntroNeedsInitial("oi", 0);
    IntroNeedsInitial("oi", 1);
    IntroNeedsInitial("oi", 2);
  }
  lemma OiBeforeAge()
    ensures SearchName(BeforeAge, "oi", 0) == None
  {
    assert NameAt(BeforeAge, "oi", 0) == None;
    assert NameAt(BeforeAge, "oi", 1) == None;
    assert NameAt(BeforeAge, "oi", 2) == None;
  }
  lemma OiLone()
    ensures SearchName(LoneCapitalised, "oi", 0) == None
  {
    assert NameAt(LoneCapitalised, "oi", 0) == None;
  }
  lemma OiAny()
    ensures SearchName(AnyCapitalised, "oi", 0) == None
  {
    assert NameAt(AnyCapitalised, "oi", 0) == None;
    assert NameAt(AnyCapitalised, "oi", 1) == None;
  }
  lemma OiLeading()
    ensures SearchName(LeadingCapitalised, "oi", 0) == Some("oi")
  {
    var s := "oi";
    assert WordMaxEnd(Capitalised, s, 0) == 2;
    assert SpaceEnd(s, 2) == 2;
    assert SecondTry(Capitalised, s, 0, 2) == None;
    assert NameTail(s, 2);
    assert s[0..2] == s;
    assert GroupTry(Capitalised, s, 0, 2) == Some(s);
    assert NameAt(LeadingCapitalised, s, 0) == Some(s);
  }

  lemma OiCanonical()
    ensures CanonicalName("oi") == "Oi"
  {
    assert Strip("oi") == "oi";
    assert Split("oi") == ["oi"] by {
      assert RunEnd(NotSpace, "oi", 0) == 2;
      assert "oi"[0..2] == "oi";
    }
    assert Capitalize("oi") == "Oi";
  }

  lemma OiCandidates()
    ensures NameCandidate(Introduction, "oi") == None
    ensures NameCandidate(BeforeAge, "oi") == None
    ensures NameCandidate(LeadingCapitalised, "oi") == None
    ensures NameCandidate(LoneCapitalised, "oi") == None
    ensures NameCandidate(AnyCapitalised, "oi") == None
  {
    OiIntro();
    OiBeforeAge();
    OiLeading();
    OiCanonical();
    OiLone();
    OiAny();
    assert Stoplist[0] == "Oi";
  }

  lemma OiName()
    ensures DetectName("oi") == None
  {
    var s := "oi";
    OiCandidates();
    var ps := NamePatterns;
    NameSkip(ps, s);
    NameSkip(ps[1..], s);
    NameSkip(ps[2..], s);
    NameSkip(ps[3..], s);
    NameSkip(ps[4..], s);
    assert ps[4..][1..] == [];
  }

  /** A greeting on its own is neither a name nor an age: "Oi" is a stop word. */
  lemma Greeting()
    ensures DetectNameAndAge("oi") == Facts(None, None)
  {
    OiName();
    NoDigitNoAge("oi");
  }

  // ---------------------------------------------------------------------------
  // "joao": a lower-case name alone

  lemma JoaoIntro()
    ensures SearchName(Introduction, "joao", 0) == None
  {
    IntroNeedsInitial("joao", 0);
    IntroNeedsInitial("joao", 1);
    IntroNeedsInitial("joao", 2);
    IntroNeedsInitial("joao", 3);
    IntroNeedsInitial("joao", 4);
  }

  lemma JoaoBeforeAge()
    ensures SearchName(BeforeAge, "joao", 0) == None
  {
    assert NameAt(BeforeAge, "joao", 0) == None;
    assert NameAt(BeforeAge, "joao", 1) == None;
    assert NameAt(BeforeAge, "joao", 2) == None;
    assert NameAt(BeforeAge, "joao", 3) == None;
    assert NameAt(BeforeAge, "joao", 4) == None;
  }

  lemma JoaoLeading()
    ensures SearchName(LeadingCapitalised, "joao", 0) == Some("joao")
  {
    var s := "joao";
    assert WordMaxEnd(Capitalised, s, 0) == 4;
    assert SpaceEnd(s, 4) == 4;
    assert SecondTry(Capitalised, s, 0, 4) == None;
    assert NameTail(s, 4);
    assert s[0..4] == s;
    assert GroupTry(Capitalised, s, 0, 4) == Some(s);
    assert NameAt(LeadingCapitalised, s, 0) == Some(s);
  }

  lemma JoaoCanonical()
    ensures CanonicalName("joao") == "Joao"
  {
    assert Strip("joao") == "joao";
    assert Split("joao") == ["joao"] by {
      assert RunEnd(NotSpace, "joao", 0) == 4;
      assert "joao"[0..4] == "joao";
    }
    assert Capitalize("joao") == "Joao";
  }

  lemma JoaoAccepted()
    ensures AcceptedName("Joao")
  {
    assert forall k :: 0 <= k < |Stoplist| ==> Stoplist[k][0] != 'J';
  }

  lemma JoaoCandidates()
    ensures NameCandidate(Introduction, "joao") == None
    ensures NameCandidate(BeforeAge, "joao") == None
  {
    JoaoIntro();
    JoaoBeforeAge();
  }

  lemma JoaoLeadingCandidate()
    ensures NameCandidate(LeadingCapitalised, "joao") == Some("Joao")
  {
    JoaoLeading();
    JoaoCanonical();
    JoaoAccepted();
  }

  /** A name typed in lower case is found by the leading-word pattern and capitalised. */
  lemma LowerCaseName()
    ensures DetectName("joao") == Some("Joao")
  {
    var s := "joao";
    JoaoCandidates();
    JoaoLeadingCandidate();
    var ps := NamePatterns;
    NameSkip(ps, s);
    NameSkip(ps[1..], s);
    NameTake(ps[2..], s);
  }

  // ---------------------------------------------------------------------------
  // "Pedro 45": a name and a bare number

  const Pedro45: string := "Pedro 45"

  lemma PedroYearsWord()
    ensures SearchAge(YearsWord, Pedro45, 0) == None
  {
    var s := Pedro45;
    forall q | 0 <= q < |s| ensures AgeAt(YearsWord, s, q).None? {
      if q == 6 {
        assert DigitEnd(s, 6) == 8;
        assert !LiteralAt(s, 8, "ano");
        assert !LiteralAt(s, 7, "ano");
      } else if q != 7 {
        DigitsNeedDigit(YearsTail, s, q);
      }
    }
    SearchSkipsFailures(YearsWord, s, 0, |s|);
    DigitsNeedDigit(YearsTail, s, |s|);
  }

  lemma PedroHaveNumber()
    ensures SearchAge(HaveNumber, Pedro45, 0) == None
  {
    var s := Pedro45;
    forall q | 0 <= q <= |s| ensures !LiteralAt(s, q, "tenho") {
      assert q < |s| ==> !CaseEq(s[q], 't');
    }
    SearchSkipsFailures(HaveNumber, s, 0, |s|);
  }

  lemma PedroTrailingNumber()
    ensures SearchAge(TrailingNumber, Pedro45, 0) == Some(45)
  {
    var s := Pedro45;
    forall q | 0 <= q < 6 ensures AgeAt(TrailingNumber, s, q).None? {
      DigitsNeedDigit(EndTail, s, q);
    }
    SearchSkipsFailures(TrailingNumber, s, 0, 6);
    PedroDigits();
  }

  lemma PedroDigits()
    ensures AgeAt(TrailingNumber, Pedro45, 6) == Some(45)
  {
    var s := Pedro45;
    assert Boundary(s, 6);
    assert DigitEnd(s, 6) == 8;
    assert SpaceEnd(s, 8) == 8;
    assert s[6..8] == "45";
    assert DigitsValue("45") == 45;
  }

  lemma PedroAge()
    ensures DetectAge(Pedro45) == Some(45)
  {
    PedroYearsWord();
    PedroHaveNumber();
    PedroTrailingNumber();
    AgeSkip(AgePatterns, Pedro45);
    AgeSkip(AgePatterns[1..], Pedro45);
    AgeTake(AgePatterns[2..], Pedro45);
  }

  lemma PedroIntro()
    ensures SearchName(Introduction, Pedro45, 0) == None
  {
    var s := Pedro45;
    forall q | 0 <= q <= |s| ensures NameAt(Introduction, s, q).None? {
      if q == 1 {
        forall j | 0 <= j < |IntroPhrases| ensures !LiteralAt(s, 1, IntroPhrases[j]) {
          var lit := IntroPhrases[j];
          assert lit[0] in "mnes" && (lit[0] == 'e' ==> lit[1] == 'u');
        }
        IntroAbsent(s, 1, 0);
      } else {
        IntroNeedsInitial(s, q);
      }
    }
    ScanNone(Introduction, s, 0);
  }

  lemma PedroBeforeAge()
    ensures SearchName(BeforeAge, Pedro45, 0) == None
  {
    var s := Pedro45;
    forall q | 0 <= q <= |s| ensures NameAt(BeforeAge, s, q).None? {
      if q < 5 {
        assert RunEnd(IsNameLetter, s, q) == 5;
        assert SpaceEnd(s, 5) == 6;
      }
    }
    ScanNone(BeforeAge, s, 0);
  }

  /** The leading capitalised word is not followed by `e`, a comma or the end. */
  lemma PedroLeading()
    ensures SearchName(LeadingCapitalised, Pedro45, 0) == None
  {
    var s := Pedro45;
    assert WordMaxEnd(Capitalised, s, 0) == 5;
    assert SpaceEnd(s, 5) == 6;
    assert WordMaxEnd(Capitalised, s, 6) == 6;
    assert SecondTry(Capitalised, s, 0, 5) == None;
    assert !NameTail(s, 5);
    forall w | 2 <= w <= 4 ensures SecondTry(Capitalised, s, 0, w) == None && !NameTail(s, w) {
      assert SpaceEnd(s, w) == w;
    }
    assert GroupTry(Capitalised, s, 0, 1) == None;
    assert GroupTry(Capitalised, s, 0, 2) == None;
    assert GroupTry(Capitalised, s, 0, 3) == None;
    assert GroupTry(Capitalised, s, 0, 4) == None;
    assert GroupTry(Capitalised, s, 0, 5) == None;
    forall q | 0 <= q <= |s| ensures NameAt(LeadingCapitalised, s, q).None? { }
    ScanNone(LeadingCapitalised, s, 0);
  }

  lemma PedroLone()
    ensures SearchName(LoneCapitalised, Pedro45, 0) == None
  {
    var s := Pedro45;
    assert SpaceEnd(s, 0) == 0;
    assert RunEnd(IsTailLetter, s, 1) == 5;
    assert SpaceEnd(s, 5) == 6;
    forall q | 0 <= q <= |s| ensures NameAt(LoneCapitalised, s, q).None? { }
    ScanNone(LoneCapitalised, s, 0);
  }

  lemma PedroAny()
    ensures SearchName(AnyCapitalised, Pedro45, 0) == Some("Pedro")
  {
    var s := Pedro45;
    assert RunEnd(IsTailLetter, s, 1) == 5;
    assert Boundary(s, 5);
    assert s[0..5] == "Pedro";
  }

  lemma PedroCanonical()
    ensures CanonicalName("Pedro") == "Pedro"
  {
    assert Strip("Pedro") == "Pedro";
    assert Split("Pedro") == ["Pedro"] by {
      assert RunEnd(NotSpace, "Pedro", 0) == 5;
      assert "Pedro"[0..5] == "Pedro";
    }
    assert Capitalize("Pedro") == "Pedro";
  }

  lemma PedroAccepted()
    ensures AcceptedName("Pedro")
  {
    assert forall k :: 0 <= k < |Stoplist| ==> Stoplist[k][0] != 'P';
  }

  lemma PedroCandidates()
    ensures NameCandidate(Introduction, Pedro45) == None
    ensures NameCandidate(BeforeAge, Pedro45) == None
    ensures NameCandidate(LeadingCapitalised, Pedro45) == None
    ensures NameCandidate(LoneCapitalised, Pedro45) == None
  {
    PedroIntro();
    PedroBeforeAge();
    PedroLeading();
    PedroLone();
  }

  lemma PedroAnyCandidate()
    ensures NameCandidate(AnyCapitalised, Pedro45) == Some("Pedro")
  {
    PedroAny();
    PedroCanonical();
    PedroAccepted();
  }

  lemma PedroName()
    ensures DetectName(Pedro45) == Some("Pedro")
  {
    var s := Pedro45;
    PedroCandidates();
    PedroAnyCandidate();
    var ps := NamePatterns;
    NameSkip(ps, s);
    NameSkip(ps[1..], s);
    NameSkip(ps[2..], s);
    NameSkip(ps[3..], s);
    NameTake(ps[4..], s);
  }

  /**
   * A name followed by a bare number: no pattern tied to the phrasing
   * applies, and the fallbacks find the capitalised word and the trailing number.
   */
  lemma NameAndBareNumber()
    ensures DetectNameAndAge(Pedro45) == Facts(Some("Pedro"), Some(45))
  {
    PedroName();
    PedroAge();
  }

  // ---------------------------------------------------------------------------
  // "Meu nome é João e tenho 25 anos": the introduction phrase and the years word

  const Intro25: string := "Meu nome é João e tenho 25 anos"

  /** A literal is found wherever the message's slice lower-cases to the literal's lower case. */
  lemma {:induction false} LiteralPresent(s: string, i: nat, lit: string, k: nat)
    requires i + |lit| <= |s| && k <= |lit|
    requires Lower(s[i..i + |lit|]) == Lower(lit)
    ensures LiteralFrom(s, i, lit, k)
    decreases |lit| - k
  {
    if k < |lit| {
      assert Lower(s[i..i + |lit|])[k] == Lower(lit)[k];
      assert s[i..i + |lit|][k] == s[i + k];
      LiteralPresent(s, i, lit, k + 1);
    }
  }

  lemma IntroSecondWord()
    ensures SecondTry(Plain, Intro25, 11, 15) == None
  {
    var s := Intro25;
    assert IsSpace(s[15]) && !IsSpace(s[16]) && IsNameLetter(s[16]);
    assert SpaceEnd(s, 15) == 16;
    assert IsSpace(s[17]) && !IsNameLetter(s[17]) && !IsSpace(s[18]);
    assert WordMaxEnd(Plain, s, 16) == 17;
    assert SpaceEnd(s, 17) == 18;
    assert !CaseEq(s[18], 'e') && s[18] != ',';
    assert !NameTail(s, 17);
  }

  lemma IntroFirstWord()
    ensures WordMaxEnd(Plain, Intro25, 11) == 15 && NameTail(Intro25, 15)
  {
    var s := Intro25;
    assert IsNameLetter(s[11]) && IsNameLetter(s[12]) && IsNameLetter(s[13]) && IsNameLetter(s[14]);
    assert !IsNameLetter(s[15]);
    assert IsSpace(s[15]) && !IsSpace(s[16]);
    assert SpaceEnd(s, 15) == 16;
    assert CaseEq(s[16], 'e') && IsSpace(s[17]);
  }

  lemma IntroWordText()
    ensures Intro25[11..15] == "João"
  {
    var w := Intro25[11..15];
    assert w[0] == 'J' && w[1] == 'o' && w[2] == 'ã' && w[3] == 'o';
  }

  /** The group after "meu nome é" is the one word "João": "e tenho" does not end a second word. */
  lemma IntroGroup()
    ensures IntroRest(Intro25, 10) == Some("João")
  {
    var s := Intro25;
    assert SpaceEnd(s, 10) == 11;
    IntroSecondWord();
    IntroFirstWord();
    IntroWordText();
  }

  lemma IntroPhraseText()
    ensures Lower(Intro25[0..10]) == Lower(IntroPhrases[1])
  {
    assert Intro25[0..10] == "Meu nome é";
    assert IntroPhrases[1] == "meu nome é";
    assert Lower("Meu nome é") == "meu nome é";
    assert Lower("meu nome é") == "meu nome é";
  }

  lemma IntroPhraseMatch()
    ensures !LiteralAt(Intro25, 0, IntroPhrases[0]) && LiteralAt(Intro25, 0, IntroPhrases[1])
    ensures |IntroPhrases[1]| == 10
  {
    var s := Intro25;
    assert IntroPhrases[0] == "me chamo" && !CaseEq(s[2], ' ');
    IntroPhraseText();
    LiteralPresent(s, 0, IntroPhrases[1], 0);
  }

  lemma IntroPhraseFound()
    ensures SearchName(Introduction, Intro25, 0) == Some("João")
  {
    var s := Intro25;
    IntroPhraseMatch();
    IntroGroup();
    IntroTake(s, 0, 1, "João");
    IntroSkip(s, 0, 0);
    assert NameAt(Introduction, s, 0) == Some("João");
  }

  lemma JoaoAccentCanonical()
    ensures CanonicalName("João") == "João"
  {
    assert Strip("João") == "João";
    assert Split("João") == ["João"] by {
      assert RunEnd(NotSpace, "João", 0) == 4;
      assert "João"[0..4] == "João";
    }
    assert Lower("oão") == "oão";
    assert Capitalize("João") == "João";
  }

  lemma JoaoAccentAccepted()
    ensures AcceptedName("João")
  {
    assert forall k :: 0 <= k < |Stoplist| ==> Stoplist[k][0] != 'J';
  }

  lemma IntroName()
    ensures DetectName(Intro25) == Some("João")
  {
    IntroPhraseFound();
    JoaoAccentCanonical();
    JoaoAccentAccepted();
    NameTake(NamePatterns, Intro25);
  }

  /** Before position 24 there is no digit, so no years word starts there. */
  lemma IntroYearsSkip()
    ensures SearchAge(YearsWord, Intro25, 0) == SearchAge(YearsWord, Intro25, 24)
  {
    var s := Intro25;
    var pre := "Meu nome é João e tenho ";
    assert s[..24] == pre;
    assert forall k :: 0 <= k < |pre| ==> !IsDigit(pre[k]);
    forall q | 0 <= q < 24 ensures AgeAt(YearsWord, s, q).None? {
      assert s[q] == pre[q];
      DigitsNeedDigit(YearsTail, s, q);
    }
    SearchSkipsFailures(YearsWord, s, 0, 24);
  }

  lemma IntroYearsTail()
    ensures AgeTailAt(YearsTail, Intro25, 26)
  {
    var s := Intro25;
    assert IsSpace(s[26]) && !IsSpace(s[27]);
    assert SpaceEnd(s, 26) == 27;
    assert Lower(s[27..30]) == Lower("ano") by {
      assert s[27..30] == "ano";
    }
    LiteralPresent(s, 27, "ano", 0);
    assert CaseEq(s[30], 's') && Boundary(s, 31);
  }

  lemma IntroYears()
    ensures AgeAt(YearsWord, Intro25, 24) == Some(25)
  {
    var s := Intro25;
    assert Boundary(s, 24);
    assert IsDigit(s[24]) && IsDigit(s[25]) && !IsDigit(s[26]);
    assert DigitEnd(s, 24) == 26;
    IntroYearsTail();
    assert s[24..26] == "25";
    assert DigitsValue("25") == 25;
  }

  lemma IntroAge()
    ensures DetectAge(Intro25) == Some(25)
  {
    IntroYearsSkip();
    IntroYears();
    assert AgePatterns[0] == YearsWord;
  }

  /** The first example of `detect_name_and_age`'s documentation. */
  lemma IntroductionAndYears()
    ensures DetectNameAndAge(Intro25) == Facts(Some("João"), Some(25))
  {
    IntroName();
    IntroAge();
  }

  // ---------------------------------------------------------------------------
  // "Ele pousou aqui": an introduction phrase inside a word

  const Pousou: string := "Ele pousou aqui"

  /** No introduction phrase starts before the "sou" inside "pousou". */
  lemma PousouEarly(q: nat)
    requires q < 7
    ensures NameAt(Introduction, Pousou, q).None?
  {
    var s := Pousou;
    if q == 0 || q == 2 {
      assert !CaseEq(s[q + 1], 'u');
      forall j | 0 <= j < |IntroPhrases| ensures !LiteralAt(s, q, IntroPhrases[j]) {
        var lit := IntroPhrases[j];
        assert lit[0] in "mnes" && (lit[0] == 'e' ==> lit[1] == 'u');
      }
      IntroAbsent(s, q, 0);
    } else {
      assert !(CaseEq(s[q], 'm') || CaseEq(s[q], 'n') || CaseEq(s[q], 'e') || CaseEq(s[q], 's'));
      IntroNeedsInitial(s, q);
    }
  }

  /** After "sou" the group is "aqui", ended by the end of the message. */
  lemma PousouGroup()
    ensures IntroRest(Pousou, 10) == Some("aqui")
  {
    var s := Pousou;
    assert IsSpace(s[10]) && !IsSpace(s[11]);
    assert SpaceEnd(s, 10) == 11;
    assert IsNameLetter(s[11]) && IsNameLetter(s[12]) && IsNameLetter(s[13]) && IsNameLetter(s[14]);
    assert WordMaxEnd(Plain, s, 11) == 15;
    assert SpaceEnd(s, 15) == 15;
    assert SecondTry(Plain, s, 11, 15) == None;
    assert NameTail(s, 15);
    assert s[11..15] == "aqui";
  }

  /** "sou o" and "sou a" are tried first; "sou a" is present but no space follows it. */
  lemma PousouPhrases()
    ensures IntroTry(Pousou, 7, 5) == Some("aqui")
  {
    var s := Pousou;
    assert IntroPhrases[5] == "sou o" && IntroPhrases[6] == "sou a" && IntroPhrases[7] == "sou";
    assert !CaseEq(s[11], 'o');
    assert !LiteralAt(s, 7, IntroPhrases[5]);
    assert Lower(s[7..12]) == Lower("sou a") by {
      assert s[7..12] == "sou a";
    }
    LiteralPresent(s, 7, "sou a", 0);
    assert SpaceEnd(s, 12) == 12;
    assert IntroRest(s, 12) == None;
    assert Lower(s[7..10]) == Lower("sou") by {
      assert s[7..10] == "sou";
    }
    LiteralPresent(s, 7, "sou", 0);
    PousouGroup();
  }

  /** The first five phrases begin with m, n or e, and position 7 holds an s. */
  lemma PousouEarlyPhrases()
    ensures forall j :: 0 <= j < 5 ==> !LiteralAt(Pousou, 7, IntroPhrases[j])
  {
    var s := Pousou;
    forall j | 0 <= j < 5 ensures !LiteralAt(s, 7, IntroPhrases[j]) {
      var lit := IntroPhrases[j];
      assert lit[0] in "mne";
    }
  }

  lemma PousouAt()
    ensures NameAt(Introduction, Pousou, 7) == Some("aqui")
  {
    var s := Pousou;
    PousouEarlyPhrases();
    PousouPhrases();
    IntroSkip(s, 7, 4);
    IntroSkip(s, 7, 3);
    IntroSkip(s, 7, 2);
    IntroSkip(s, 7, 1);
    IntroSkip(s, 7, 0);
  }

  lemma PousouSearch()
    ensures SearchName(Introduction, Pousou, 0) == Some("aqui")
  {
    var s := Pousou;
    PousouEarly(0);
    PousouEarly(1);
    PousouEarly(2);
    PousouEarly(3);
    PousouEarly(4);
    PousouEarly(5);
    PousouEarly(6);
    SearchNameStep(Introduction, s, 0);
    SearchNameStep(Introduction, s, 1);
    SearchNameStep(Introduction, s, 2);
    SearchNameStep(Introduction, s, 3);
    SearchNameStep(Introduction, s, 4);
    SearchNameStep(Introduction, s, 5);
    SearchNameStep(Introduction, s, 6);
    PousouAt();
  }

  lemma AquiCanonical()
    ensures CanonicalName("aqui") == "Aqui"
  {
    assert Strip("aqui") == "aqui";
    assert Split("aqui") == ["aqui"] by {
      assert RunEnd(NotSpace, "aqui", 0) == 4;
      assert "aqui"[0..4] == "aqui";
    }
    assert Capitalize("aqui") == "Aqui";
  }

  lemma AquiAccepted()
    ensures AcceptedName("Aqui")
  {
    assert forall k :: 0 <= k < |Stoplist| ==> |Stoplist[k]| < 2 || Stoplist[k][1] != 'q';
  }

  /**
   * The introduction pattern has no word boundary before its phrase: the
   * "sou" inside "pousou" introduces the following word as the user's name.
   */
  lemma PhraseInsideWord()
    ensures DetectName(Pousou) == Some("Aqui")
  {
    PousouSearch();
    AquiCanonical();
    AquiAccepted();
    NameTake(NamePatterns, Pousou);
  }

  // ---------------------------------------------------------------------------
  // "João, 25 anos": a leading name ended by a comma

  const Comma25: string := "João, 25 anos"

  lemma CommaNoIntro(q: nat)
    requires q <= |Comma25|
    ensures NameAt(Introduction, Comma25, q).None?
  {
    var s := Comma25;
    if q == 10 || q == 12 {
      assert q == 10 ==> !CaseEq(s[12], 'm');
      forall j | 0 <= j < |IntroPhrases| ensures !LiteralAt(s, q, IntroPhrases[j]) {
        var lit := IntroPhrases[j];
        assert lit[0] in "mnes" && |lit| >= 3 && (lit[0] == 'n' ==> lit[2] == 'm');
      }
      IntroAbsent(s, q, 0);
    } else {
      assert q < |s| ==> !(CaseEq(s[q], 'm') || CaseEq(s[q], 'n') || CaseEq(s[q], 'e') || CaseEq(s[q], 's'));
      IntroNeedsInitial(s, q);
    }
  }

  lemma CommaIntro()
    ensures SearchName(Introduction, Comma25, 0) == None
  {
    forall q | 0 <= q <= |Comma25| ensures NameAt(Introduction, Comma25, q).None? {
      CommaNoIntro(q);
    }
    ScanNone(Introduction, Comma25, 0);
  }

  /** Neither "João" nor "anos" is followed by a space. */
  lemma CommaBeforeAge()
    ensures SearchName(BeforeAge, Comma25, 0) == None
  {
    var s := Comma25;
    forall q | 0 <= q <= |s| ensures NameAt(BeforeAge, s, q).None? {
      if q < 4 {
        assert RunEnd(IsNameLetter, s, q) == 4;
        assert SpaceEnd(s, 4) == 4;
      } else if 9 <= q < 13 {
        assert RunEnd(IsNameLetter, s, q) == 13;
      } else if q < 13 {
        assert !IsNameLetter(s[q]);
      }
    }
    ScanNone(BeforeAge, s, 0);
  }

  lemma CommaLeading()
    ensures SearchName(LeadingCapitalised, Comma25, 0) == Some("João")
  {
    var s := Comma25;
    assert IsTailLetter(s[1]) && IsTailLetter(s[2]) && IsTailLetter(s[3]) && !IsTailLetter(s[4]);
    assert WordMaxEnd(Capitalised, s, 0) == 4;
    assert SpaceEnd(s, 4) == 4;
    assert SecondTry(Capitalised, s, 0, 4) == None;
    assert NameTail(s, 4);
    assert s[0..4] == "João";
    assert GroupTry(Capitalised, s, 0, 4) == Some("João");
  }

  lemma CommaName()
    ensures DetectName(Comma25) == Some("João")
  {
    var s := Comma25;
    CommaIntro();
    CommaBeforeAge();
    CommaLeading();
    JoaoAccentCanonical();
    JoaoAccentAccepted();
    var ps := NamePatterns;
    NameSkip(ps, s);
    NameSkip(ps[1..], s);
    NameTake(ps[2..], s);
  }

  lemma CommaYearsTail()
    ensures AgeTailAt(YearsTail, Comma25, 8)
  {
    var s := Comma25;
    assert IsSpace(s[8]) && !IsSpace(s[9]);
    assert SpaceEnd(s, 8) == 9;
    assert Lower(s[9..12]) == Lower("ano") by {
      assert s[9..12] == "ano";
    }
    LiteralPresent(s, 9, "ano", 0);
    assert CaseEq(s[12], 's') && Boundary(s, 13);
  }

  lemma CommaYears()
    ensures SearchAge(YearsWord, Comma25, 0) == Some(25)
  {
    var s := Comma25;
    forall q | 0 <= q < 6 ensures AgeAt(YearsWord, s, q).None? {
      assert !IsDigit(s[q]);
      DigitsNeedDigit(YearsTail, s, q);
    }
    SearchSkipsFailures(YearsWord, s, 0, 6);
    CommaYearsAt();
  }

  lemma CommaYearsAt()
    ensures AgeAt(YearsWord, Comma25, 6) == Some(25)
  {
    var s := Comma25;
    assert Boundary(s, 6);
    assert IsDigit(s[6]) && IsDigit(s[7]) && !IsDigit(s[8]);
    assert DigitEnd(s, 6) == 8;
    CommaYearsTail();
    assert s[6..8] == "25";
    assert DigitsValue("25") == 25;
  }

  /** The second example of `detect_name_and_age`'s documentation. */
  lemma NameCommaYears()
    ensures DetectNameAndAge(Comma25) == Facts(Some("João"), Some(25))
  {
    CommaName();
    CommaYears();
    assert AgePatterns[0] == YearsWord;
  }

  // ---------------------------------------------------------------------------
  // "Sou a Maria e tenho 30": "sou a" and "tenho"

  const Maria30: string := "Sou a Maria e tenho 30"

  lemma MariaFirstWord()
    ensures WordMaxEnd(Plain, Maria30, 6) == 11 && NameTail(Maria30, 11)
  {
    var s := Maria30;
    assert IsNameLetter(s[6]) && IsNameLetter(s[7]) && IsNameLetter(s[8]) && IsNameLetter(s[9]) && IsNameLetter(s[10]);
    assert !IsNameLetter(s[11]);
    assert IsSpace(s[11]) && !IsSpace(s[12]);
    assert SpaceEnd(s, 11) == 12;
    assert CaseEq(s[12], 'e') && IsSpace(s[13]);
  }

  lemma MariaGroup()
    ensures IntroRest(Maria30, 5) == Some("Maria")
  {
    var s := Maria30;
    assert IsSpace(s[5]) && !IsSpace(s[6]);
    assert SpaceEnd(s, 5) == 6;
    MariaFirstWord();
    MariaSecondWord();
    MariaWordText();
    assert GroupTry(Plain, s, 6, 11) == Some(s[6..11]);
  }

  lemma MariaWordText()
    ensures Maria30[6..11] == "Maria"
  {
  }

  /** "e" cannot be a second name word: what follows it is "tenho", not `e`, a comma or the end. */
  lemma MariaSecondWord()
    ensures SecondTry(Plain, Maria30, 6, 11) == None
  {
    var s := Maria30;
    assert IsSpace(s[11]) && !IsSpace(s[12]);
    assert SpaceEnd(s, 11) == 12;
    assert IsNameLetter(s[12]) && !IsNameLetter(s[13]);
    assert WordMaxEnd(Plain, s, 12) == 13;
    assert IsSpace(s[13]) && !IsSpace(s[14]);
    assert SpaceEnd(s, 13) == 14;
    assert !CaseEq(s[14], 'e') && s[14] != ',';
    assert !NameTail(s, 13);
  }

  lemma MariaPhrases()
    ensures !LiteralAt(Maria30, 0, IntroPhrases[5]) && LiteralAt(Maria30, 0, IntroPhrases[6])
  {
    var s := Maria30;
    assert IntroPhrases[5] == "sou o" && IntroPhrases[6] == "sou a";
    assert !CaseEq(s[4], 'o');
    assert Lower(s[0..5]) == Lower("sou a") by {
      assert s[0..5] == "Sou a";
      assert Lower("Sou a") == "sou a";
    }
    LiteralPresent(s, 0, "sou a", 0);
  }

  lemma MariaLatePhrases()
    ensures IntroTry(Maria30, 0, 5) == Some("Maria")
  {
    MariaPhrases();
    MariaGroup();
    assert |IntroPhrases[6]| == 5;
    assert IntroTry(Maria30, 0, 6) == Some("Maria");
  }

  lemma MariaEarlyPhrases()
    ensures forall j :: 0 <= j < 5 ==> !LiteralAt(Maria30, 0, IntroPhrases[j])
  {
    forall j | 0 <= j < 5 ensures !LiteralAt(Maria30, 0, IntroPhrases[j]) {
      var lit := IntroPhrases[j];
      assert lit[0] in "mne";
    }
  }

  lemma MariaIntro()
    ensures SearchName(Introduction, Maria30, 0) == Some("Maria")
  {
    var s := Maria30;
    MariaEarlyPhrases();
    MariaLatePhrases();
    assert IntroTry(s, 0, 4) == Some("Maria");
    assert IntroTry(s, 0, 3) == Some("Maria");
    assert IntroTry(s, 0, 2) == Some("Maria");
    assert IntroTry(s, 0, 1) == Some("Maria");
    assert NameAt(Introduction, s, 0) == Some("Maria");
  }

  lemma MariaCanonical()
    ensures CanonicalName("Maria") == "Maria"
  {
    assert Strip("Maria") == "Maria";
    assert Split("Maria") == ["Maria"] by {
      assert RunEnd(NotSpace, "Maria", 0) == 5;
      assert "Maria"[0..5] == "Maria";
    }
    assert Capitalize("Maria") == "Maria";
  }

  lemma MariaAccepted()
    ensures AcceptedName("Maria")
  {
    assert forall k :: 0 <= k < |Stoplist| ==> |Stoplist[k]| != 5 || Stoplist[k][1] != 'a';
  }

  lemma MariaName()
    ensures DetectName(Maria30) == Some("Maria")
  {
    MariaIntro();
    MariaCanonical();
    MariaAccepted();
    NameTake(NamePatterns, Maria30);
  }

  /** "30" is not followed by "ano". */
  lemma MariaYearsAt()
    ensures AgeAt(YearsWord, Maria30, 20) == None
  {
    var s := Maria30;
    assert IsDigit(s[20]) && IsDigit(s[21]);
    assert DigitEnd(s, 20) == 22;
    assert SpaceEnd(s, 22) == 22;
    assert !LiteralAt(s, 22, "ano");
    assert !IsSpace(s[21]) && SpaceEnd(s, 21) == 21;
    assert !CaseEq(s[21], 'a') && !LiteralAt(s, 21, "ano");
  }

  lemma MariaYears()
    ensures SearchAge(YearsWord, Maria30, 0) == None
  {
    var s := Maria30;
    forall q | 0 <= q < |s| ensures AgeAt(YearsWord, s, q).None? {
      if q == 20 {
        MariaYearsAt();
      } else if q == 21 {
        assert !Boundary(s, 21);
      } else {
        assert !IsDigit(s[q]);
        DigitsNeedDigit(YearsTail, s, q);
      }
    }
    SearchSkipsFailures(YearsWord, s, 0, |s|);
    DigitsNeedDigit(YearsTail, s, |s|);
  }

  lemma MariaHaveAt()
    ensures AgeAt(HaveNumber, Maria30, 14) == Some(30)
  {
    var s := Maria30;
    assert Boundary(s, 14);
    assert Lower(s[14..19]) == Lower("tenho") by {
      assert s[14..19] == "tenho";
    }
    LiteralPresent(s, 14, "tenho", 0);
    assert IsSpace(s[19]) && !IsSpace(s[20]);
    assert SpaceEnd(s, 19) == 20;
    assert IsDigit(s[20]) && IsDigit(s[21]);
    assert DigitEnd(s, 20) == 22;
    assert Boundary(s, 22);
    assert s[20..22] == "30";
    assert DigitsValue("30") == 30;
  }

  lemma MariaHave()
    ensures SearchAge(HaveNumber, Maria30, 0) == Some(30)
  {
    var s := Maria30;
    forall q | 0 <= q < 14 ensures AgeAt(HaveNumber, s, q).None? {
      assert !CaseEq(s[q], 't');
    }
    SearchSkipsFailures(HaveNumber, s, 0, 14);
    MariaHaveAt();
  }

  lemma MariaAge()
    ensures DetectAge(Maria30) == Some(30)
  {
    MariaYears();
    MariaHave();
    AgeSkip(AgePatterns, Maria30);
    AgeTake(AgePatterns[1..], Maria30);
  }

  /** The third example of `detect_name_and_age`'s documentation. */
  lemma IntroductionAndHaveNumber()
    ensures DetectNameAndAge(Maria30) == Facts(Some("Maria"), Some(30))
  {
    MariaName();
    MariaAge();
  }
}
