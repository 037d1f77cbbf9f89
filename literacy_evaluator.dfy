/**
 * The word-list reading test of `services/literacy_evaluator.py`: the words a
 * learner reads aloud are counted against the words shown, and the hit rate is
 * classified into one of three literacy levels.
 *
 * The hit rate is a Python float; here it is an exact `real`.
 */
module LiteracyEvaluator {
  import opened Text

  const Iniciante: string := "iniciante"
  const Intermediario: string := "intermediário"
  const Avancado: string := "avançado"

  /** The order of the levels: iniciante < intermediário < avançado. */
  function LevelRank(nivel: string): nat {
    if nivel == Avancado then 2 else if nivel == Intermediario then 1 else 0
  }

  /** `_classify_level`: at least 80 is advanced, at least 50 intermediate, anything else a beginner. */
  function ClassifyLevel(taxa: real): (nivel: string)
    ensures nivel in {Iniciante, Intermediario, Avancado}
    ensures nivel == Avancado <==> taxa >= 80.0
    ensures nivel == Iniciante <==> taxa < 50.0
  {
    if taxa >= 80.0 then Avancado
    else if taxa >= 50.0 then Intermediario
    else Iniciante
  }

  /** A higher hit rate never gives a lower level. */
  lemma ClassifyMonotone(a: real, b: real)
    requires a <= b
    ensures LevelRank(ClassifyLevel(a)) <= LevelRank(ClassifyLevel(b))
  {
  }

  /** The lower-cased expected words, as a set. */
  function ExpectedSet(expected: seq<string>): (e: set<string>)
    ensures forall w :: w in expected ==> Lower(w) in e
    ensures forall x :: x in e ==> exists w :: w in expected && x == Lower(w)
  {
    set w | w in expected :: Lower(w)
  }

  /** `sum(1 for word in words if word in expected)`: the tokens that hit, counted with repetition. */
  function CountHits(words: seq<string>, expected: set<string>): (n: nat)
    ensures n <= |words|
  {
    if words == [] then 0
    else CountHits(words[..|words| - 1], expected) + (if words[|words| - 1] in expected then 1 else 0)
  }

  /** The positions of the tokens that hit. */
  function HitPositions(words: seq<string>, expected: set<string>): set<nat> {
    set i: nat | i < |words| && words[i] in expected
  }

  /** The count is the number of hitting positions. */
  lemma {:induction false} CountHitsIsPositionCount(words: seq<string>, expected: set<string>)
    ensures CountHits(words, expected) == |HitPositions(words, expected)|
  {
    if words != [] {
      var n := |words| - 1;
      var init := words[..n];
      CountHitsIsPositionCount(init, expected);
      var before := HitPositions(init, expected);
      assert HitPositions(words, expected) == before + (if words[n] in expected then {n} else {}) by {
        forall i: nat | i < n ensures words[i] == init[i] { }
      }
      assert n !in before;
    }
  }

  /** `acertos / total * 100`, or 0 for an empty test. */
  function HitRate(acertos: nat, total: nat): (r: real)
    ensures total == 0 ==> r == 0.0
    ensures total > 0 ==> r * total as real == acertos as real * 100.0
    ensures r >= 0.0
    ensures acertos <= total ==> r <= 100.0
    ensures r == 100.0 <==> total > 0 && acertos == total
  {
    if total > 0 then acertos as real / total as real * 100.0 else 0.0
  }

  /** More hits on a test of the same size never give a lower rate. */
  lemma HitRateMonotone(a1: nat, a2: nat, total: nat)
    requires a1 <= a2
    ensures HitRate(a1, total) <= HitRate(a2, total)
  {
    if total > 0 {
      var k := 100.0 / total as real;
      assert HitRate(a2, total) - HitRate(a1, total) == (a2 as real - a1 as real) * k;
      NonnegativeProduct(a2 as real - a1 as real, k);
    }
  }

  lemma NonnegativeProduct(x: real, y: real)
    requires x >= 0.0 && y >= 0.0
    ensures x * y >= 0.0
  {
  }

  /** The result dictionary of `analyze_reading_level`. */
  datatype Evaluation = Evaluation(nivel: string, acertos: nat, total: nat, taxaAcerto: real)

  /** The lower-cased whitespace tokens of the response. */
  function ResponseTokens(response: string): seq<string> {
    Split(Lower(response))
  }

  /**
   * `analyze_reading_level`: the hits are the response tokens (with repetition)
   * that are among the expected words, compared in lower case.
   */
  function AnalyzeReadingLevel(response: string, expected: seq<string>): (e: Evaluation)
    ensures e.acertos == |HitPositions(ResponseTokens(response), ExpectedSet(expected))|
    ensures e.acertos <= |ResponseTokens(response)|
    ensures e.total == |expected|
    ensures e.taxaAcerto == HitRate(e.acertos, e.total)
    ensures e.nivel == ClassifyLevel(e.taxaAcerto)
  {
    var words := ResponseTokens(response);
    var acertos := CountHits(words, ExpectedSet(expected));
    CountHitsIsPositionCount(words, ExpectedSet(expected));
    var total := |expected|;
    var taxa := if total > 0 then acertos as real / total as real * 100.0 else 0.0;
    Evaluation(ClassifyLevel(taxa), acertos, total, taxa)
  }

  /** On the same test, more hits never give a lower level. */
  lemma MoreHitsNoLowerLevel(r1: string, r2: string, expected: seq<string>)
    requires AnalyzeReadingLevel(r1, expected).acertos <= AnalyzeReadingLevel(r2, expected).acertos
    ensures LevelRank(AnalyzeReadingLevel(r1, expected).nivel) <= LevelRank(AnalyzeReadingLevel(r2, expected).nivel)
  {
    var e1 := AnalyzeReadingLevel(r1, expected);
    var e2 := AnalyzeReadingLevel(r2, expected);
    HitRateMonotone(e1.acertos, e2.acertos, |expected|);
    ClassifyMonotone(e1.taxaAcerto, e2.taxaAcerto);
  }

  /** The basic word list, also the one for any unknown level. */
  const Basico: seq<string> := ["CASA", "SOL", "PATO", "BOLA"]

  /**
   * `get_test_words`: `palavras.get(nivel, palavras["basico"])` over the three
   * lists; always four words, and an unknown level gives the basic list.
   */
  function GetTestWords(nivel: string): (ws: seq<string>)
    ensures |ws| == 4
    ensures nivel != "intermediario" && nivel != "avancado" ==> ws == Basico
  {
    if nivel == "intermediario" then ["ESCOLA", "CACHORRO", "BANANA", "LIVRO"]
    else if nivel == "avancado" then ["BIBLIOTECA", "COMPUTADOR", "TELEVISÃO", "BICICLETA"]
    else Basico
  }

  // ---------------------------------------------------------------------------
  // Worked examples

  lemma BasicSet()
    ensures ExpectedSet(Basico) == {"casa", "sol", "pato", "bola"}
  {
    assert Lower("CASA") == "casa";
    assert Lower("SOL") == "sol";
    assert Lower("PATO") == "pato";
    assert Lower("BOLA") == "bola";
  }

  lemma TwoWordsTokens()
    ensures ResponseTokens("casa bola") == ["casa", "bola"]
  {
    LowerTwo();
    SplitTwo();
  }

  lemma LowerTwo()
    ensures Lower("casa bola") == "casa bola"
  {
  }

  lemma SplitTwo()
    ensures Split("casa bola") == ["casa", "bola"]
  {
    var s := "casa bola";
    assert s[0..4] == "casa";
    assert s[5..9] == "bola";
  }

  /** Reading two of the four basic words is 50%, an intermediate reader. */
  lemma TwoOfFourIsIntermediate()
    ensures AnalyzeReadingLevel("casa bola", Basico) == Evaluation(Intermediario, 2, 4, 50.0)
  {
    TwoWordsTokens();
    BasicSet();
    assert CountHits(["casa", "bola"], {"casa", "sol", "pato", "bola"}) == 2;
  }

  lemma RepeatedTokens()
    ensures ResponseTokens("casa casa casa casa casa") == ["casa", "casa", "casa", "casa", "casa"]
  {
    RepeatedLower();
    RepeatedSplit();
  }

  lemma RepeatedLower()
    ensures Lower("casa casa casa casa casa") == "casa casa casa casa casa"
  {
  }

  lemma RepeatedSplit()
    ensures Split("casa casa casa casa casa") == ["casa", "casa", "casa", "casa", "casa"]
  {
    var ws := ["casa", "casa", "casa", "casa", "casa"];
    assert IsWord("casa");
    assert JoinSpace(ws) == "casa casa casa casa casa";
    SplitJoin(ws);
  }

  /**
   * Every repetition of a shown word counts: one word read five times scores
   * more hits than the test has words, a rate above 100, and the advanced level,
   * although "sol", "pato" and "bola" were never read (`RepeatedTokens`).
   */
  lemma RepetitionsCount(response: string)
    requires response == "casa casa casa casa casa"
    ensures var e := AnalyzeReadingLevel(response, Basico);
      && e.acertos == 5 && e.total == 4 && e.acertos > e.total
      && e.taxaAcerto == 125.0 && e.nivel == Avancado
  {
    var e := AnalyzeReadingLevel(response, Basico);
    RepeatedTokens();
    BasicSet();
    FiveHits();
    assert e.acertos == 5;
    assert e.taxaAcerto == 125.0 by {
      assert e.taxaAcerto * 4.0 == 500.0;
    }
  }

  lemma FiveHits()
    ensures CountHits(["casa", "casa", "casa", "casa", "casa"], {"casa", "sol", "pato", "bola"}) == 5
  {
    var e := {"casa", "sol", "pato", "bola"};
    var ws := ["casa", "casa", "casa", "casa", "casa"];
    assert "casa" in e;
    assert CountHits([], e) == 0;
    assert ws[..1][..0] == [];
    assert CountHits(ws[..1], e) == 1;
    assert ws[..2][..1] == ws[..1];
    assert CountHits(ws[..2], e) == 2;
    assert ws[..3][..2] == ws[..2];
    assert CountHits(ws[..3], e) == 3;
    assert ws[..4][..3] == ws[..3];
    assert CountHits(ws[..4], e) == 4;
    assert ws[..4] == ws[..|ws| - 1];
  }
}
