/**
 * The read-aloud exercises of `services/reading_exercises.py`: a bank of texts
 * per level, the normalisation both texts go through before they are compared,
 * the comparison itself (a word alignment, a similarity and a rating), the
 * itemised errors and the feedback message built from them.
 *
 * `difflib.SequenceMatcher` is represented by the alignment it produces: any
 * list of opcodes that tiles both word lists, whose `equal` blocks hold equal
 * words (`WellFormed`). Similarities are exact `real`s.
 */
module ReadingExercises {
  import opened Wrappers
  import opened Text

  // ---------------------------------------------------------------------------
  // The text bank (reading_exercises.py:20-94)

  datatype ReadingText = ReadingText(titulo: string, texto: string, dificuldade: nat, palavrasChave: seq<string>)

  const IniciantePlans: seq<ReadingText> := [
    ReadingText("O Sol e a Lua",
      "O sol brilha de dia. A lua brilha de noite. O sol é quente. A lua é fria.",
      1, ["sol", "lua", "dia", "noite", "quente", "fria"]),
    ReadingText("Minha Casa",
      "Eu tenho uma casa. A casa tem porta. A casa tem janela. Eu gosto da minha casa.",
      1, ["casa", "porta", "janela", "gosto"]),
    ReadingText("O Gato",
      "O gato é bonito. O gato bebe leite. O gato gosta de brincar. Eu amo meu gato.",
      1, ["gato", "bonito", "leite", "brincar", "amo"])
  ]

  const IntermediarioPlans: seq<ReadingText> := [
    ReadingText("O Dia na Escola",
      "Todos os dias eu vou para a escola. Na escola eu aprendo a ler e escrever. Minha professora é muito legal. Eu gosto de estudar com meus amigos.",
      2, ["escola", "aprendo", "ler", "escrever", "professora", "estudar", "amigos"]),
    ReadingText("Meu Final de Semana",
      "No fim de semana eu gosto de brincar. Eu jogo bola com meus amigos. Também ajudo minha mãe em casa. É muito divertido.",
      2, ["fim de semana", "brincar", "jogo", "bola", "ajudo", "mãe", "divertido"]),
    ReadingText("Meu Animal Favorito",
      "Meu animal favorito é o cachorro. Os cachorros são fiéis e brincam muito. Eles gostam de passear e correr no parque. Eu quero ter um cachorro.",
      2, ["animal", "cachorro", "fiéis", "passear", "correr", "parque"])
  ]

  const AvancadoPlans: seq<ReadingText> := [
    ReadingText("A Importância da Leitura",
      "A leitura é fundamental para o desenvolvimento pessoal. Quando lemos, aprendemos coisas novas e expandimos nossa imaginação. Os livros nos levam a lugares diferentes e nos apresentam pessoas interessantes. Por isso, devemos ler todos os dias.",
      3, ["leitura", "fundamental", "desenvolvimento", "aprendemos", "imaginação", "expandimos"]),
    ReadingText("Cuidando do Meio Ambiente",
      "É importante cuidar do meio ambiente. Podemos fazer isso reciclando o lixo, economizando água e plantando árvores. Quando cuidamos da natureza, estamos cuidando do nosso futuro e do planeta onde vivemos.",
      3, ["meio ambiente", "reciclando", "economizando", "plantando", "natureza", "futuro", "planeta"])
  ]

  /**
   * `textos_por_nivel.get(nivel, textos_por_nivel["iniciante"])`: the bank of
   * the level, the beginner bank for "iniciante" and for any unknown level.
   */
  function LevelTexts(nivel: string): (bank: seq<ReadingText>)
    ensures |bank| > 0
    ensures nivel != "intermediário" && nivel != "avançado" ==> bank == IniciantePlans
  {
    if nivel == "intermediário" then IntermediarioPlans
    else if nivel == "avançado" then AvancadoPlans
    else IniciantePlans
  }

  /** The difficulty every text of a level's bank carries. */
  function BankDifficulty(nivel: string): nat {
    if nivel == "intermediário" then 2 else if nivel == "avançado" then 3 else 1
  }

  /**
   * `get_reading_text`: the exercise number cycles through the level's bank
   * (Python's `%` with a positive divisor is never negative, so every number,
   * zero and negative ones included, picks a text).
   */
  function GetReadingText(nivel: string, exercicioNum: int): (t: ReadingText)
    ensures t in LevelTexts(nivel)
    ensures t.dificuldade == BankDifficulty(nivel)
  {
    var bank := LevelTexts(nivel);
    var index := (exercicioNum - 1) % |bank|;
    BankDifficultyHolds(nivel);
    bank[index]
  }

  lemma BankDifficultyHolds(nivel: string)
    ensures forall t :: t in LevelTexts(nivel) ==> t.dificuldade == BankDifficulty(nivel)
  {
  }

  /** Exercise n is the ((n - 1) mod size)-th text of the bank. */
  lemma GetReadingTextIndex(nivel: string, exercicioNum: int)
    ensures var bank := LevelTexts(nivel);
      GetReadingText(nivel, exercicioNum) == bank[(exercicioNum - 1) % |bank|]
  {
  }

  /** Exercise numbers one bank length apart give the same text. */
  lemma GetReadingTextPeriodic(nivel: string, exercicioNum: int)
    ensures GetReadingText(nivel, exercicioNum + |LevelTexts(nivel)|) == GetReadingText(nivel, exercicioNum)
  {
    var size := |LevelTexts(nivel)|;
    var x := exercicioNum - 1;
    assert size == 2 || size == 3;
    if size == 2 {
      assert (x + 2) % 2 == x % 2;
    } else {
      assert (x + 3) % 3 == x % 3;
    }
  }

  /** The first exercise of a level is the first text of its bank. */
  lemma FirstExercise(nivel: string)
    ensures GetReadingText(nivel, 1) == LevelTexts(nivel)[0]
  {
  }

  // ---------------------------------------------------------------------------
  // Normalisation (reading_exercises.py:148-163)

  /** `string.punctuation`: the 32 ASCII punctuation characters. */
  predicate IsPunct(c: char) {
    ('!' <= c <= '/') || (':' <= c <= '@') || ('[' <= c <= '`') || ('{' <= c <= '~')
  }

  /** The combining diacritical marks U+0300..U+036F, all of Unicode category Mn. */
  predicate IsMark(c: char) {
    '\U{300}' <= c <= '\U{36F}'
  }

  /** The characters of `s` that satisfy `p`, in order. */
  function Keep(p: char -> bool, s: string): (r: string)
    ensures |r| <= |s|
    ensures forall k :: 0 <= k < |r| ==> p(r[k]) && r[k] in s
  {
    if s == [] then []
    else
      var rest := Keep(p, s[..|s| - 1]);
      if p(s[|s| - 1]) then rest + [s[|s| - 1]] else rest
  }

  /** Keeping characters that all satisfy `p` keeps the whole string. */
  lemma {:induction false} KeepAll(p: char -> bool, s: string)
    requires forall k :: 0 <= k < |s| ==> p(s[k])
    ensures Keep(p, s) == s
  {
    if s != [] {
      KeepAll(p, s[..|s| - 1]);
      assert s[..|s| - 1] + [s[|s| - 1]] == s;
    }
  }

  predicate NotPunct(c: char) {
    !IsPunct(c)
  }

  predicate NotMark(c: char) {
    !IsMark(c)
  }

  /** `text.translate(str.maketrans('', '', string.punctuation))`. */
  function RemovePunct(s: string): string {
    Keep(NotPunct, s)
  }

  /**
   * The canonical decomposition (NFD) of one character within Latin-1: the
   * accented letters become their base letter followed by a combining mark;
   * every other character is its own decomposition.
   */
  function Decompose(c: char): (d: string)
    ensures |d| == 1 || |d| == 2
    ensures |d| == 1 ==> d[0] == c
    ensures |d| == 2 ==> IsAsciiLetter(d[0]) && IsMark(d[1]) && ('\U{C0}' <= c <= '\U{FF}')
    ensures |d| == 2 ==> (IsUpper(d[0]) <==> IsUpper(c))
  {
    match c
    case 'À' => "A\U{300}"  case 'Á' => "A\U{301}"  case 'Â' => "A\U{302}"  case 'Ã' => "A\U{303}"
    case 'Ä' => "A\U{308}"  case 'Å' => "A\U{30A}"  case 'Ç' => "C\U{327}"
    case 'È' => "E\U{300}"  case 'É' => "E\U{301}"  case 'Ê' => "E\U{302}"  case 'Ë' => "E\U{308}"
    case 'Ì' => "I\U{300}"  case 'Í' => "I\U{301}"  case 'Î' => "I\U{302}"  case 'Ï' => "I\U{308}"
    case 'Ñ' => "N\U{303}"
    case 'Ò' => "O\U{300}"  case 'Ó' => "O\U{301}"  case 'Ô' => "O\U{302}"  case 'Õ' => "O\U{303}"
    case 'Ö' => "O\U{308}"
    case 'Ù' => "U\U{300}"  case 'Ú' => "U\U{301}"  case 'Û' => "U\U{302}"  case 'Ü' => "U\U{308}"
    case 'Ý' => "Y\U{301}"
    case 'à' => "a\U{300}"  case 'á' => "a\U{301}"  case 'â' => "a\U{302}"  case 'ã' => "a\U{303}"
    case 'ä' => "a\U{308}"  case 'å' => "a\U{30A}"  case 'ç' => "c\U{327}"
    case 'è' => "e\U{300}"  case 'é' => "e\U{301}"  case 'ê' => "e\U{302}"  case 'ë' => "e\U{308}"
    case 'ì' => "i\U{300}"  case 'í' => "i\U{301}"  case 'î' => "i\U{302}"  case 'ï' => "i\U{308}"
    case 'ñ' => "n\U{303}"
    case 'ò' => "o\U{300}"  case 'ó' => "o\U{301}"  case 'ô' => "o\U{302}"  case 'õ' => "o\U{303}"
    case 'ö' => "o\U{308}"
    case 'ù' => "u\U{300}"  case 'ú' => "u\U{301}"  case 'û' => "u\U{302}"  case 'ü' => "u\U{308}"
    case 'ý' => "y\U{301}"  case 'ÿ' => "y\U{308}"
    case _ => [c]
  }

  /** A character that decomposes to itself. */
  predicate IsComposedFree(c: char) {
    Decompose(c) == [c]
  }

  /** `unicodedata.normalize('NFD', s)`, character by character. */
  function Nfd(s: string): (r: string)
    ensures forall k :: 0 <= k < |r| ==> (IsMark(r[k]) || IsComposedFree(r[k]))
  {
    if s == [] then []
    else
      var rest := Nfd(s[..|s| - 1]);
      var d := Decompose(s[|s| - 1]);
      assert forall k :: 0 <= k < |d| ==> IsMark(d[k]) || IsComposedFree(d[k]);
      rest + d
  }

  lemma DecomposeKeeps(c: char)
    requires NotPunct(c) && !IsUpper(c)
    ensures forall k :: 0 <= k < |Decompose(c)| ==> NotPunct(Decompose(c)[k]) && !IsUpper(Decompose(c)[k])
  {
  }

  lemma ConcatKeeps(x: string, y: string)
    requires forall k :: 0 <= k < |x| ==> NotPunct(x[k]) && !IsUpper(x[k])
    requires forall k :: 0 <= k < |y| ==> NotPunct(y[k]) && !IsUpper(y[k])
    ensures forall k :: 0 <= k < |x + y| ==> NotPunct((x + y)[k]) && !IsUpper((x + y)[k])
  {
    forall k | 0 <= k < |x + y| ensures NotPunct((x + y)[k]) && !IsUpper((x + y)[k]) {
      if k >= |x| {
        assert (x + y)[k] == y[k - |x|];
      }
    }
  }

  /** Decomposition neither creates punctuation nor upper case. */
  lemma {:induction false} NfdKeeps(s: string)
    requires forall k :: 0 <= k < |s| ==> NotPunct(s[k]) && !IsUpper(s[k])
    ensures forall k :: 0 <= k < |Nfd(s)| ==> NotPunct(Nfd(s)[k]) && !IsUpper(Nfd(s)[k])
  {
    if s != [] {
      NfdKeeps(s[..|s| - 1]);
      var rest := Nfd(s[..|s| - 1]);
      var d := Decompose(s[|s| - 1]);
      DecomposeKeeps(s[|s| - 1]);
      assert Nfd(s) == rest + d;
      ConcatKeeps(rest, d);
    }
  }

  /** A string already in decomposed form decomposes to itself. */
  lemma {:induction false} NfdOfDecomposed(s: string)
    requires forall k :: 0 <= k < |s| ==> IsComposedFree(s[k])
    ensures Nfd(s) == s
  {
    if s != [] {
      NfdOfDecomposed(s[..|s| - 1]);
      assert Decompose(s[|s| - 1]) == [s[|s| - 1]];
      assert s[..|s| - 1] + [s[|s| - 1]] == s;
    }
  }

  /** `''.join(c for c in s if unicodedata.category(c) != 'Mn')`. */
  function RemoveMarks(s: string): string {
    Keep(NotMark, s)
  }

  /** What a normalised text is made of. */
  predicate NormalChar(c: char) {
    NotPunct(c) && !IsUpper(c) && NotMark(c) && IsComposedFree(c)
  }

  /** No punctuation, no upper case, no accents, and whitespace only as single spaces between words. */
  predicate IsNormal(s: string) {
    (forall k :: 0 <= k < |s| ==> NormalChar(s[k])) && SpacesCollapsed(s)
  }

  /** The steps before the whitespace is collapsed. */
  function Unaccented(text: string): string {
    RemoveMarks(Nfd(Lower(RemovePunct(text))))
  }

  /** `_normalize_text`: the result is in normal form. */
  function Normalize(text: string): (r: string)
    ensures IsNormal(r)
  {
    var t := Unaccented(text);
    UnaccentedNormal(text);
    SplitFromKeeps(NormalChar, t, 0);
    JoinSpaceKeeps(NormalChar, Split(t));
    CollapseSpaces(t);
    JoinSpace(Split(t))
  }

  lemma UnaccentedNormal(text: string)
    ensures forall k :: 0 <= k < |Unaccented(text)| ==> NormalChar(Unaccented(text)[k])
  {
    var p := RemovePunct(text);
    var l := Lower(p);
    assert forall k :: 0 <= k < |l| ==> NotPunct(l[k]) && !IsUpper(l[k]) by {
      forall k | 0 <= k < |l| ensures NotPunct(l[k]) && !IsUpper(l[k]) {
        assert l[k] == LowerChar(p[k]);
        assert !IsPunct(p[k]);
      }
    }
    NfdKeeps(l);
  }

  /** Normalising a normalised text changes nothing. */
  lemma NormalizeIdempotent(text: string)
    ensures Normalize(Normalize(text)) == Normalize(text)
  {
    NormalIsFixed(Normalize(text));
  }

  /** A text in normal form is its own normalisation. */
  lemma NormalIsFixed(s: string)
    requires IsNormal(s)
    ensures Normalize(s) == s
  {
    KeepAll(NotPunct, s);
    assert Lower(s) == s;
    NfdOfDecomposed(s);
    KeepAll(NotMark, s);
    assert Unaccented(s) == s;
    SplitOfCollapsed(s);
  }

  /** A string with collapsed whitespace is the join of its words. */
  lemma SplitOfCollapsed(s: string)
    requires SpacesCollapsed(s)
    ensures JoinSpace(Split(s)) == s
  {
    if s != [] {
      SplitFromCollapsed(s, 0);
    }
  }

  lemma {:induction false} SplitFromCollapsed(s: string, i: nat)
    requires SpacesCollapsed(s)
    requires i < |s| && !IsSpace(s[i])
    ensures JoinSpace(SplitFrom(s, i)) == s[i..]
    decreases |s| - i
  {
    var j := RunEnd(NotSpace, s, i);
    if j == |s| {
      assert SplitFrom(s, j) == [];
    } else {
      assert s[j] == ' ' && j + 1 < |s| && !IsSpace(s[j + 1]);
      assert SplitFrom(s, j) == SplitFrom(s, j + 1);
      SplitFromCollapsed(s, j + 1);
      SplitFromNonEmpty(s, j + 1);
      assert s[i..] == s[i..j] + " " + s[j + 1..];
    }
  }

  lemma SplitFromNonEmpty(s: string, i: nat)
    requires i < |s| && !IsSpace(s[i])
    ensures SplitFrom(s, i) != []
  {
  }

  // ---------------------------------------------------------------------------
  // The word alignment of difflib.SequenceMatcher

  datatype Tag = Equal | Replace | Delete | Insert

  /** `(tag, i1, i2, j1, j2)`: the block a[i1:i2] of the expected words against b[j1:j2] of the words read. */
  datatype Opcode = Opcode(tag: Tag, i1: nat, i2: nat, j1: nat, j2: nat)

  /** One block of an alignment: in bounds, with the shape its tag demands. */
  predicate ValidOp(op: Opcode, a: seq<string>, b: seq<string>) {
    && op.i1 <= op.i2 <= |a| && op.j1 <= op.j2 <= |b|
    && match op.tag
       case Equal => op.i2 - op.i1 == op.j2 - op.j1 > 0 && a[op.i1..op.i2] == b[op.j1..op.j2]
       case Replace => op.i2 > op.i1 && op.j2 > op.j1
       case Delete => op.i2 > op.i1 && op.j2 == op.j1
       case Insert => op.i2 == op.i1 && op.j2 > op.j1
  }

  /**
   * What `get_opcodes()` returns: consecutive blocks that tile both lists from
   * the start to the end (no blocks at all for two empty lists).
   */
  predicate WellFormed(ops: seq<Opcode>, a: seq<string>, b: seq<string>) {
    && (ops == [] ==> |a| == 0 && |b| == 0)
    && (ops != [] ==> ops[0].i1 == 0 && ops[0].j1 == 0 && ops[|ops| - 1].i2 == |a| && ops[|ops| - 1].j2 == |b|)
    && (forall k :: 0 <= k < |ops| ==> ValidOp(ops[k], a, b))
    && (forall k :: 0 <= k < |ops| - 1 ==> ops[k].i2 == ops[k + 1].i1 && ops[k].j2 == ops[k + 1].j1)
  }

  /** The alignment of a list with itself: one `equal` block. */
  function IdentityOps(a: seq<string>): (ops: seq<Opcode>)
    ensures WellFormed(ops, a, a)
  {
    if a == [] then [] else [Opcode(Equal, 0, |a|, 0, |a|)]
  }

  /** The number of matched words: the total size of the `equal` blocks. */
  function Matches(ops: seq<Opcode>): nat {
    if ops == [] then 0
    else
      var op := ops[|ops| - 1];
      Matches(ops[..|ops| - 1]) + (if op.tag == Equal && op.i1 <= op.i2 then op.i2 - op.i1 else 0)
  }

  /** `SequenceMatcher.ratio() * 100`: twice the matched words over both lengths, as a percentage. */
  function Similarity(ops: seq<Opcode>, a: seq<string>, b: seq<string>): real {
    if |a| + |b| == 0 then 100.0 else 200.0 * Matches(ops) as real / (|a| + |b|) as real
  }

  /** The blocks before block k reach, in both lists, exactly where block k starts. */
  lemma {:induction false} PrefixMatchesBound(ops: seq<Opcode>, a: seq<string>, b: seq<string>, k: nat)
    requires WellFormed(ops, a, b) && 0 < k <= |ops|
    ensures Matches(ops[..k]) <= ops[k - 1].i2 && Matches(ops[..k]) <= ops[k - 1].j2
  {
    var op := ops[k - 1];
    assert ops[..k][..k - 1] == ops[..k - 1];
    if k > 1 {
      PrefixMatchesBound(ops, a, b, k - 1);
    } else {
      assert ops[..0] == [];
    }
    assert ValidOp(op, a, b);
  }

  /** The matched words number at most the length of either list. */
  lemma MatchesBound(ops: seq<Opcode>, a: seq<string>, b: seq<string>)
    requires WellFormed(ops, a, b)
    ensures Matches(ops) <= |a| && Matches(ops) <= |b|
  {
    if ops != [] {
      PrefixMatchesBound(ops, a, b, |ops|);
      assert ops[..|ops|] == ops;
    }
  }

  /** The similarity is a percentage. */
  lemma SimilarityBounds(ops: seq<Opcode>, a: seq<string>, b: seq<string>)
    requires WellFormed(ops, a, b)
    ensures 0.0 <= Similarity(ops, a, b) <= 100.0
  {
    MatchesBound(ops, a, b);
    if |a| + |b| > 0 {
      var t := (|a| + |b|) as real;
      assert 200.0 * Matches(ops) as real <= 100.0 * t;
      DivBound(200.0 * Matches(ops) as real, t);
    }
  }

  lemma DivBound(x: real, t: real)
    requires t > 0.0 && 0.0 <= x <= 100.0 * t
    ensures 0.0 <= x / t <= 100.0
  {
  }

  /** A list aligned with itself is 100% similar. */
  lemma IdentitySimilarity(a: seq<string>)
    ensures Similarity(IdentityOps(a), a, a) == 100.0
  {
    if a != [] {
      var ops := IdentityOps(a);
      assert ops[..0] == [];
      assert Matches(ops) == |a|;
      var t := (|a| + |a|) as real;
      assert 200.0 * Matches(ops) as real == 100.0 * t;
      DivHundred(200.0 * Matches(ops) as real, t);
    }
  }

  lemma DivHundred(x: real, t: real)
    requires t > 0.0 && x == 100.0 * t
    ensures x / t == 100.0
  {
  }

  // ---------------------------------------------------------------------------
  // Rating (reading_exercises.py:117-135)

  const Excelente: string := "excelente"
  const Bom: string := "bom"
  const Regular: string := "regular"
  const PrecisaMelhorar: string := "precisa_melhorar"

  /** The rating of a similarity and the sentence that goes with it. */
  datatype Rating = Rating(avaliacao: string, feedback: string)

  /** At least 90 is excellent, at least 70 good, at least 50 fair, anything else needs work. */
  function RateSimilarity(percent: real): (r: Rating)
    ensures r.avaliacao == Excelente <==> percent >= 90.0
    ensures r.avaliacao == Bom <==> 70.0 <= percent < 90.0
    ensures r.avaliacao == Regular <==> 50.0 <= percent < 70.0
    ensures r.avaliacao == PrecisaMelhorar <==> percent < 50.0
  {
    if percent >= 90.0 then Rating(Excelente, "Parabéns! Você leu muito bem! 🎉")
    else if percent >= 70.0 then Rating(Bom, "Muito bem! Você leu quase tudo certo! Continue praticando! 👏")
    else if percent >= 50.0 then Rating(Regular, "Bom esforço! Vamos praticar mais para melhorar! 💪")
    else Rating(PrecisaMelhorar, "Não se preocupe! Vamos praticar juntos até você conseguir! 😊")
  }

  // ---------------------------------------------------------------------------
  // Error itemisation (reading_exercises.py:166-200)

  /** One entry of `palavras_erradas`. */
  datatype WordSwap = WordSwap(esperada: string, lida: string)

  datatype Errors = Errors(palavrasErradas: seq<WordSwap>, palavrasFaltantes: seq<string>, palavrasExtras: seq<string>)

  function Span(lo: nat, hi: nat): nat {
    if hi > lo then hi - lo else 0
  }

  /** The first n pairs of `zip(range(i, ..), range(j, ..))` that pass the bounds guard. */
  function Pairs(a: seq<string>, b: seq<string>, i: nat, j: nat, n: nat): seq<WordSwap> {
    if n == 0 then []
    else
      Pairs(a, b, i, j, n - 1)
      + (if i + n - 1 < |a| && j + n - 1 < |b| then [WordSwap(a[i + n - 1], b[j + n - 1])] else [])
  }

  /** The pairs a block contributes: only `replace` blocks contribute. */
  function BlockSwaps(op: Opcode, a: seq<string>, b: seq<string>): seq<WordSwap> {
    if op.tag == Replace then Pairs(a, b, op.i1, op.j1, Min(Span(op.i1, op.i2), Span(op.j1, op.j2))) else []
  }

  /** `palavras_erradas`: the swaps of all blocks, in block order. */
  function Swaps(ops: seq<Opcode>, a: seq<string>, b: seq<string>): seq<WordSwap> {
    if ops == [] then []
    else Swaps(ops[..|ops| - 1], a, b) + BlockSwaps(ops[|ops| - 1], a, b)
  }

  /** The pair at offset m of the blocks starting at i and j. */
  predicate SwapAt(w: WordSwap, a: seq<string>, b: seq<string>, i: nat, j: nat, m: nat) {
    i + m < |a| && j + m < |b| && w == WordSwap(a[i + m], b[j + m])
  }

  /** The pair was read at the same offset of a `replace` block as the word it replaced. */
  ghost predicate FromReplace(w: WordSwap, ops: seq<Opcode>, a: seq<string>, b: seq<string>) {
    exists k: nat, m: nat :: k < |ops| && ops[k].tag == Replace
      && m < Min(Span(ops[k].i1, ops[k].i2), Span(ops[k].j1, ops[k].j2))
      && SwapAt(w, a, b, ops[k].i1, ops[k].j1, m)
  }

  lemma {:induction false} PairsFrom(a: seq<string>, b: seq<string>, i: nat, j: nat, n: nat)
    ensures |Pairs(a, b, i, j, n)| <= n
    ensures forall w :: w in Pairs(a, b, i, j, n) ==> exists m: nat :: m < n && SwapAt(w, a, b, i, j, m)
  {
    if n > 0 {
      PairsFrom(a, b, i, j, n - 1);
      forall w | w in Pairs(a, b, i, j, n) ensures exists m: nat :: m < n && SwapAt(w, a, b, i, j, m) {
        if w !in Pairs(a, b, i, j, n - 1) {
          assert SwapAt(w, a, b, i, j, n - 1);
        }
      }
    }
  }

  /** Each pair comes from a `replace` block, so each `esperada` is an expected word and each `lida` a word read. */
  lemma {:induction false} SwapsFromReplace(ops: seq<Opcode>, a: seq<string>, b: seq<string>)
    ensures forall w :: w in Swaps(ops, a, b) ==> FromReplace(w, ops, a, b) && w.esperada in a && w.lida in b
  {
    if ops != [] {
      var init := ops[..|ops| - 1];
      var op := ops[|ops| - 1];
      SwapsFromReplace(init, a, b);
      forall w | w in Swaps(ops, a, b) ensures FromReplace(w, ops, a, b) && w.esperada in a && w.lida in b {
        if w in Swaps(init, a, b) {
          var k: nat, m: nat :| k < |init| && init[k].tag == Replace
            && m < Min(Span(init[k].i1, init[k].i2), Span(init[k].j1, init[k].j2))
            && SwapAt(w, a, b, init[k].i1, init[k].j1, m);
          assert ops[k] == init[k];
        } else {
          assert w in BlockSwaps(op, a, b);
          assert op.tag == Replace;
          PairsFrom(a, b, op.i1, op.j1, Min(Span(op.i1, op.i2), Span(op.j1, op.j2)));
          var m: nat :| m < Min(Span(op.i1, op.i2), Span(op.j1, op.j2)) && SwapAt(w, a, b, op.i1, op.j1, m);
          assert ops[|ops| - 1] == op;
          assert a[op.i1 + m] in a && b[op.j1 + m] in b;
        }
      }
    }
  }

  lemma {:induction false} PrefixSwapsBound(ops: seq<Opcode>, a: seq<string>, b: seq<string>, k: nat)
    requires WellFormed(ops, a, b) && 0 < k <= |ops|
    ensures |Swaps(ops[..k], a, b)| <= ops[k - 1].i2 && |Swaps(ops[..k], a, b)| <= ops[k - 1].j2
  {
    var op := ops[k - 1];
    assert ops[..k][..k - 1] == ops[..k - 1];
    PairsFrom(a, b, op.i1, op.j1, Min(Span(op.i1, op.i2), Span(op.j1, op.j2)));
    if k > 1 {
      PrefixSwapsBound(ops, a, b, k - 1);
    } else {
      assert ops[..0] == [];
    }
    assert ValidOp(op, a, b);
  }

  /** There are no more pairs than words in either list. */
  lemma SwapsBound(ops: seq<Opcode>, a: seq<string>, b: seq<string>)
    requires WellFormed(ops, a, b)
    ensures |Swaps(ops, a, b)| <= |a| && |Swaps(ops, a, b)| <= |b|
  {
    if ops != [] {
      PrefixSwapsBound(ops, a, b, |ops|);
      assert ops[..|ops|] == ops;
    }
  }

  /** An alignment without `replace` blocks has no swaps. */
  lemma IdentitySwaps(a: seq<string>)
    ensures Swaps(IdentityOps(a), a, a) == []
  {
    if a != [] {
      assert IdentityOps(a)[..0] == [];
    }
  }

  /** The words of a list, as a set. */
  function SeqSet(s: seq<string>): set<string> {
    set x | x in s
  }

  predicate Distinct(xs: seq<string>) {
    forall i, j :: 0 <= i < j < |xs| ==> xs[i] != xs[j]
  }

  /** `list(s)`: the elements of the set once each, in an order the model leaves open. */
  method SetToList(s: set<string>) returns (xs: seq<string>)
    ensures |xs| == |s| && Distinct(xs)
    ensures forall x :: x in xs <==> x in s
  {
    xs := [];
    var rest := s;
    while rest != {}
      invariant rest <= s
      invariant forall x :: x in xs <==> x in s - rest
      invariant |xs| + |rest| == |s|
      invariant Distinct(xs)
      decreases |rest|
    {
      var x :| x in rest;
      assert x !in xs;
      xs := xs + [x];
      rest := rest - {x};
    }
  }

  /** `xs[:n]`. */
  function Take<T>(xs: seq<T>, n: nat): (r: seq<T>)
    ensures |r| == Min(n, |xs|) && r == xs[..|r|]
  {
    xs[..Min(n, |xs|)]
  }

  /** The at most five words of `ws` that `[:5]` of a list of the set keeps. */
  predicate FirstFiveOf(ws: seq<string>, s: set<string>) {
    |ws| == Min(5, |s|) && Distinct(ws) && forall x :: x in ws ==> x in s
  }

  /**
   * `_identificar_erros`: at most five distinct missing words, at most five
   * distinct extra words, and the pairs of the `replace` blocks of the alignment.
   */
  method IdentifyErrors(esperadas: seq<string>, lidas: seq<string>, ops: seq<Opcode>) returns (e: Errors)
    ensures e.palavrasErradas == Swaps(ops, esperadas, lidas)
    ensures FirstFiveOf(e.palavrasFaltantes, SeqSet(esperadas) - SeqSet(lidas))
    ensures FirstFiveOf(e.palavrasExtras, SeqSet(lidas) - SeqSet(esperadas))
  {
    var faltantes := SetToList(SeqSet(esperadas) - SeqSet(lidas));
    var extras := SetToList(SeqSet(lidas) - SeqSet(esperadas));
    var erradas: seq<WordSwap> := [];
    var k := 0;
    while k < |ops|
      invariant 0 <= k <= |ops|
      invariant erradas == Swaps(ops[..k], esperadas, lidas)
    {
      var op := ops[k];
      erradas := AppendBlockSwaps(erradas, op, esperadas, lidas);
      assert ops[..k + 1][..k] == ops[..k] && ops[..k + 1][k] == op;
      k := k + 1;
    }
    assert ops[..|ops|] == ops;
    TakeFive(faltantes, SeqSet(esperadas) - SeqSet(lidas));
    TakeFive(extras, SeqSet(lidas) - SeqSet(esperadas));
    e := Errors(erradas, Take(faltantes, 5), Take(extras, 5));
  }

  /** The inner loop of `_identificar_erros`: the pairs of one block appended to `erradas`. */
  method AppendBlockSwaps(erradas: seq<WordSwap>, op: Opcode, esperadas: seq<string>, lidas: seq<string>)
    returns (out: seq<WordSwap>)
    ensures out == erradas + BlockSwaps(op, esperadas, lidas)
  {
    out := erradas;
    if op.tag == Replace {
      var n := Min(Span(op.i1, op.i2), Span(op.j1, op.j2));
      var m := 0;
      while m < n
        invariant 0 <= m <= n
        invariant out == erradas + Pairs(esperadas, lidas, op.i1, op.j1, m)
      {
        var i, j := op.i1 + m, op.j1 + m;
        if i < |esperadas| && j < |lidas| {
          out := out + [WordSwap(esperadas[i], lidas[j])];
        }
        m := m + 1;
      }
    }
  }

  /** The first five of a list of a set's elements are five (or all) of them, once each. */
  lemma TakeFive(xs: seq<string>, s: set<string>)
    requires |xs| == |s| && Distinct(xs) && forall x :: x in xs <==> x in s
    ensures FirstFiveOf(Take(xs, 5), s)
  {
    var t := Take(xs, 5);
    forall i, j | 0 <= i < j < |t| ensures t[i] != t[j] {
      assert t[i] == xs[i] && t[j] == xs[j];
    }
    forall x | x in t ensures x in s {
      var i :| 0 <= i < |t| && t[i] == x;
      assert xs[i] == x;
    }
  }

  // ---------------------------------------------------------------------------
  // The attempt (reading_exercises.py:97-145)

  /** The result dictionary of `analyze_reading_attempt`. */
  datatype Attempt = Attempt(
    similaridade: real, avaliacao: string, feedback: string,
    totalPalavrasEsperadas: nat, totalPalavrasLidas: nat,
    erros: Errors, acertos: int)

  /** A text as the list of words it is compared as. */
  function Words(text: string): seq<string> {
    Split(Normalize(text))
  }

  /** `len(esperadas) - len(palavras_erradas) - len(palavras_faltantes)`. */
  function AttemptHits(a: seq<string>, b: seq<string>, ops: seq<Opcode>): int {
    |a| - |Swaps(ops, a, b)| - Min(5, |SeqSet(a) - SeqSet(b)|)
  }

  /** Identical word lists under the identity alignment: full similarity, no errors, every word a hit. */
  lemma IdenticalWords(a: seq<string>)
    ensures Similarity(IdentityOps(a), a, a) == 100.0
    ensures Swaps(IdentityOps(a), a, a) == []
    ensures SeqSet(a) - SeqSet(a) == {}
    ensures AttemptHits(a, a, IdentityOps(a)) == |a|
  {
    IdentitySimilarity(a);
    IdentitySwaps(a);
  }

  /** The attempt computed from the two word lists and their alignment. */
  method AnalyzeWords(a: seq<string>, b: seq<string>, ops: seq<Opcode>) returns (r: Attempt)
    requires WellFormed(ops, a, b)
    ensures r.similaridade == Similarity(ops, a, b)
    ensures 0.0 <= r.similaridade <= 100.0
    ensures Rating(r.avaliacao, r.feedback) == RateSimilarity(r.similaridade)
    ensures r.totalPalavrasEsperadas == |a| && r.totalPalavrasLidas == |b|
    ensures r.erros.palavrasErradas == Swaps(ops, a, b)
    ensures FirstFiveOf(r.erros.palavrasFaltantes, SeqSet(a) - SeqSet(b))
    ensures FirstFiveOf(r.erros.palavrasExtras, SeqSet(b) - SeqSet(a))
    ensures r.acertos == AttemptHits(a, b, ops)
  {
    var percent := Similarity(ops, a, b);
    SimilarityBounds(ops, a, b);
    var erros := IdentifyErrors(a, b, ops);
    var rating := RateSimilarity(percent);
    r := Attempt(percent, rating.avaliacao, rating.feedback, |a|, |b|, erros,
                 |a| - |erros.palavrasErradas| - |erros.palavrasFaltantes|);
  }

  /**
   * `analyze_reading_attempt`, given the alignment difflib produces for the two
   * word lists. Identical word lists get the identity alignment, a similarity
   * of 100, the top rating and no errors.
   */
  method AnalyzeReadingAttempt(textoEsperado: string, textoLido: string, ops: seq<Opcode>) returns (r: Attempt)
    requires WellFormed(ops, Words(textoEsperado), Words(textoLido))
    ensures var a, b := Words(textoEsperado), Words(textoLido);
      && r.similaridade == Similarity(ops, a, b)
      && 0.0 <= r.similaridade <= 100.0
      && Rating(r.avaliacao, r.feedback) == RateSimilarity(r.similaridade)
      && r.totalPalavrasEsperadas == |a| && r.totalPalavrasLidas == |b|
      && r.erros.palavrasErradas == Swaps(ops, a, b)
      && FirstFiveOf(r.erros.palavrasFaltantes, SeqSet(a) - SeqSet(b))
      && FirstFiveOf(r.erros.palavrasExtras, SeqSet(b) - SeqSet(a))
      && r.acertos == AttemptHits(a, b, ops)
    ensures Words(textoEsperado) == Words(textoLido) && ops == IdentityOps(Words(textoLido)) ==>
      r.similaridade == 100.0 && r.avaliacao == Excelente && r.erros == Errors([], [], [])
      && r.acertos == r.totalPalavrasEsperadas
  {
    var a := Words(textoEsperado);
    var b := Words(textoLido);
    r := AnalyzeWords(a, b, ops);
    if a == b && ops == IdentityOps(b) {
      IdenticalWords(a);
    }
  }

  /**
   * A swapped word is also counted as missing when it occurs nowhere in what
   * was read, so `acertos` can be negative: "x" read as "y" scores -1 of 1.
   */
  lemma HitsCanBeNegative()
    ensures var a, b, ops := ["x"], ["y"], [Opcode(Replace, 0, 1, 0, 1)];
      WellFormed(ops, a, b) && AttemptHits(a, b, ops) == -1
  {
    var a, b, ops := ["x"], ["y"], [Opcode(Replace, 0, 1, 0, 1)];
    assert ops[..0] == [];
    assert Swaps(ops, a, b) == [WordSwap("x", "y")];
    assert SeqSet(a) - SeqSet(b) == {"x"};
  }

  /** The one-word texts of `HitsCanBeNegative` are already normal. */
  lemma OneWordTexts()
    ensures Words("x") == ["x"] && Words("y") == ["y"]
  {
    NormalIsFixed("x");
    NormalIsFixed("y");
  }

  // ---------------------------------------------------------------------------
  // The feedback message (reading_exercises.py:203-245)

  /** The statistics block the message opens with; `precisao` is the rounded similarity as Python prints it. */
  function Header(titulo: string, r: Attempt, precisao: string): string {
    "📖 Resultado da Leitura: \"" + titulo + "\"\n\n"
    + r.feedback + "\n\n"
    + "📊 Estatísticas:\n"
    + "• Acertos: " + IntToString(r.acertos) + "/" + IntToString(r.totalPalavrasEsperadas) + " palavras\n"
    + "• Precisão: " + precisao + "%\n\n"
  }

  const SwapTitle: string := "🔤 Palavras que você trocou:\n"
  const SkipTitle: string := "📝 Palavras que você pulou:\n"

  function SwapLine(w: WordSwap): string {
    "   • Você disse '" + w.lida + "' mas era '" + w.esperada + "'\n"
  }

  function SkipLine(p: string): string {
    "   • " + p + "\n"
  }

  /** One line per pair, in order. */
  function SwapLines(ws: seq<WordSwap>): string {
    if ws == [] then "" else SwapLines(ws[..|ws| - 1]) + SwapLine(ws[|ws| - 1])
  }

  /** One line per word, in order. */
  function SkipLines(ps: seq<string>): string {
    if ps == [] then "" else SkipLines(ps[..|ps| - 1]) + SkipLine(ps[|ps| - 1])
  }

  /** The swapped-words section: absent for no swaps, otherwise a title and the first three pairs. */
  function SwapSection(ws: seq<WordSwap>): string {
    if ws == [] then "" else SwapTitle + SwapLines(Take(ws, 3)) + "\n"
  }

  /** The skipped-words section: absent for no missing words, otherwise a title and the first three words. */
  function SkipSection(ps: seq<string>): string {
    if ps == [] then "" else SkipTitle + SkipLines(Take(ps, 3)) + "\n"
  }

  /** The closing encouragement, chosen by the rating. */
  function Closing(avaliacao: string): string {
    if avaliacao == Excelente then "🌟 Continue assim! Você está lendo muito bem!"
    else if avaliacao == Bom then "💪 Você está no caminho certo! Mais uma vez?"
    else "🎯 Vamos praticar este texto mais uma vez? Eu acredito em você!"
  }

  /** The whole message: statistics, the two optional sections, the closing line. */
  function FeedbackMessage(r: Attempt, titulo: string, precisao: string): string {
    Header(titulo, r, precisao) + SwapSection(r.erros.palavrasErradas)
    + SkipSection(r.erros.palavrasFaltantes) + Closing(r.avaliacao)
  }

  /** The lines of the swap section, appended one pair at a time. */
  method BuildSwapLines(shown: seq<WordSwap>) returns (lines: string)
    ensures lines == SwapLines(shown)
  {
    lines := "";
    var k := 0;
    while k < |shown|
      invariant 0 <= k <= |shown|
      invariant lines == SwapLines(shown[..k])
    {
      assert shown[..k + 1][..k] == shown[..k];
      lines := lines + SwapLine(shown[k]);
      k := k + 1;
    }
    assert shown[..|shown|] == shown;
  }

  /** The lines of the skip section, appended one word at a time. */
  method BuildSkipLines(shown: seq<string>) returns (lines: string)
    ensures lines == SkipLines(shown)
  {
    lines := "";
    var k := 0;
    while k < |shown|
      invariant 0 <= k <= |shown|
      invariant lines == SkipLines(shown[..k])
    {
      assert shown[..k + 1][..k] == shown[..k];
      lines := lines + SkipLine(shown[k]);
      k := k + 1;
    }
    assert shown[..|shown|] == shown;
  }

  /** `generate_feedback_message`: the header, each non-empty section, the closing line. */
  method GenerateFeedbackMessage(r: Attempt, textoInfo: ReadingText, precisao: string) returns (msg: string)
    ensures msg == FeedbackMessage(r, textoInfo.titulo, precisao)
  {
    var swaps := "";
    var erradas := r.erros.palavrasErradas;
    if erradas != [] {
      var lines := BuildSwapLines(Take(erradas, 3));
      swaps := SwapTitle + lines + "\n";
    }
    var skips := "";
    var faltantes := r.erros.palavrasFaltantes;
    if faltantes != [] {
      var lines := BuildSkipLines(Take(faltantes, 3));
      skips := SkipTitle + lines + "\n";
    }
    msg := Header(textoInfo.titulo, r, precisao) + swaps + skips + Closing(r.avaliacao);
  }

  /** A section is present exactly when its list is non-empty. */
  lemma SectionsIffNonEmpty(ws: seq<WordSwap>, ps: seq<string>)
    ensures SwapSection(ws) == [] <==> ws == []
    ensures SkipSection(ps) == [] <==> ps == []
  {
  }

  /** Only the first three pairs and the first three missing words are shown. */
  lemma AtMostThreeShown(ws: seq<WordSwap>, moreWs: seq<WordSwap>, ps: seq<string>, morePs: seq<string>)
    requires |ws| >= 3 && |ps| >= 3
    ensures SwapSection(ws + moreWs) == SwapSection(ws)
    ensures SkipSection(ps + morePs) == SkipSection(ps)
  {
    assert Take(ws + moreWs, 3) == Take(ws, 3);
    assert Take(ps + morePs, 3) == Take(ps, 3);
  }

  /** Fair and needs-work readings get the same closing line. */
  lemma ClosingByRating()
    ensures Closing(Regular) == Closing(PrecisaMelhorar)
  {
  }
}
