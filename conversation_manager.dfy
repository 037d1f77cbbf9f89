/**
 * The five-phase tutoring flow of `services/conversation_manager.py`:
 * greeting, collecting name and age, the reading test, its evaluation and the
 * personalised phase.
 *
 * Each phase handler is a function from the user's state and message to the
 * reply, the new state and whether the state is saved. `ConversationManager`
 * applies them to the three stores. The language-model reply of the
 * personalised phase is a parameter: `Some(text)`, or `None` when the call fails.
 */
module Conversation {
  import opened Wrappers
  import opened Text
  import opened TextDetection
  import opened LiteracyEvaluator
  import opened UserStates
  import opened ConversationHistory
  import opened VectorStore

  const AguardandoNome: string := "aguardando_nome"
  const SolicitarTeste: string := "solicitar_teste_leitura"
  const AguardandoTeste: string := "aguardando_teste_leitura"
  const Personalizado: string := "personalizado"

  /** The phases in the order a conversation goes through them. */
  const Phases: seq<string> := [Inicial, AguardandoNome, SolicitarTeste, AguardandoTeste, Personalizado]

  // ---------------------------------------------------------------------------
  // Helpers (conversation_manager.py:71-126)

  /** The position of the first `@`, or the length when there is none. */
  function FirstAt(s: string): (k: nat)
    ensures k <= |s|
    ensures '@' !in s[..k]
    ensures k < |s| ==> s[k] == '@'
  {
    if s == [] then 0
    else if s[0] == '@' then 0
    else
      var k := 1 + FirstAt(s[1..]);
      assert s[..k] == [s[0]] + s[1..][..k - 1];
      k
  }

  /** `_get_user_id`: the text before the first `@`, or the whole text when it has none. */
  function UserId(numero: string): (id: string)
    ensures '@' !in id
    ensures '@' !in numero ==> id == numero
    ensures '@' in numero ==> |id| < |numero| && numero[..|id|] == id && numero[|id|] == '@'
  {
    numero[..FirstAt(numero)]
  }

  const Greetings: seq<string> := ["oi", "olá", "ola", "bom dia", "boa tarde", "boa noite", "hey", "ei"]

  /** The message, lower-cased and stripped, is one of the greetings. */
  predicate IsGreeting(message: string) {
    Strip(Lower(message)) in Greetings
  }

  /**
   * `_should_restart_conversation`: a greeting (in any case, surrounded by any
   * space) in the personalised phase, from a user with no history.
   */
  function ShouldRestart(fase: string, message: string, historyLen: nat): bool {
    fase == Personalizado && IsGreeting(message) && historyLen == 0
  }

  /** Python truth of an optional text: present and not empty. */
  predicate HasText(o: Option<string>) {
    o.Some? && o.value != ""
  }

  /** Python truth of an optional number: present and not zero. */
  predicate HasNumber(o: Option<int>) {
    o.Some? && o.value != 0
  }

  /** How an f-string renders an optional text: `None` is written out as "None". */
  function Show(o: Option<string>): string {
    if o.Some? then o.value else "None"
  }

  // ---------------------------------------------------------------------------
  // Phase handlers (conversation_manager.py:179-327)

  /** What a handler produces: the reply, the new state, and whether it calls `save_user_state`. */
  datatype Step = Step(reply: string, state: State, saves: bool)

  const InitialReply: string :=
    "Oi! Eu sou a Apo.IA, sua assistente para te ajudar a aprender a ler e escrever de um jeito fácil e divertido!\n\nEu vou te acompanhar passo a passo, ok? 😊\n\nPra começar, me conta seu nome e sua idade, por favor."

  /** The state after taking in what `detect_name_and_age` found, never replacing a known value. */
  function TakeFacts(s: State, info: Facts): State {
    var withName := if HasText(info.nome) && !HasText(s.nome) then s.(nome := info.nome) else s;
    if HasNumber(info.idade) && !HasNumber(withName.idade) then withName.(idade := info.idade) else withName
  }

  /** The state after collecting: on to the test with the basic words once name and age are known. */
  function CollectedState(s: State, info: Facts): State {
    var t := TakeFacts(s, info);
    if HasText(t.nome) && HasNumber(t.idade)
    then t.(fase := SolicitarTeste, palavrasTeste := GetTestWords("basico"))
    else t
  }

  /** The reply of the collecting phase, from the state after taking in the facts. */
  function NameCollectionReply(t: State): string {
    if HasText(t.nome) && HasNumber(t.idade) then
      "Prazer em te conhecer, " + t.nome.value + "! 🤗\n\nAgora eu quero ver como você lê essas palavras.\n\nVou enviar uma imagem com algumas palavras pra você. Depois, diga ou escreva quais palavras você vê na imagem, tá bom?"
    else if HasText(t.nome) then
      "Legal, " + t.nome.value + "! E quantos anos você tem?"
    else if HasNumber(t.idade) then
      "Você tem " + IntToString(t.idade.value) + " anos, que legal! E qual é o seu nome?"
    else
      "Me conta seu nome e sua idade, por favor. Pode ser assim: 'Meu nome é João e tenho 25 anos' 😊"
  }

  const TestRequestReply: string :=
    "Agora eu quero ver como você lê essas palavras. Vou enviar uma imagem com algumas palavras pra você. Depois, diga ou escreva quais palavras você vê na imagem, tá bom? 😊"

  /** The state after the test: the evaluator's level, hits and total, and the personalised phase. */
  function EvaluatedState(s: State, e: Evaluation): State {
    s.(nivelAlfabetizacao := Some(e.nivel), acertos := e.acertos, totalTestes := e.total, fase := Personalizado)
  }

  function EvaluationReply(s: State, e: Evaluation): string {
    "Muito bem, " + Show(s.nome) + "! 👏\n\nVocê acertou " + IntToString(e.acertos)
    + " de " + IntToString(e.total)
    + " palavras!\n\nEu já entendi o seu nível. Agora vou preparar leituras em áudio e exercícios personalizados pra te ajudar a evoluir rapidinho!\n\nPodemos começar? 😄"
  }

  /** The reply when the language model fails, naming the user as stored. */
  function Apology(s: State): string {
    "Desculpa, " + Show(s.nome) + "! Tive um probleminha aqui. Pode repetir? 😊"
  }

  /**
   * `_route_by_phase`, as the state each handler leaves: the greeting and
   * the collecting and evaluating phases change it, the others do not. Any
   * phase other than the first four is handled as personalised.
   */
  function RouteState(s: State, message: string): State {
    if s.fase == Inicial then s.(fase := AguardandoNome)
    else if s.fase == AguardandoNome then CollectedState(s, DetectNameAndAge(message))
    else if s.fase == AguardandoTeste then EvaluatedState(s, AnalyzeReadingLevel(message, s.palavrasTeste))
    else s
  }

  /** `_route_by_phase`, as the reply each handler gives. */
  function RouteReply(s: State, message: string, llm: Option<string>): string {
    if s.fase == Inicial then InitialReply
    else if s.fase == AguardandoNome then NameCollectionReply(TakeFacts(s, DetectNameAndAge(message)))
    else if s.fase == SolicitarTeste then TestRequestReply
    else if s.fase == AguardandoTeste then EvaluationReply(s, AnalyzeReadingLevel(message, s.palavrasTeste))
    else if llm.Some? then llm.value
    else Apology(s)
  }

  /** The handlers that call `save_user_state`: the greeting, collecting and evaluating. */
  function RouteSaves(fase: string): bool {
    fase == Inicial || fase == AguardandoNome || fase == AguardandoTeste
  }

  /** `_route_by_phase` */
  function RouteByPhase(s: State, message: string, llm: Option<string>): Step {
    Step(RouteReply(s, message, llm), RouteState(s, message), RouteSaves(s.fase))
  }

  /** What one turn of `generate_response` does to a complete state: the restart check, then the route. */
  datatype Turn = Turn(restarted: bool, step: Step)

  function TakeTurn(s: State, message: string, historyLen: nat, now: int, llm: Option<string>): Turn {
    var restart := ShouldRestart(s.fase, message, historyLen);
    Turn(restart, RouteByPhase(if restart then Default(now) else s, message, llm))
  }

  // ---------------------------------------------------------------------------
  // What the handlers promise

  /** In the first phase the reply is the fixed greeting, and only the phase changes. */
  lemma InitialPhaseGreets(s: State, message: string, llm: Option<string>)
    requires s.fase == Inicial
    ensures RouteState(s, message) == s.(fase := AguardandoNome)
    ensures RouteReply(s, message, llm) == InitialReply && RouteSaves(s.fase)
  {
  }

  /** While collecting, a known name or age is never replaced, and nothing but they, the phase and the test words change. */
  lemma KnownFactsKept(s: State, info: Facts)
    ensures var t := CollectedState(s, info);
      && (HasText(s.nome) ==> t.nome == s.nome)
      && (HasNumber(s.idade) ==> t.idade == s.idade)
      && t.(nome := s.nome, idade := s.idade, fase := s.fase, palavrasTeste := s.palavrasTeste) == s
  {
  }

  /**
   * Collecting moves on to the test exactly when a name and an age are both
   * known, from before or from the detector; the test words are then the basic
   * list. Otherwise only the facts taken in change.
   */
  lemma CollectFactsAdvances(s: State, info: Facts)
    requires s.fase == AguardandoNome
    requires info.nome.Some? ==> |info.nome.value| > 1
    requires info.idade.Some? ==> 1 <= info.idade.value <= 120
    ensures var t := CollectedState(s, info);
      && (t.fase == SolicitarTeste <==>
            (HasText(s.nome) || info.nome.Some?) && (HasNumber(s.idade) || info.idade.Some?))
      && (t.fase == SolicitarTeste ==> t.palavrasTeste == ["CASA", "SOL", "PATO", "BOLA"])
      && (t.fase != SolicitarTeste ==> t == TakeFacts(s, info))
  {
    assert info.nome.Some? ==> info.nome.value != "" by {
      if info.nome.Some? {
        assert |info.nome.value| > 1;
      }
    }
  }

  /** In the collecting phase the route takes in what the detector finds in the message, and saves. */
  lemma NameCollectionAdvances(s: State, message: string)
    requires s.fase == AguardandoNome
    ensures var f, t := DetectNameAndAge(message), RouteState(s, message);
      && (t.fase == SolicitarTeste <==>
            (HasText(s.nome) || f.nome.Some?) && (HasNumber(s.idade) || f.idade.Some?))
      && (t.fase != SolicitarTeste ==> t.fase == AguardandoNome)
      && RouteSaves(s.fase)
  {
    var f := DetectNameAndAge(message);
    CollectFactsAdvances(s, f);
  }

  /** Asking for the test changes nothing and saves nothing. */
  lemma TestRequestKeepsState(s: State, message: string, llm: Option<string>)
    requires s.fase == SolicitarTeste
    ensures RouteState(s, message) == s && !RouteSaves(s.fase)
    ensures RouteReply(s, message, llm) == TestRequestReply
  {
  }

  /** The evaluation records the evaluator's level, hits and total, and opens the personalised phase. */
  lemma EvaluationRecorded(s: State, message: string)
    requires s.fase == AguardandoTeste
    ensures var e, t := AnalyzeReadingLevel(message, s.palavrasTeste), RouteState(s, message);
      && t == s.(nivelAlfabetizacao := Some(e.nivel), acertos := e.acertos, totalTestes := e.total, fase := Personalizado)
      && t.nivelAlfabetizacao.value in {Iniciante, Intermediario, Avancado}
      && t.totalTestes == |s.palavrasTeste|
      && RouteSaves(s.fase)
  {
  }

  /**
   * Every phase but the first four is the personalised one: the reply is the
   * model's, or the apology when it fails, and the state is neither changed nor saved.
   */
  lemma OtherPhasesArePersonalised(s: State, message: string, llm: Option<string>)
    requires s.fase !in Phases[..4]
    ensures RouteState(s, message) == s && !RouteSaves(s.fase)
    ensures RouteReply(s, message, llm) == (if llm.Some? then llm.value else Apology(s))
  {
    assert s.fase != Inicial && s.fase != AguardandoNome && s.fase != SolicitarTeste && s.fase != AguardandoTeste by {
      assert Phases[..4] == [Inicial, AguardandoNome, SolicitarTeste, AguardandoTeste];
    }
  }

  /** The apology names a user whose name is unknown as "None": the key is always present, so its default never applies. */
  lemma ApologyToUnnamed(s: State)
    requires s.nome == None
    ensures Apology(s)[..14] == "Desculpa, None"
  {
  }

  /** The index of a phase in `Phases`. */
  function PhaseIndex(fase: string): (k: nat)
    requires fase in Phases
    ensures k < |Phases| && Phases[k] == fase
  {
    if fase == Inicial then 0
    else if fase == AguardandoNome then 1
    else if fase == SolicitarTeste then 2
    else if fase == AguardandoTeste then 3
    else 4
  }

  /** A turn never goes back a phase and moves at most one phase on. */
  lemma RouteMovesAtMostOnePhase(s: State, message: string)
    requires s.fase in Phases
    ensures var t := RouteState(s, message);
      t.fase in Phases && PhaseIndex(s.fase) <= PhaseIndex(t.fase) <= PhaseIndex(s.fase) + 1
  {
    if s.fase == AguardandoNome {
      NameCollectionAdvances(s, message);
    }
  }

  /** A restart resets the state to the default one and greets as in the first phase. */
  lemma RestartGreets(s: State, message: string, historyLen: nat, now: int, llm: Option<string>)
    requires TakeTurn(s, message, historyLen, now, llm).restarted
    ensures var step := TakeTurn(s, message, historyLen, now, llm).step;
      step.reply == InitialReply && step.state == Default(now).(fase := AguardandoNome) && step.saves
  {
  }

  /** The route a turn takes once the restart check has run. */
  lemma TurnSteps(s: State, message: string, historyLen: nat, now: int, llm: Option<string>, restart: bool, s1: State)
    requires restart == ShouldRestart(s.fase, message, historyLen)
    requires s1 == if restart then Default(now) else s
    ensures TakeTurn(s, message, historyLen, now, llm).step == RouteByPhase(s1, message, llm)
    ensures restart ==> RouteSaves(s1.fase)
  {
  }

  lemma AppendTwo<T>(xs: seq<T>, a: T, b: T)
    ensures xs + [a] + [b] == xs + [a, b]
  {
  }

  lemma UpdateTwice<K, V>(m: map<K, V>, k: K, a: V, b: V)
    ensures m[k := a][k := b] == m[k := b]
  {
  }

  /** Only a personalised conversation with no history restarts. */
  lemma RestartOnlyFromEmptyPersonalised(s: State, message: string, historyLen: nat, now: int, llm: Option<string>)
    requires s.fase != Personalizado || historyLen > 0
    ensures TakeTurn(s, message, historyLen, now, llm) == Turn(false, RouteByPhase(s, message, llm))
  {
  }

  // ---------------------------------------------------------------------------
  // The manager (conversation_manager.py:42-436)

  /** The answer of `should_generate_test_image`; the image prompt text is not modelled. */
  datatype TestImage = NoImage | Image(words: seq<string>)

  /** The dictionary of `get_user_info`. */
  datatype UserInfo = UserInfo(userId: string, fase: string, nome: Option<string>, idade: Option<int>, nivel: Option<string>)

  /**
   * `ConversationManager` over its three stores. `now` is the clock in
   * seconds, `when` the same reading as the vector store's seed document
   * formats it, and `llm` the language model's reply for the turn.
   */
  class ConversationManager {
    const states: UserStateManager
    const history: ConversationHistoryManager
    const vectors: VectorStoreManager

    predicate Valid()
      reads this, history, vectors
    {
      history.Valid() && vectors.Valid()
    }

    constructor (stateDisk: map<string, Record>, historyDisk: map<string, seq<Message>>, vectorDisk: map<string, seq<Doc>>)
      ensures Valid()
      ensures states.cache == map[] && states.disk == stateDisk
      ensures history.cache == map[] && history.disk == historyDisk
      ensures vectors.cache == map[] && vectors.disk == vectorDisk
    {
      states := new UserStateManager(stateDisk);
      history := new ConversationHistoryManager(historyDisk);
      vectors := new VectorStoreManager(vectorDisk);
    }

    /** `_add_message_to_context`: the message goes to the history and to the vector store. */
    method AddMessageToContext(u: string, message: string, isUser: bool, now: int, when: string)
      requires Valid()
      modifies history, vectors
      ensures Valid()
      ensures history.disk == old(history.disk)[u := LoadHistory(old(history.disk), u) + [Message(RoleOf(isUser), message, now)]]
      ensures vectors.disk == old(vectors.disk)[u := Opened(old(vectors.disk), u, when) + [Doc(message, MessageDoc(RoleOf(isUser)))]]
      ensures u in history.cache && u in vectors.cache
    {
      history.AddMessage(u, message, isUser, now);
      vectors.AddMessage(u, message, isUser, when);
    }

    /**
     * `generate_response`. A stored record without a phase makes
     * `get_user_state` raise, and nothing else happens (`None`). Otherwise
     * the turn is `TakeTurn`: its state is cached and, when a handler saves,
     * stored; the message and then the reply are appended to the user's
     * history and vector store.
     */
    method GenerateResponse(numero: string, message: string, now: int, when: string, llm: Option<string>)
        returns (reply: Option<string>)
      requires Valid()
      modifies states, history, vectors
      ensures Valid()
      ensures var u := UserId(numero); var rec := old(states.Current(u, now));
        rec.Partial? ==>
          && reply == None
          && states.cache == old(states.cache)[u := rec] && states.disk == old(states.disk)
          && history.disk == old(history.disk) && vectors.disk == old(vectors.disk)
      ensures var u := UserId(numero); var rec := old(states.Current(u, now));
        rec.Full? ==>
          var step := TakeTurn(rec.state, message, |LoadHistory(old(history.disk), u)|, now, llm).step;
          && reply == Some(step.reply)
          && states.cache == old(states.cache)[u := Full(step.state)]
          && states.disk == (if step.saves then old(states.disk)[u := Full(step.state)] else old(states.disk))
          && history.disk == old(history.disk)[u := LoadHistory(old(history.disk), u)
               + [Message(User, message, now), Message(Assistant, step.reply, now)]]
          && vectors.disk == old(vectors.disk)[u := Opened(old(vectors.disk), u, when)
               + [Doc(message, MessageDoc(User)), Doc(step.reply, MessageDoc(Assistant))]]
    {
      var u := UserId(numero);
      ghost var rec, cache0 := states.Current(u, now), states.cache;
      var got := states.GetUserState(u, now);
      if got.None? {
        return None;
      }
      assert rec == Full(got.value);
      ghost var step := TakeTurn(got.value, message, |LoadHistory(history.disk, u)|, now, llm).step;
      var text := RespondTo(u, got.value, message, now, when, llm);
      UpdateTwice(cache0, u, rec, Full(step.state));
      reply := Some(text);
    }

    /** The turn of `generate_response` once the user's state `s` is cached. */
    method RespondTo(u: string, s: State, message: string, now: int, when: string, llm: Option<string>)
        returns (reply: string)
      requires Valid()
      modifies states, history, vectors
      ensures Valid()
      ensures var step := TakeTurn(s, message, |LoadHistory(old(history.disk), u)|, now, llm).step;
        && reply == step.reply
        && states.cache == old(states.cache)[u := Full(step.state)]
        && states.disk == (if step.saves then old(states.disk)[u := Full(step.state)] else old(states.disk))
        && history.disk == old(history.disk)[u := LoadHistory(old(history.disk), u)
             + [Message(User, message, now), Message(Assistant, step.reply, now)]]
        && vectors.disk == old(vectors.disk)[u := Opened(old(vectors.disk), u, when)
             + [Doc(message, MessageDoc(User)), Doc(step.reply, MessageDoc(Assistant))]]
    {
      ghost var cache0, disk0 := states.cache, states.disk;
      ghost var before := LoadHistory(history.disk, u);
      var current, restart := Restart(u, s, message, now);
      TurnSteps(s, message, |before|, now, llm, restart, current);
      var step := RouteByPhase(current, message, llm);
      assert step.saves == RouteSaves(current.fase);
      reply := Answer(u, current.fase, step, message, now, when);
      if restart {
        UpdateTwice(cache0, u, Full(current), Full(step.state));
        UpdateTwice(disk0, u, Full(current), Full(step.state));
      }
    }

    /** The restart check of `generate_response`: on a restart the default state is cached and saved. */
    method Restart(u: string, s: State, message: string, now: int) returns (current: State, restart: bool)
      requires Valid()
      modifies states, history
      ensures Valid()
      ensures restart == ShouldRestart(s.fase, message, |LoadHistory(history.disk, u)|)
      ensures current == if restart then Default(now) else s
      ensures states.cache == (if restart then old(states.cache)[u := Full(current)] else old(states.cache))
      ensures states.disk == (if restart then old(states.disk)[u := Full(current)] else old(states.disk))
      ensures history.disk == old(history.disk)
    {
      restart := CheckRestart(u, s, message);
      current := s;
      if restart {
        current := Default(now);
        states.SetCached(u, current);
        states.SaveUserState(u);
        assert states.cache[u] == Full(current);
      }
    }

    /** `_should_restart_conversation`, which reads the history only for a greeting in the personalised phase. */
    method CheckRestart(u: string, s: State, message: string) returns (restart: bool)
      requires Valid()
      modifies history
      ensures Valid()
      ensures restart == ShouldRestart(s.fase, message, |LoadHistory(history.disk, u)|)
      ensures history.disk == old(history.disk)
    {
      restart := false;
      if s.fase == Personalizado && IsGreeting(message) {
        var h := history.GetHistory(u, None);
        restart := |h| == 0;
      }
    }

    /**
     * The rest of the turn, given what the phase handler does: the message is
     * recorded, the handler's state is applied, the reply is recorded.
     */
    method Answer(u: string, fase: string, step: Step, message: string, now: int, when: string)
        returns (reply: string)
      requires Valid()
      modifies states, history, vectors
      ensures Valid()
      ensures reply == step.reply
      ensures states.cache == old(states.cache)[u := Full(step.state)]
      ensures states.disk == (if step.saves then old(states.disk)[u := Full(step.state)] else old(states.disk))
      ensures history.disk == old(history.disk)[u := LoadHistory(old(history.disk), u)
        + [Message(User, message, now), Message(Assistant, step.reply, now)]]
      ensures vectors.disk == old(vectors.disk)[u := Opened(old(vectors.disk), u, when)
        + [Doc(message, MessageDoc(User)), Doc(step.reply, MessageDoc(Assistant))]]
    {
      ghost var h0, v0 := history.disk, vectors.disk;
      ghost var messages, docs := LoadHistory(h0, u), Opened(v0, u, when);
      var m1, m2 := Message(User, message, now), Message(Assistant, step.reply, now);
      var d1, d2 := Doc(message, MessageDoc(User)), Doc(step.reply, MessageDoc(Assistant));
      AddMessageToContext(u, message, true, now, when);
      ghost var h1, v1 := history.disk, vectors.disk;
      assert LoadHistory(h1, u) == messages + [m1] && Opened(v1, u, when) == docs + [d1];
      if !step.saves && fase != SolicitarTeste {
        ReadContext(u, when);
      }
      ApplyStep(u, step);
      AddMessageToContext(u, step.reply, false, now, when);
      reply := step.reply;
      AppendTwo(messages, m1, m2);
      UpdateTwice(h0, u, messages + [m1], messages + [m1, m2]);
      AppendTwo(docs, d1, d2);
      UpdateTwice(v0, u, docs + [d1], docs + [d1, d2]);
    }

    /**
     * What the personalised handler reads before calling the model: the relevant
     * documents and the last five messages. Both stores already hold the user,
     * so neither changes.
     */
    method ReadContext(u: string, when: string)
      requires Valid() && u in history.cache && u in vectors.cache
      modifies history, vectors
      ensures Valid()
      ensures history.cache == old(history.cache) && history.disk == old(history.disk)
      ensures vectors.cache == old(vectors.cache) && vectors.disk == old(vectors.disk)
    {
      vectors.GetOrCreate(u, when);
      var recent := history.GetHistory(u, Some(5));
    }

    /** The handler's changes to the state dictionary, saved when the handler saves. */
    method ApplyStep(u: string, step: Step)
      modifies states
      ensures states.cache == old(states.cache)[u := Full(step.state)]
      ensures states.disk == (if step.saves then old(states.disk)[u := Full(step.state)] else old(states.disk))
    {
      states.SetCached(u, step.state);
      if step.saves {
        states.SaveUserState(u);
      }
    }

    /** `should_generate_test_image`: only a requested test moves on to waiting for it, with the stored words. */
    method ShouldGenerateTestImage(numero: string, now: int) returns (r: Option<TestImage>)
      modifies states
      ensures var u := UserId(numero); var rec := old(states.Current(u, now));
        rec.Partial? ==> r == None && states.cache == old(states.cache)[u := rec] && states.disk == old(states.disk)
      ensures var u := UserId(numero); var rec := old(states.Current(u, now));
        rec.Full? && rec.state.fase == SolicitarTeste ==>
          var next := Full(rec.state.(fase := AguardandoTeste));
          r == Some(Image(rec.state.palavrasTeste))
          && states.cache == old(states.cache)[u := next] && states.disk == old(states.disk)[u := next]
      ensures var u := UserId(numero); var rec := old(states.Current(u, now));
        rec.Full? && rec.state.fase != SolicitarTeste ==>
          r == Some(NoImage) && states.cache == old(states.cache)[u := rec] && states.disk == old(states.disk)
    {
      var u := UserId(numero);
      var got := states.GetUserState(u, now);
      if got.None? {
        return None;
      }
      var s := got.value;
      if s.fase == SolicitarTeste {
        states.SetCached(u, s.(fase := AguardandoTeste));
        states.SaveUserState(u);
        return Some(Image(s.palavrasTeste));
      }
      r := Some(NoImage);
    }

    /** `get_user_info`: the id and the phase and personal data of the current state. */
    method GetUserInfo(numero: string, now: int) returns (info: Option<UserInfo>)
      modifies states
      ensures var u := UserId(numero); var rec := old(states.Current(u, now));
        && states.cache == old(states.cache)[u := rec] && states.disk == old(states.disk)
        && (rec.Partial? ==> info == None)
        && (rec.Full? ==> info == Some(UserInfo(u, rec.state.fase, rec.state.nome, rec.state.idade, rec.state.nivelAlfabetizacao)))
    {
      var u := UserId(numero);
      var got := states.GetUserState(u, now);
      if got.None? {
        return None;
      }
      var s := got.value;
      info := Some(UserInfo(u, s.fase, s.nome, s.idade, s.nivelAlfabetizacao));
    }

    /** `get_conversation_summary`: the stored history under `limit`, which callers leave at 10 by default. */
    method GetConversationSummary(numero: string, limit: Option<int>) returns (h: seq<Message>)
      requires Valid()
      modifies history
      ensures Valid()
      ensures h == Limited(LoadHistory(history.disk, UserId(numero)), limit)
      ensures history.disk == old(history.disk)
    {
      h := history.GetHistory(UserId(numero), limit);
    }

    /** `clear_user_context`: the user leaves all three stores, in memory and on disk. */
    method ClearUserContext(numero: string)
      requires Valid()
      modifies states, history, vectors
      ensures Valid()
      ensures var u := UserId(numero);
        && states.cache == old(states.cache) - {u} && states.disk == old(states.disk) - {u}
        && history.cache == old(history.cache) - {u} && history.disk == old(history.disk) - {u}
        && vectors.cache == old(vectors.cache) - {u} && vectors.disk == old(vectors.disk) - {u}
    {
      var u := UserId(numero);
      vectors.ClearVectorstore(u);
      history.ClearHistory(u);
      states.ClearUserState(u);
    }
  }
}
