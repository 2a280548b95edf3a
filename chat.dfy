/**
 * One request to the `/api/chat` route, as a pure step over one client's
 * session and the conversation history: the `sair` command, CPF recognition,
 * the password check, and `ChatbotEngine.processar_mensagem`.
 */
module Chat {
  import opened Wrappers
  import opened Text
  import opened Ledger

  /** The Flask session of one client: the keys `cpf` and `cpf_temp`, each present or not. */
  datatype Session = Session(cpf: Option<string>, cpfTemp: Option<string>)

  /** A session after `session.clear()`, or a client seen for the first time. */
  const EmptySession := Session(None, None)

  datatype Message = HumanMessage(content: string) | AIMessage(content: string)

  /**
   * What the language-model agent does with one invocation: it answers with an
   * `output`, answers without one, or raises.
   */
  datatype AgentOutcome = Answered(output: string) | NoOutput | Failed

  /** The agent, as an opaque function of the input, the history it is shown and the CPF in its prompt. */
  type Agent = (string, seq<Message>, string) -> AgentOutcome

  /** One invocation of the agent: what it was given. */
  datatype AgentCall = AgentCall(input: string, history: seq<Message>, cpf: string)

  /** The `tipo` of a reply. */
  datatype Tipo = Info | Autenticacao | Sucesso | Erro | Logout

  /** The `resposta` of a reply, one case per fixed text. */
  datatype Resposta =
    | SessionClosed
    | EnterPassword
    | CpfNotFound
    | Welcome(nome: string)
    | WrongPassword
    | AskForCpf
    | CpfDetected
    | AgentReply(text: string)
    | Apology

  datatype Reply = Reply(tipo: Tipo, resposta: Resposta)

  /** The AI message used when the agent's response has no `output`. */
  const NoOutputText: string := "Desculpe, não consegui processar sua solicitação no momento."

  /** Python truthiness of an optional string: present and not empty. */
  predicate Truthy(o: Option<string>) {
    o.Some? && |o.value| > 0
  }

  /** `mensagem.lower().strip() == 'sair'`. */
  predicate IsSair(mensagem: string) {
    Strip(Lower(mensagem)) == "sair"
  }

  /** Eleven ASCII digits: the only strings a session ever stores as a CPF. */
  predicate IsCpf(s: string) {
    |s| == CpfLength && forall k :: 0 <= k < |s| ==> IsDigit(s[k])
  }

  /**
   * The states a session can reach: a stored CPF is a known user's, is eleven
   * digits, and is never stored together with a pending one.
   */
  predicate SessionValid(usuarios: Usuarios, s: Session) {
    (s.cpf.Some? ==> IsCpf(s.cpf.value) && s.cpf.value in usuarios && s.cpfTemp.None?) &&
    (s.cpfTemp.Some? ==> IsCpf(s.cpfTemp.value) && s.cpfTemp.value in usuarios)
  }

  /** What the password check needs: a pending CPF it will look up is a known user's. */
  predicate PendingKnown(usuarios: Usuarios, s: Session) {
    s.cpfTemp.Some? && !Truthy(s.cpf) ==> s.cpfTemp.value in usuarios
  }

  /** The authentication state a session encodes. */
  datatype AuthState = Unauthenticated | CredentialPending(pending: string) | Authenticated(cpf: string)

  function StateOf(s: Session): AuthState {
    if Truthy(s.cpf) then Authenticated(s.cpf.value)
    else if s.cpfTemp.Some? then CredentialPending(s.cpfTemp.value)
    else Unauthenticated
  }

  // ---------------------------------------------------------------------------
  // processar_mensagem

  datatype Processed = Processed(history: seq<Message>, reply: Reply, call: Option<AgentCall>)

  /**
   * `ChatbotEngine.processar_mensagem`: without a CPF the agent is not called
   * and nothing is recorded; with one, the message is appended to the history,
   * the agent is called with that history and that CPF, and its answer (if it
   * did not raise) is appended too. A raising agent yields the fixed apology
   * and leaves the user's message in the history without a reply.
   */
  function ProcessMessage(history: seq<Message>, mensagem: string, cpf: Option<string>, agent: Agent): (r: Processed)
    ensures r.call.Some? <==> Truthy(cpf)
    ensures !Truthy(cpf) ==>
      r.history == history &&
      r.reply == (if FindCpf(mensagem).Some? then Reply(Autenticacao, CpfDetected) else Reply(Info, AskForCpf))
    ensures Truthy(cpf) ==>
      var asked := history + [HumanMessage(mensagem)];
      r.call == Some(AgentCall(mensagem, asked, cpf.value)) &&
      r.reply.tipo == Info &&
      |asked| <= |r.history| && r.history[..|asked|] == asked &&
      (agent(mensagem, asked, cpf.value).Failed? <==> r.history == asked) &&
      (agent(mensagem, asked, cpf.value).Failed? <==> r.reply == Reply(Info, Apology))
    ensures Truthy(cpf) && agent(mensagem, history + [HumanMessage(mensagem)], cpf.value).Answered? ==>
      var output := agent(mensagem, history + [HumanMessage(mensagem)], cpf.value).output;
      r.history == history + [HumanMessage(mensagem), AIMessage(output)] && r.reply == Reply(Info, AgentReply(output))
    ensures Truthy(cpf) && agent(mensagem, history + [HumanMessage(mensagem)], cpf.value).NoOutput? ==>
      r.history == history + [HumanMessage(mensagem), AIMessage(NoOutputText)] && r.reply == Reply(Info, AgentReply(NoOutputText))
  {
    if !Truthy(cpf) then
      if FindCpf(mensagem).Some? then Processed(history, Reply(Autenticacao, CpfDetected), None)
      else Processed(history, Reply(Info, AskForCpf), None)
    else
      var asked := history + [HumanMessage(mensagem)];
      var call := Some(AgentCall(mensagem, asked, cpf.value));
      match agent(mensagem, asked, cpf.value)
      case Answered(output) => Processed(asked + [AIMessage(output)], Reply(Info, AgentReply(output)), call)
      case NoOutput => Processed(asked + [AIMessage(NoOutputText)], Reply(Info, AgentReply(NoOutputText)), call)
      case Failed => Processed(asked, Reply(Info, Apology), call)
  }

  // ---------------------------------------------------------------------------
  // The chat route

  datatype ChatOutcome = ChatOutcome(session: Session, history: seq<Message>, reply: Reply, call: Option<AgentCall>)

  /**
   * The `/api/chat` route for one client: `sair` clears everything; without a
   * CPF, the leftmost run of eleven digits is taken as a CPF candidate (before
   * any pending password is looked at); then a pending CPF is checked against
   * the stripped message; anything else goes to `processar_mensagem`.
   */
  function ChatStep(usuarios: Usuarios, s: Session, history: seq<Message>, mensagem: string, agent: Agent): (r: ChatOutcome)
    requires PendingKnown(usuarios, s)
    ensures IsSair(mensagem) ==> r == ChatOutcome(EmptySession, [], Reply(Logout, SessionClosed), None)
    ensures r.call.Some? <==> !IsSair(mensagem) && StateOf(s).Authenticated?
    ensures r.call.Some? ==> s.cpf.Some? && r.call.value.cpf == s.cpf.value && r.session == s
    ensures r.reply.resposta != CpfDetected
    ensures SessionValid(usuarios, s) ==> SessionValid(usuarios, r.session)
  {
    if IsSair(mensagem) then
      ChatOutcome(EmptySession, [], Reply(Logout, SessionClosed), None)
    else if !Truthy(s.cpf) && FindCpf(mensagem).Some? then
      var candidate := CpfMatch(mensagem, FindCpf(mensagem).value);
      if candidate in usuarios then
        ChatOutcome(s.(cpfTemp := Some(candidate)), history, Reply(Autenticacao, EnterPassword), None)
      else
        ChatOutcome(s, history, Reply(Erro, CpfNotFound), None)
    else if s.cpfTemp.Some? && !Truthy(s.cpf) then
      var pending := s.cpfTemp.value;
      if usuarios[pending].senha == Strip(mensagem) then
        ChatOutcome(Session(Some(pending), None), [], Reply(Sucesso, Welcome(usuarios[pending].nome)), None)
      else
        ChatOutcome(s.(cpfTemp := None), history, Reply(Erro, WrongPassword), None)
    else
      var p := ProcessMessage(history, mensagem, s.cpf, agent);
      ChatOutcome(s, p.history, p.reply, p.call)
  }

  /**
   * A session becomes authenticated only through a `sucesso` reply, and every
   * `sucesso` reply authenticates a session that was not.
   */
  lemma SuccessIsLogin(usuarios: Usuarios, s: Session, history: seq<Message>, mensagem: string, agent: Agent)
    requires SessionValid(usuarios, s)
    ensures var r := ChatStep(usuarios, s, history, mensagem, agent);
      r.reply.tipo == Sucesso <==> StateOf(r.session).Authenticated? && !StateOf(s).Authenticated?
  {
    if !IsSair(mensagem) && !(!Truthy(s.cpf) && FindCpf(mensagem).Some?) && !(s.cpfTemp.Some? && !Truthy(s.cpf)) {
      var p := ProcessMessage(history, mensagem, s.cpf, agent);
      assert p.reply.tipo != Sucesso;
    }
  }

  // ---------------------------------------------------------------------------
  // The state machine the session encodes

  /**
   * The authentication state machine, over abstract states: `sair` resets from
   * anywhere; while not authenticated, a known CPF (the leftmost eleven digits)
   * makes it pending and an unknown one leaves the state alone; a pending CPF
   * is then checked against the stripped message; an authenticated session stays so.
   */
  function Transition(usuarios: Usuarios, st: AuthState, mensagem: string): (AuthState, Tipo)
    requires st.CredentialPending? ==> st.pending in usuarios
  {
    if IsSair(mensagem) then (Unauthenticated, Logout)
    else if st.Authenticated? then (st, Info)
    else if FindCpf(mensagem).Some? then
      var candidate := CpfMatch(mensagem, FindCpf(mensagem).value);
      if candidate in usuarios then (CredentialPending(candidate), Autenticacao) else (st, Erro)
    else if st.CredentialPending? then
      if usuarios[st.pending].senha == Strip(mensagem) then (Authenticated(st.pending), Sucesso)
      else (Unauthenticated, Erro)
    else (Unauthenticated, Info)
  }

  /** The session map moves exactly as the abstract state machine does, and replies with its tag. */
  lemma ChatStepFollowsTransition(usuarios: Usuarios, s: Session, history: seq<Message>, mensagem: string, agent: Agent)
    requires SessionValid(usuarios, s)
    ensures var r := ChatStep(usuarios, s, history, mensagem, agent);
      (StateOf(r.session), r.reply.tipo) == Transition(usuarios, StateOf(s), mensagem)
  {
  }

  /**
   * Without a stored CPF the leftmost eleven digits are taken as a CPF, even
   * while a password is pending: a known one becomes the pending CPF, an unknown
   * one is reported and changes nothing.
   */
  lemma CpfCandidateTakesPrecedence(usuarios: Usuarios, s: Session, history: seq<Message>, mensagem: string, agent: Agent, i: nat)
    requires SessionValid(usuarios, s) && !IsSair(mensagem) && !Truthy(s.cpf)
    requires FindCpf(mensagem) == Some(i)
    ensures var r := ChatStep(usuarios, s, history, mensagem, agent);
      var candidate := mensagem[i..i + CpfLength];
      r.history == history && r.call.None? &&
      (candidate in usuarios ==> r.session == s.(cpfTemp := Some(candidate)) && r.reply == Reply(Autenticacao, EnterPassword)) &&
      (candidate !in usuarios ==> r.session == s && r.reply == Reply(Erro, CpfNotFound))
  {
  }

  /**
   * With a pending CPF and no eleven digits in the message, the stripped message
   * must equal the stored password exactly: then the session is authenticated and
   * the history emptied; otherwise the pending CPF is dropped.
   */
  lemma PasswordCheck(usuarios: Usuarios, s: Session, history: seq<Message>, mensagem: string, agent: Agent, c: string)
    requires SessionValid(usuarios, s) && !IsSair(mensagem)
    requires StateOf(s) == CredentialPending(c) && FindCpf(mensagem).None?
    ensures var r := ChatStep(usuarios, s, history, mensagem, agent);
      r.call.None? &&
      (Strip(mensagem) == usuarios[c].senha ==>
        r.session == Session(Some(c), None) && r.history == [] && r.reply == Reply(Sucesso, Welcome(usuarios[c].nome))) &&
      (Strip(mensagem) != usuarios[c].senha ==>
        r.session == EmptySession && r.history == history && r.reply == Reply(Erro, WrongPassword))
  {
  }

  /** With nothing stored and no eleven digits in the message, the reply asks for the CPF and the agent is not called. */
  lemma UnauthenticatedAsksForCpf(usuarios: Usuarios, s: Session, history: seq<Message>, mensagem: string, agent: Agent)
    requires SessionValid(usuarios, s) && !IsSair(mensagem)
    requires StateOf(s) == Unauthenticated && FindCpf(mensagem).None?
    ensures ChatStep(usuarios, s, history, mensagem, agent) == ChatOutcome(s, history, Reply(Info, AskForCpf), None)
  {
  }

  /**
   * An authenticated message goes to the agent with this session's CPF; if the
   * agent raises, the session stays authenticated, the reply is the apology, and
   * the history keeps the user's message with no answer.
   */
  lemma AgentFailureKeepsSession(usuarios: Usuarios, s: Session, history: seq<Message>, mensagem: string, agent: Agent, c: string)
    requires SessionValid(usuarios, s) && !IsSair(mensagem) && StateOf(s) == Authenticated(c)
    requires agent(mensagem, history + [HumanMessage(mensagem)], c).Failed?
    ensures ChatStep(usuarios, s, history, mensagem, agent)
         == ChatOutcome(s, history + [HumanMessage(mensagem)], Reply(Info, Apology),
                        Some(AgentCall(mensagem, history + [HumanMessage(mensagem)], c)))
  {
  }

  /**
   * An authenticated message goes to the agent with this session's CPF; when the
   * agent answers, the client gets the answer (or the fixed fallback when the
   * answer has no output), the session is unchanged, and the history gains the
   * user's message followed by that answer.
   */
  lemma AgentAnswerReachesClient(usuarios: Usuarios, s: Session, history: seq<Message>, mensagem: string, agent: Agent, c: string)
    requires SessionValid(usuarios, s) && !IsSair(mensagem) && StateOf(s) == Authenticated(c)
    requires !agent(mensagem, history + [HumanMessage(mensagem)], c).Failed?
    ensures var outcome := agent(mensagem, history + [HumanMessage(mensagem)], c);
      var answer := if outcome.Answered? then outcome.output else NoOutputText;
      ChatStep(usuarios, s, history, mensagem, agent)
        == ChatOutcome(s, history + [HumanMessage(mensagem), AIMessage(answer)], Reply(Info, AgentReply(answer)),
                       Some(AgentCall(mensagem, history + [HumanMessage(mensagem)], c)))
  {
    var asked := history + [HumanMessage(mensagem)];
    assert asked + [AIMessage(if agent(mensagem, asked, c).Answered? then agent(mensagem, asked, c).output else NoOutputText)]
        == history + [HumanMessage(mensagem), AIMessage(if agent(mensagem, asked, c).Answered? then agent(mensagem, asked, c).output else NoOutputText)];
  }

  /** Stripping keeps a contiguous piece of the message, so a run of eleven digits in it is one in the message. */
  lemma {:induction false} DigitRunSurvivesStrip(mensagem: string, i: int)
    requires DigitRunAt(Strip(mensagem), i)
    ensures FindCpf(mensagem).Some?
  {
    var left := StripLeft(mensagem);
    var stripped := Strip(mensagem);
    var offset := |mensagem| - |left|;
    StripLeftIsSuffix(mensagem);
    StripRightIsPrefix(left);
    assert stripped == left[..|stripped|];
    forall k | offset + i <= k < offset + i + CpfLength ensures IsDigit(mensagem[k]) {
      assert mensagem[k] == left[k - offset] == stripped[k - offset];
    }
    assert DigitRunAt(mensagem, offset + i);
  }

  /**
   * A password holding eleven consecutive digits can never be used: typed in,
   * the digits are read as a new CPF before the password check is reached.
   */
  lemma ElevenDigitPasswordRejected(usuarios: Usuarios, s: Session, history: seq<Message>, mensagem: string, agent: Agent, c: string, i: int)
    requires SessionValid(usuarios, s) && StateOf(s) == CredentialPending(c)
    requires Strip(mensagem) == usuarios[c].senha && DigitRunAt(usuarios[c].senha, i)
    ensures ChatStep(usuarios, s, history, mensagem, agent).reply.tipo != Sucesso
  {
    DigitRunSurvivesStrip(mensagem, i);
  }

  /**
   * The password check is exact and case-sensitive: for a user whose password is
   * "abc123", "abc123" logs in and "ABC123" does not.
   */
  lemma PasswordIsCaseSensitive(usuarios: Usuarios, history: seq<Message>, agent: Agent, right: string, wrong: string)
    requires usuarios == map["12345678901" := User("Ana", "abc123", [])]
    requires right == "abc123" && wrong == "ABC123"
    ensures ChatStep(usuarios, Session(None, Some("12345678901")), history, right, agent).reply == Reply(Sucesso, Welcome("Ana"))
    ensures ChatStep(usuarios, Session(None, Some("12345678901")), history, wrong, agent).reply == Reply(Erro, WrongPassword)
  {
    PasswordWords(right, wrong);
  }

  lemma PasswordWords(right: string, wrong: string)
    requires right == "abc123" && wrong == "ABC123"
    ensures Strip(right) == right && Strip(wrong) == wrong && !IsSair(right) && !IsSair(wrong)
  {
    assert Lower(right) == right;
    assert Lower(wrong) == right;
    StripKeepsTrimmed(right);
    StripKeepsTrimmed(wrong);
  }

  lemma StripKeepsTrimmed(w: string)
    requires w != [] && !IsSpace(w[0]) && !IsSpace(w[|w| - 1])
    ensures Strip(w) == w
  {
    assert StripLeft(w) == w;
  }

  /** `sair` is recognised in any letter case and with surrounding whitespace. */
  lemma SairInAnyCase(mensagem: string)
    requires mensagem == "  SaIr\n"
    ensures IsSair(mensagem)
  {
    assert Lower(mensagem) == "  sair\n";
    assert StripLeft("  sair\n") == "sair\n";
    assert StripRight("sair\n") == "sair";
  }

  /** `strip()` also drops non-ASCII white space, so `sair` followed by a no-break space still logs out. */
  lemma SairWithNoBreakSpace(mensagem: string)
    requires mensagem == "sair\U{A0}"
    ensures IsSair(mensagem)
  {
    assert Lower(mensagem) == mensagem;
    assert StripLeft(mensagem) == mensagem;
    assert StripRight(mensagem) == "sair";
  }
}
