/**
 * The process-wide state of the web application: the `ChatbotEngine` singleton
 * with its one conversation history, and the Flask sessions of all clients.
 * The `/api/chat` and `/api/logout` routes are methods that update both.
 */
module Server {
  import opened Wrappers
  import opened Text
  import opened Ledger
  import opened Chat

  /** A client, as told apart by its session cookie. */
  type ClientId = string

  function CallLog(call: Option<AgentCall>): seq<AgentCall> {
    match call
    case Some(c) => [c]
    case None => []
  }

  /** `ChatbotEngine`: the agent front end, holding the single `chat_history`. */
  class ChatbotEngine {
    var chatHistory: seq<Message>
    /** Every invocation of the agent so far, with what it was given. */
    ghost var agentCalls: seq<AgentCall>

    constructor ()
      ensures chatHistory == [] && agentCalls == []
    {
      chatHistory := [];
      agentCalls := [];
    }

    /** `processar_mensagem`: appends to the history and calls the agent only when a CPF is given. */
    method ProcessarMensagem(mensagem: string, cpf: Option<string>, agent: Agent) returns (reply: Reply)
      modifies this
      ensures var p := ProcessMessage(old(chatHistory), mensagem, cpf, agent);
        chatHistory == p.history && reply == p.reply && agentCalls == old(agentCalls) + CallLog(p.call)
    {
      if !Truthy(cpf) {
        if FindCpf(mensagem).Some? {
          return Reply(Autenticacao, CpfDetected);
        } else {
          return Reply(Info, AskForCpf);
        }
      }
      chatHistory := chatHistory + [HumanMessage(mensagem)];
      agentCalls := agentCalls + [AgentCall(mensagem, chatHistory, cpf.value)];
      var outcome := agent(mensagem, chatHistory, cpf.value);
      match outcome {
        case Answered(output) =>
          chatHistory := chatHistory + [AIMessage(output)];
          reply := Reply(Info, AgentReply(output));
        case NoOutput =>
          chatHistory := chatHistory + [AIMessage(NoOutputText)];
          reply := Reply(Info, AgentReply(NoOutputText));
        case Failed =>
          reply := Reply(Info, Apology);
      }
    }

    /** `_detectar_cpf`: whether the message holds eleven consecutive digits anywhere. */
    function DetectarCpf(mensagem: string): (found: bool)
      ensures found <==> exists i :: DigitRunAt(mensagem, i)
    {
      FindCpf(mensagem).Some?
    }
  }

  /** The session a client's next request sees: none yet is an empty one. */
  function SessionOf(sessions: map<ClientId, Session>, client: ClientId): Session {
    if client in sessions then sessions[client] else EmptySession
  }

  /** The application state as the code has it: per-client sessions, one shared history. */
  datatype AppState = AppState(sessions: map<ClientId, Session>, history: seq<Message>)

  datatype StepOutcome = StepOutcome(state: AppState, reply: Reply, call: Option<AgentCall>)

  /**
   * One `/api/chat` request from `client`: its own session is read and written
   * back, every other client's session is left alone, and the single history is
   * the one this client's step reads and replaces.
   */
  function AppStep(usuarios: Usuarios, st: AppState, client: ClientId, mensagem: string, agent: Agent): (r: StepOutcome)
    requires PendingKnown(usuarios, SessionOf(st.sessions, client))
    ensures forall other :: other != client ==> SessionOf(r.state.sessions, other) == SessionOf(st.sessions, other)
    ensures r.call.Some? ==> r.call.value.history == st.history + [HumanMessage(mensagem)]
  {
    var o := ChatStep(usuarios, SessionOf(st.sessions, client), st.history, mensagem, agent);
    StepOutcome(AppState(st.sessions[client := o.session], o.history), o.reply, o.call)
  }

  /**
   * The application: the ledger loaded at start-up, the sessions of all clients,
   * and the `chatbot` singleton.
   */
  class BankChat {
    const usuarios: Usuarios
    var sessions: map<ClientId, Session>
    const chatbot: ChatbotEngine

    /** Every stored session is in a reachable state. */
    ghost predicate Valid()
      reads this
    {
      forall c :: c in sessions ==> SessionValid(usuarios, sessions[c])
    }

    constructor (usuarios: Usuarios)
      ensures Valid() && this.usuarios == usuarios && sessions == map[]
      ensures fresh(chatbot) && chatbot.chatHistory == [] && chatbot.agentCalls == []
    {
      this.usuarios := usuarios;
      sessions := map[];
      chatbot := new ChatbotEngine();
    }

    /** The `/api/chat` route. */
    method ChatRoute(client: ClientId, mensagem: string, agent: Agent) returns (reply: Reply)
      requires Valid()
      modifies this, chatbot
      ensures Valid()
      ensures var o := AppStep(usuarios, AppState(old(sessions), old(chatbot.chatHistory)), client, mensagem, agent);
        AppState(sessions, chatbot.chatHistory) == o.state && reply == o.reply &&
        chatbot.agentCalls == old(chatbot.agentCalls) + CallLog(o.call)
    {
      var session := SessionOf(sessions, client);
      assert SessionValid(usuarios, session);
      var cpf := session.cpf;
      if IsSair(mensagem) {
        session := EmptySession;
        chatbot.chatHistory := [];
        reply := Reply(Logout, SessionClosed);
      } else {
        var found := FindCpf(mensagem);
        if !Truthy(cpf) && found.Some? {
          var candidate := CpfMatch(mensagem, found.value);
          if candidate in usuarios {
            session := session.(cpfTemp := Some(candidate));
            reply := Reply(Autenticacao, EnterPassword);
          } else {
            reply := Reply(Erro, CpfNotFound);
          }
        } else if session.cpfTemp.Some? && !Truthy(cpf) {
          var pending := session.cpfTemp.value;
          var senha := Strip(mensagem);
          if usuarios[pending].senha == senha {
            session := session.(cpf := Some(pending), cpfTemp := None);
            chatbot.chatHistory := [];
            reply := Reply(Sucesso, Welcome(usuarios[pending].nome));
          } else {
            session := session.(cpfTemp := None);
            reply := Reply(Erro, WrongPassword);
          }
        } else {
          reply := chatbot.ProcessarMensagem(mensagem, cpf, agent);
        }
      }
      sessions := sessions[client := session];
    }

    /** The `/api/logout` route: clears this client's session and the shared history, whatever their state. */
    method LogoutRoute(client: ClientId)
      requires Valid()
      modifies this, chatbot
      ensures Valid()
      ensures sessions == old(sessions)[client := EmptySession] && chatbot.chatHistory == []
      ensures chatbot.agentCalls == old(chatbot.agentCalls)
    {
      sessions := sessions[client := EmptySession];
      chatbot.chatHistory := [];
    }
  }

  // ---------------------------------------------------------------------------
  // The shared history reaches other clients

  lemma NotSairWhenShort(mensagem: string)
    requires |mensagem| < 4
    ensures !IsSair(mensagem)
  {
    StripLeftIsSuffix(Lower(mensagem));
    StripRightIsPrefix(StripLeft(Lower(mensagem)));
  }

  /**
   * As the code stands: after client "ana" asks about her balance, the agent
   * invoked for client "bia" is handed ana's question and the answer to it.
   */
  lemma SharedHistoryReachesOtherClient(usuarios: Usuarios, agent: Agent, first: string, second: string)
    requires usuarios == map["11111111111" := User("Ana", "a1", []), "22222222222" := User("Bia", "b2", [])]
    requires first == "eu" && second == "oi"
    ensures var st0 := AppState(map["ana" := Session(Some("11111111111"), None), "bia" := Session(Some("22222222222"), None)], []);
      var st1 := AppStep(usuarios, st0, "ana", first, agent).state;
      var r := AppStep(usuarios, st1, "bia", second, agent);
      r.call.Some? && r.call.value.cpf == "22222222222" && HumanMessage(first) in r.call.value.history
  {
    NotSairWhenShort(first);
    NotSairWhenShort(second);
    var st0 := AppState(map["ana" := Session(Some("11111111111"), None), "bia" := Session(Some("22222222222"), None)], []);
    var st1 := AppStep(usuarios, st0, "ana", first, agent).state;
    assert st1.history[0] == HumanMessage(first);
    var r := AppStep(usuarios, st1, "bia", second, agent);
    assert r.call.value.history[0] == HumanMessage(first);
  }

  // ---------------------------------------------------------------------------
  // Corrected: one history per client

  /** The application state with a history per client instead of one shared one. */
  datatype IsolatedState = IsolatedState(sessions: map<ClientId, Session>, histories: map<ClientId, seq<Message>>)

  datatype IsolatedOutcome = IsolatedOutcome(state: IsolatedState, reply: Reply, call: Option<AgentCall>)

  function HistoryOf(histories: map<ClientId, seq<Message>>, client: ClientId): seq<Message> {
    if client in histories then histories[client] else []
  }

  /**
   * The chat route with per-client histories: a request touches only its own
   * client's session and history, and the agent sees only that client's history.
   */
  function IsolatedStep(usuarios: Usuarios, st: IsolatedState, client: ClientId, mensagem: string, agent: Agent): (r: IsolatedOutcome)
    requires PendingKnown(usuarios, SessionOf(st.sessions, client))
    ensures forall other :: other != client ==>
      SessionOf(r.state.sessions, other) == SessionOf(st.sessions, other) &&
      HistoryOf(r.state.histories, other) == HistoryOf(st.histories, other)
    ensures r.call.Some? ==> r.call.value.history == HistoryOf(st.histories, client) + [HumanMessage(mensagem)]
  {
    var o := ChatStep(usuarios, SessionOf(st.sessions, client), HistoryOf(st.histories, client), mensagem, agent);
    IsolatedOutcome(IsolatedState(st.sessions[client := o.session], st.histories[client := o.history]), o.reply, o.call)
  }

  /** The logout route with per-client histories: clears this client's session and history only. */
  function IsolatedLogout(st: IsolatedState, client: ClientId): (r: IsolatedState)
    ensures SessionOf(r.sessions, client) == EmptySession && HistoryOf(r.histories, client) == []
    ensures forall other :: other != client ==>
      SessionOf(r.sessions, other) == SessionOf(st.sessions, other) &&
      HistoryOf(r.histories, other) == HistoryOf(st.histories, other)
  {
    IsolatedState(st.sessions[client := EmptySession], st.histories[client := []])
  }

  /** With per-client histories, the same two requests hand bia's agent only bia's own message. */
  lemma IsolatedHistoryStaysWithClient(usuarios: Usuarios, agent: Agent, first: string, second: string)
    requires usuarios == map["11111111111" := User("Ana", "a1", []), "22222222222" := User("Bia", "b2", [])]
    requires first == "eu" && second == "oi"
    ensures var st0 := IsolatedState(map["ana" := Session(Some("11111111111"), None), "bia" := Session(Some("22222222222"), None)], map[]);
      var st1 := IsolatedStep(usuarios, st0, "ana", first, agent).state;
      var r := IsolatedStep(usuarios, st1, "bia", second, agent);
      r.call == Some(AgentCall(second, [HumanMessage(second)], "22222222222"))
  {
    NotSairWhenShort(first);
    NotSairWhenShort(second);
    var st0 := IsolatedState(map["ana" := Session(Some("11111111111"), None), "bia" := Session(Some("22222222222"), None)], map[]);
    var st1 := IsolatedStep(usuarios, st0, "ana", first, agent).state;
    assert SessionOf(st1.sessions, "bia") == Session(Some("22222222222"), None);
    assert HistoryOf(st1.histories, "bia") == [];
    var o := ChatStep(usuarios, Session(Some("22222222222"), None), [], second, agent);
    assert [] + [HumanMessage(second)] == [HumanMessage(second)];
    assert IsolatedStep(usuarios, st1, "bia", second, agent).call == o.call;
  }

  /** For a lone client the correction changes nothing: both versions take the same step. */
  lemma IsolatedAgreesForOneClient(usuarios: Usuarios, st: AppState, client: ClientId, mensagem: string, agent: Agent)
    requires PendingKnown(usuarios, SessionOf(st.sessions, client))
    ensures var a := AppStep(usuarios, st, client, mensagem, agent);
      var b := IsolatedStep(usuarios, IsolatedState(st.sessions, map[client := st.history]), client, mensagem, agent);
      a.reply == b.reply && a.call == b.call && a.state.sessions == b.state.sessions &&
      a.state.history == HistoryOf(b.state.histories, client)
  {
  }
}
