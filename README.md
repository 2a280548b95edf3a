# BankBot core in Dafny

This project models the core of BankBot, a small Flask banking chatbot (`app.py`).
It covers:

- the start-up load that joins three CSV tables (users, accounts, transactions) into the in-memory `USUARIOS` dictionary;
- the six tools offered to the language-model agent: balance, statement (last five transactions), product catalogue, FAQ lookup and the two guidance texts;
- `ChatbotEngine`, which holds the conversation history and calls the agent only for an authenticated CPF;
- the `/api/chat` route and `/api/logout` route as a state machine over a per-client session (`cpf`, `cpf_temp`), with the process-wide chat history shared by every client, as the program has it.

Modules:

- `Wrappers`: `Option`.
- `Text`: ASCII `lower`, `strip` over Python's full white-space set, substring containment, and the leftmost `\d{11}` search.
- `Ledger`: the data model and the three load passes. `LoadDataFromCsv` is a method with loops, proved against left folds.
- `LoadProperties`: what the load guarantees (last row wins, order kept, every matching transaction routed once).
- `Tools`: the agent tools. `GetFaqAnswer` is a method with a loop, proved against `FaqAnswer`.
- `Chat`: `processar_mensagem` and one chat request as pure functions, plus the authentication-flow lemmas.
- `Server`: the `ChatbotEngine` and `BankChat` classes, whose fields are updated in place, with the correction of the finding below.

The LLM agent is a parameter of type `Agent`: a total function from (input, history, cpf) to `Answered(output)`, `NoOutput` (the reply had no `output` key) or `Failed` (the invocation raised). A ghost field `agentCalls` records every invocation with the arguments it received. Monetary values are whole cents (`int`).

## Model

| member | source | states |
|---|---|---|
| Text.Lower | app.py:287 | `str.lower` keeps the length and lower-cases each character on its own |
| Text.StripLeftIsSuffix | app.py:287 | left strip returns a suffix that does not start with white space, and drops only white space (every character `str.isspace()` accepts, including `\xa0`, `\x85` and `\u3000`) |
| Text.StripRightIsPrefix | app.py:314 | right strip returns a prefix that does not end with white space, and drops only white space (the same set as `str.isspace()`) |
| Text.ContainsMeansOccurs | app.py:173 | the `in` substring test holds exactly when the keyword occurs at some index |
| Text.NotContainedWithoutFirstChar | app.py:173 | a keyword whose first character is absent from the text is not contained in it |
| Text.FindCpfFrom | app.py:297 | the search from a position returns the leftmost run of 11 digits at or after it, or none exists |
| Text.FindCpf | app.py:231 | `re.search(r'\d{11}')` finds a match iff some 11-digit run exists, and the match is the leftmost one |
| Text.CpfMatch | app.py:299 | the matched group is exactly 11 digits |
| Ledger.KindIndex | app.py:47 | the position of an account type in the insertion-ordered `contas` dict is its first occurrence, or the type is absent |
| Ledger.NumberIndex | app.py:60-61 | the account found by number is the first one in insertion order with that number, or none has it |
| Ledger.PutAccount | app.py:47-51 | dict assignment: the type then maps to the new account; other types are unchanged; an existing type keeps its position; a new one goes last; distinct keys stay distinct |
| Ledger.AppendToStatement | app.py:62-67 | appending to one account's `extrato` changes that statement only, by exactly one transaction at the end |
| Ledger.UsersOf | app.py:29-39 | the users pass has a key for exactly the CPFs that occur in some row, each with no accounts |
| Ledger.AddAccount | app.py:44-51 | an account row adds no user and changes no other user; a row with an unknown CPF changes nothing; the row's user keeps name and password |
| Ledger.WithAccounts | app.py:43-51 | the accounts pass adds no user and leaves every name and password unchanged |
| Ledger.AddTransaction | app.py:56-68 | a transaction row adds no user and changes no name, password, account type or account number; only statements can grow |
| Ledger.WithTransactions | app.py:55-68 | the transactions pass keeps the users, and each account's type and number |
| Ledger.LoadDataFromCsv | app.py:27-68 | the three loops build exactly the left fold of the three passes (`Load`) |
| Ledger.LoadUsers | app.py:31-39 | the users loop builds `UsersOf` of the rows |
| Ledger.LoadAccounts | app.py:41-51 | the accounts loop builds `WithAccounts` of the rows |
| Ledger.LoadTransactions | app.py:53-68 | the transactions loop with its inner loop and `break` builds `WithTransactions` of the rows |
| LoadProperties.UsersOfLastRowWins | app.py:33-39 | when a CPF repeats, the user comes from its last row |
| LoadProperties.WithAccountsLastRowWins | app.py:43-51 | when a (CPF, type) pair repeats, the account comes from the last such row, with an empty statement |
| LoadProperties.WithAccountsUntouched | app.py:45-47 | an account type with no row keeps what it had |
| LoadProperties.WithAccountsKeepsDistinctKinds | app.py:47 | every account type occurs at most once in a user's `contas` |
| LoadProperties.WithTransactionsRoutes | app.py:55-68 | each account's statement is its old statement followed by, in file order, exactly the rows whose first matching account it is |
| LoadProperties.RoutingLosesNothing | app.py:59-68 | across all accounts of a user, the routed rows number exactly the rows with that CPF and some matching account number |
| LoadProperties.LoadUsersOnly | app.py:29-45 | after the load, the users are exactly the CPFs in the users file; the other files add none |
| LoadProperties.LoadAccountOfUser | app.py:41-68 | a loaded account has the last row's number and balance, and its statement holds exactly its routed transactions |
| LoadProperties.LoadNoAccountWithoutRow | app.py:41-51 | a type with no account row is absent from the loaded user |
| Tools.LookupAccount | app.py:106-114 | user not found iff the CPF is unknown; no account iff the type is absent; otherwise the account stored under that type |
| Tools.GetAccountBalance | app.py:101-115 | the same three outcomes, reporting the type, number and balance of the stored account |
| Tools.LastFive | app.py:139 | `[-5:]` has min(5, n) elements, which are the last ones in their original order |
| Tools.GetAccountStatement | app.py:119-144 | the same three outcomes; a found account reports its type, number, balance and the last min(5, n) transactions in order |
| Tools.StatementEmptyIffNoTransactions | app.py:135-136 | the "no recent transactions" reply happens exactly when the statement is empty |
| Tools.GetProductInfo | app.py:147-164 | exactly the three categories `cartao`, `emprestimo` and `investimento` give a catalogue entry (the matching `PRODUTOS` entry); anything else gives the generic offer |
| Tools.FirstFaqMatch | app.py:172-174 | the first entry, in declaration order, whose keyword is contained in the text, or none is |
| Tools.GetFaqAnswer | app.py:167-175 | the loop returns the answer of the first matching keyword in the lower-cased query, or the fallback text |
| Tools.FaqPrefersDeclarationOrder | app.py:73-81 | a query containing both `pix` and `cartao` gets the `cartao` answer, since `cartao` is declared first |
| Tools.SimulateTransferGuidance | app.py:178-182 | three steps, and transfers are done in the official app only |
| Tools.SimulatePaymentGuidance | app.py:185-189 | two steps, and payments are done in the official app only |
| Chat.ProcessMessage | app.py:226-264 | the agent is called iff the CPF is truthy, with the history plus the new message. Without a CPF, the reply is "CPF identified" or "give your CPF" and the history is unchanged. With one, an answer becomes the reply and the history gains the human message then that answer; an answer without `output` does the same with the fixed fallback text; a failure leaves only the human message in the history and gives the apology |
| Chat.ChatStep | app.py:280-335 | `sair` in any case/spacing clears the session and history. The agent is called iff the message is not `sair` and the session is authenticated, with that session's CPF and no session change. "CPF identified" never reaches the client. Valid sessions stay valid |
| Chat.SuccessIsLogin | app.py:312-323 | a `sucesso` reply happens exactly when an unauthenticated session becomes authenticated |
| Chat.ChatStepFollowsTransition | app.py:285-330 | the request moves the session through the unauthenticated → pending → authenticated automaton with the stated reply kind |
| Chat.CpfCandidateTakesPrecedence | app.py:296-310 | without a CPF, an 11-digit run is taken as a new candidate even when a password is pending. A known candidate replaces the pending one and asks for the password; an unknown one gives an error |
| Chat.PasswordCheck | app.py:312-329 | a pending CPF with a non-CPF message: the stripped message equal to the password logs in and clears the history; any other clears the pending CPF with an error |
| Chat.UnauthenticatedAsksForCpf | app.py:238-241 | no session and no CPF in the message: ask for the CPF, with nothing changed |
| Chat.AgentFailureKeepsSession | app.py:243-264 | an agent failure keeps the session, keeps the human message in the history and gives the apology |
| Chat.AgentAnswerReachesClient | app.py:243-255 | an agent that answers keeps the session; the client gets the answer (or the fallback text when it has no `output`) and the history gains the human message followed by that answer |
| Chat.DigitRunSurvivesStrip | app.py:297 | an 11-digit run in the stripped message is also one in the raw message |
| Chat.ElevenDigitPasswordRejected | app.py:296-315 | a password containing 11 digits can never log in, because the CPF branch takes it first |
| Chat.PasswordIsCaseSensitive | app.py:315 | `abc123` logs in and `ABC123` is rejected |
| Chat.SairInAnyCase | app.py:287 | `"  SaIr\n"` is a `sair` command |
| Chat.SairWithNoBreakSpace | app.py:287 | `sair` followed by a no-break space is a `sair` command |
| Server.ChatbotEngine.constructor | app.py:222-224 | the engine starts with an empty history |
| Server.ChatbotEngine.ProcessarMensagem | app.py:226-264 | the history and reply are those of `ProcessMessage`, and the agent call is logged |
| Server.ChatbotEngine.DetectarCpf | app.py:266-270 | true iff the message contains 11 consecutive digits |
| Server.AppStep | app.py:280-335 | a request changes only its own client's session. The agent receives the shared history plus the new message |
| Server.BankChat.constructor | app.py:272 | no sessions, and a fresh engine with an empty history |
| Server.BankChat.ChatRoute | app.py:280-335 | sessions, shared history, reply and agent log evolve as `AppStep`, and all sessions stay valid |
| Server.BankChat.LogoutRoute | app.py:337-342 | clears this client's session and the shared history, calls no agent, keeps sessions valid |
| Server.NotSairWhenShort | app.py:287 | a message shorter than four characters is never `sair` |
| Server.SharedHistoryReachesOtherClient | app.py:244-246 | after client `ana` speaks, the agent called for client `bia` receives `ana`'s message |
| Server.IsolatedStep | app.py:244-250 | corrected: a request changes only its own client's session and history, and the agent sees only that client's history |
| Server.IsolatedLogout | app.py:337-342 | corrected: logout clears this client's session and history only |
| Server.IsolatedHistoryStaysWithClient | app.py:244-246 | corrected: in the same scenario, `bia`'s agent receives only `bia`'s message |
| Server.IsolatedAgreesForOneClient | app.py:280-335 | with a single client, the corrected step and the original step coincide |

## Left out

- Flask (requests, JSON, cookies, templates), `load_dotenv`, the API-key check and the browser script: an HTTP request becomes a call of `ChatRoute`/`LogoutRoute` with a client identifier and the message string. A missing `mensagem` field is the empty string.
- CSV parsing and file I/O: each file is given as its sequence of rows with the columns already separated.
- Floating point: balances and transaction values are whole cents, so `float()` rounding is not modelled.
- Tools.GetAccountBalance: returns the account type, number and balance rather than the formatted text (emoji, `capitalize()`, two decimals).
- Tools.GetAccountStatement: returns the transactions rather than the formatted lines; the `+`/`-` sign and absolute value are not modelled.
- Tools.GetProductInfo: returns the `PRODUTOS` entry rather than the formatted text.
- Tools.SimulateTransferGuidance: models the steps and the official-app advice, not the exact wording.
- Tools.SimulatePaymentGuidance: models the steps and the official-app advice, not the exact wording.
- LangChain: the prompt, the tool selection and the model are inside the `Agent` parameter. The model supplies the `cpf` argument of the tools, so nothing ties a tool call to the session's CPF.
- Text.Lower: ASCII only. Python's `lower` also lower-cases non-ASCII letters (`É` becomes `é`); here they stay unchanged.
- Text.FindCpf: `\d` in Python matches any Unicode decimal digit; only `0`-`9` are digits here, so a CPF typed in other digit scripts is not detected.
- Chat.ChatStep: requires that a pending `cpf_temp` is a known user (`PendingKnown`). The route would otherwise raise `KeyError` at line 315; the route itself only stores known CPFs there, so `BankChat.Valid` keeps this true.
- The first statement of `processar_mensagem` (line 228) discards its result, so the raw message goes to the agent. The model does the same and has no member for that line.
- `ChatbotEngine.context` is never read or written after `__init__`, and the debug printing on agent failure is output only.
- Concurrent requests are not modelled: each request runs alone.

## Findings

| source | as written | input that shows it | evidently intended | confidence | as-written member | corrected member |
|---|---|---|---|---|---|---|
| app.py:272 | one `chat_history` on the single `chatbot` object serves every client; login (line 319), `sair` (line 289) and logout (line 341) reset it for all clients | clients `ana` and `bia` are both logged in; `ana` sends `eu`, then `bia` sends `oi`: the agent answering `bia` receives `ana`'s message in its history | each client's conversation history is its own | medium, not executed | Server.SharedHistoryReachesOtherClient | Server.IsolatedStep |
