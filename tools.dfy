/**
 * The six tools the language model may call. Each is a pure lookup over the
 * loaded ledger or the static FAQ and product tables; none changes anything and
 * none raises. The formatted text of each reply is replaced by the data it shows.
 */
module Tools {
  import opened Wrappers
  import opened Text
  import opened Ledger

  /** Outcome of looking up one account of one user, shared by the two account tools. */
  datatype AccountReply<T> = UserNotFound | NoAccount(accountType: string) | Found(value: T)

  /** What the balance tool shows: type, number and stored balance of the account. */
  datatype BalanceInfo = BalanceInfo(accountType: string, numero: string, saldo: int)

  /**
   * What the statement tool shows. An empty `recent` is the reply that there are
   * no recent transactions, with the balance only.
   */
  datatype StatementInfo = StatementInfo(accountType: string, numero: string, recent: seq<Transaction>, saldo: int)

  /** The not-found checks the two account tools share. */
  function LookupAccount(usuarios: Usuarios, cpf: string, accountType: string): (r: AccountReply<Account>)
    ensures r.UserNotFound? <==> cpf !in usuarios
    ensures r.NoAccount? <==> cpf in usuarios && Get(usuarios[cpf].contas, accountType).None?
    ensures r.NoAccount? ==> r.accountType == accountType
    ensures r.Found? ==> cpf in usuarios && Get(usuarios[cpf].contas, accountType) == Some(r.value)
  {
    if cpf !in usuarios then UserNotFound
    else match Get(usuarios[cpf].contas, accountType)
      case None => NoAccount(accountType)
      case Some(conta) => Found(conta)
  }

  /** `get_account_balance`: the stored balance of the account, never one computed from its statement. */
  function GetAccountBalance(usuarios: Usuarios, cpf: string, accountType: string := "corrente"): (r: AccountReply<BalanceInfo>)
    ensures r.UserNotFound? <==> cpf !in usuarios
    ensures r.NoAccount? <==> cpf in usuarios && Get(usuarios[cpf].contas, accountType).None?
    ensures r.NoAccount? ==> r.accountType == accountType
    ensures r.Found? ==>
      cpf in usuarios && Get(usuarios[cpf].contas, accountType).Some? &&
      var conta := Get(usuarios[cpf].contas, accountType).value;
      r.value == BalanceInfo(accountType, conta.numero, conta.saldo)
  {
    match LookupAccount(usuarios, cpf, accountType)
    case UserNotFound => UserNotFound
    case NoAccount(t) => NoAccount(t)
    case Found(conta) => Found(BalanceInfo(accountType, conta.numero, conta.saldo))
  }

  /** Number of transactions a statement shows. */
  const StatementLength: nat := 5

  /** `s[-5:]`: the last five elements, or all of them when there are fewer, in their original order. */
  function LastFive<T>(s: seq<T>): (r: seq<T>)
    ensures |r| == if |s| < StatementLength then |s| else StatementLength
    ensures r == s[|s| - |r|..]
  {
    if |s| <= StatementLength then s else s[|s| - StatementLength..]
  }

  /**
   * `get_account_statement`: at most five transactions, the most recent ones in
   * file order, and the stored balance.
   */
  function GetAccountStatement(usuarios: Usuarios, cpf: string, accountType: string := "corrente"): (r: AccountReply<StatementInfo>)
    ensures r.UserNotFound? <==> cpf !in usuarios
    ensures r.NoAccount? <==> cpf in usuarios && Get(usuarios[cpf].contas, accountType).None?
    ensures r.NoAccount? ==> r.accountType == accountType
    ensures r.Found? ==>
      cpf in usuarios && Get(usuarios[cpf].contas, accountType).Some? &&
      var conta := Get(usuarios[cpf].contas, accountType).value;
      r.value.accountType == accountType && r.value.numero == conta.numero && r.value.saldo == conta.saldo &&
      |r.value.recent| == (if |conta.extrato| < StatementLength then |conta.extrato| else StatementLength) &&
      conta.extrato == conta.extrato[..|conta.extrato| - |r.value.recent|] + r.value.recent
  {
    match LookupAccount(usuarios, cpf, accountType)
    case UserNotFound => UserNotFound
    case NoAccount(t) => NoAccount(t)
    case Found(conta) =>
      var recent := LastFive(conta.extrato);
      assert conta.extrato == conta.extrato[..|conta.extrato| - |recent|] + recent;
      Found(StatementInfo(accountType, conta.numero, recent, conta.saldo))
  }

  /** The statement is empty exactly when the account has no transactions (the balance-only reply). */
  lemma StatementEmptyIffNoTransactions(usuarios: Usuarios, cpf: string, accountType: string)
    requires cpf in usuarios && Get(usuarios[cpf].contas, accountType).Some?
    ensures GetAccountStatement(usuarios, cpf, accountType).Found?
    ensures GetAccountStatement(usuarios, cpf, accountType).value.recent == []
        <==> Get(usuarios[cpf].contas, accountType).value.extrato == []
  {
  }

  // ---------------------------------------------------------------------------
  // Products

  datatype Product =
    | CreditCards(nome: string, tipos: seq<string>, beneficios: string)
    | PersonalLoan(nome: string, taxa: string, prazo: string)
    | Investments(nome: string, opcoes: seq<string>)

  /** `PRODUTOS`. */
  const Produtos: map<string, Product> := map[
    "cartao_credito" := CreditCards("Cartões de Crédito",
                                    ["Básico (sem anuidade)", "Gold (R$ 20/mês)", "Platinum (R$ 50/mês)"],
                                    "Programa de pontos, seguros, descontos em parceiros"),
    "emprestimo" := PersonalLoan("Empréstimo Pessoal", "A partir de 1,5% ao mês", "Até 60 meses"),
    "investimentos" := Investments("Investimentos",
                                   ["CDB", "LCI/LCA", "Tesouro Direto", "Fundos de Investimento", "Previdência Privada"])
  ]

  /** A catalogue entry, or the generic list of the three product families. */
  datatype ProductReply = Catalog(product: Product) | GenericOffer

  /**
   * `get_product_info`: exactly the categories "cartao", "emprestimo" and
   * "investimento" are recognised (compared as given, case-sensitively), each
   * answered with its own catalogue entry; everything else gets the generic reply.
   */
  function GetProductInfo(productCategory: string): (r: ProductReply)
    ensures r.Catalog? <==> productCategory == "cartao" || productCategory == "emprestimo" || productCategory == "investimento"
    ensures productCategory == "cartao" ==> r.product.CreditCards? && r.product == Produtos["cartao_credito"]
    ensures productCategory == "emprestimo" ==> r.product.PersonalLoan? && r.product == Produtos["emprestimo"]
    ensures productCategory == "investimento" ==> r.product.Investments? && r.product == Produtos["investimentos"]
  {
    if productCategory == "cartao" then Catalog(Produtos["cartao_credito"])
    else if productCategory == "emprestimo" then Catalog(Produtos["emprestimo"])
    else if productCategory == "investimento" then Catalog(Produtos["investimentos"])
    else GenericOffer
  }

  // ---------------------------------------------------------------------------
  // FAQ

  datatype FaqEntry = FaqEntry(keyword: string, answer: string)

  // The FAQ answers, one per keyword.
  const HorarioAnswer: string :=
    "Nossas agências funcionam de segunda a sexta-feira, das 10h às 16h. O atendimento digital está disponível 24 horas por dia, 7 dias por semana."
  const CartaoAnswer: string :=
    "Oferecemos diversos tipos de cartões de crédito: Básico (sem anuidade), Gold (benefícios intermediários) e Platinum (benefícios premium). Para solicitar, acesse o menu 'Produtos' no aplicativo."
  const EmprestimoAnswer: string :=
    "Temos linhas de empréstimo pessoal com taxas a partir de 1,5% ao mês. O valor e as condições dependem da sua análise de crédito. Posso transferir você para um especialista?"
  const InvestimentoAnswer: string :=
    "Oferecemos CDB, LCI, LCA, Tesouro Direto, Fundos de Investimento e Previdência Privada. Cada opção tem características específicas de rentabilidade e liquidez."
  const PixAnswer: string :=
    "O Pix é um meio de pagamento instantâneo disponível 24/7. Você pode fazer transferências usando CPF, e-mail, telefone ou chave aleatória."
  const SegurancaAnswer: string :=
    "Nunca compartilhe sua senha, token ou dados do cartão. O banco nunca solicita essas informações por telefone, e-mail ou SMS. Em caso de suspeita de fraude, bloqueie seu cartão imediatamente pelo app."
  const TaxasAnswer: string :=
    "Consulte nossa tabela completa de tarifas em nosso site. Contas digitais têm isenção de várias tarifas. Posso enviar o link por e-mail?"

  /** `FAQ_DATABASE`, in declaration order, which is the order a dict iterates in. */
  const FaqDatabase: seq<FaqEntry> := [
    FaqEntry("horario", HorarioAnswer),
    FaqEntry("cartao", CartaoAnswer),
    FaqEntry("emprestimo", EmprestimoAnswer),
    FaqEntry("investimento", InvestimentoAnswer),
    FaqEntry("pix", PixAnswer),
    FaqEntry("seguranca", SegurancaAnswer),
    FaqEntry("taxas", TaxasAnswer)
  ]

  const FaqFallback: string :=
    "Desculpe, não encontrei uma resposta para sua pergunta nas Perguntas Frequentes. Posso ajudar com dúvidas sobre: horários de atendimento, cartões, empréstimos, investimentos, PIX, segurança e taxas."

  /** Position of the first entry, in order, whose keyword occurs in `text`. */
  function FirstFaqMatch(entries: seq<FaqEntry>, text: string): (r: Option<nat>)
    ensures r.Some? ==> r.value < |entries| && Contains(text, entries[r.value].keyword)
    ensures r.Some? ==> forall j :: 0 <= j < r.value ==> !Contains(text, entries[j].keyword)
    ensures r.None? ==> forall j :: 0 <= j < |entries| ==> !Contains(text, entries[j].keyword)
  {
    if entries == [] then None
    else if Contains(text, entries[0].keyword) then Some(0)
    else match FirstFaqMatch(entries[1..], text)
      case Some(i) => Some(i + 1)
      case None => None
  }

  /** The answer `get_faq_answer` gives for `query`. */
  function FaqAnswer(query: string): string {
    match FirstFaqMatch(FaqDatabase, Lower(query))
    case Some(i) => FaqDatabase[i].answer
    case None => FaqFallback
  }

  /**
   * `get_faq_answer`: walks the FAQ in declaration order and returns the answer
   * of the first keyword that occurs in the lower-cased query, or the fallback.
   */
  method GetFaqAnswer(query: string) returns (answer: string)
    ensures answer == FaqAnswer(query)
  {
    var text := Lower(query);
    for i := 0 to |FaqDatabase|
      invariant forall j :: 0 <= j < i ==> !Contains(text, FaqDatabase[j].keyword)
    {
      if Contains(text, FaqDatabase[i].keyword) {
        assert FirstFaqMatch(FaqDatabase, text) == Some(i);
        return FaqDatabase[i].answer;
      }
    }
    return FaqFallback;
  }

  /** An entry after one that does not match, and that matches itself, is the first match. */
  lemma FirstFaqMatchSecond(entries: seq<FaqEntry>, text: string)
    requires |entries| >= 2
    requires !Contains(text, entries[0].keyword) && Contains(text, entries[1].keyword)
    ensures FirstFaqMatch(entries, text) == Some(1)
  {
    assert FirstFaqMatch(entries[1..], text) == Some(0);
  }

  lemma LowerPixCartao(query: string)
    requires query == "Pix CARTAO"
    ensures Lower(query) == "pix cartao"
  {
  }

  lemma PixCartaoKeywords(text: string)
    requires text == "pix cartao"
    ensures Contains(text, "cartao") && !Contains(text, "horario")
  {
    assert OccursAt(text, "cartao", 4);
    ContainsMeansOccurs(text, "cartao");
    NotContainedWithoutFirstChar(text, "horario");
  }

  /**
   * The answer is that of the earliest keyword present: a query naming both
   * "cartao" and "pix" gets the "cartao" answer, declared first.
   */
  lemma FaqPrefersDeclarationOrder(query: string)
    requires query == "Pix CARTAO"
    ensures FaqAnswer(query) == CartaoAnswer
  {
    LowerPixCartao(query);
    PixCartaoKeywords(Lower(query));
    FirstFaqMatchSecond(FaqDatabase, Lower(query));
  }

  // ---------------------------------------------------------------------------
  // Guidance

  /** Instructions only: the steps to prepare, and that the operation is done in the bank's official app. */
  datatype Guidance = Guidance(steps: seq<string>, officialAppOnly: bool)

  /** `simulate_transfer_guidance`: the three things a transfer needs; it never performs one. */
  function SimulateTransferGuidance(): (r: Guidance)
    ensures r.officialAppOnly && |r.steps| == 3
  {
    Guidance(["Tipo (PIX, TED ou DOC)", "Valor", "Dados do beneficiário"], true)
  }

  /** `simulate_payment_guidance`: the two ways to enter a bill; it never pays one. */
  function SimulatePaymentGuidance(): (r: Guidance)
    ensures r.officialAppOnly && |r.steps| == 2
  {
    Guidance(["Escanear o código de barras do boleto", "Digitar o código manualmente"], true)
  }
}
