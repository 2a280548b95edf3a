/**
 * The in-memory ledger `USUARIOS` and the three-pass tolerant join that builds
 * it from the rows of users.csv, accounts.csv and transactions.csv.
 *
 * A user's accounts are a Python dict keyed by account type. Its iteration order
 * (insertion order) decides which account receives a transaction, so the model
 * keeps the accounts as an ordered list of (type, account) entries: assigning an
 * existing type replaces the entry in place, a new type is appended.
 * Amounts are integer cents.
 */
module Ledger {
  import opened Wrappers

  datatype Transaction = Transaction(data: string, descricao: string, valor: int, tipo: string)

  /** `saldo` is loaded from accounts.csv and never derived from `extrato`. */
  datatype Account = Account(numero: string, saldo: int, extrato: seq<Transaction>)

  datatype AccountEntry = AccountEntry(kind: string, account: Account)

  datatype User = User(nome: string, senha: string, contas: seq<AccountEntry>)

  /** `USUARIOS`, keyed by CPF. */
  type Usuarios = map<string, User>

  // One already-parsed row of each CSV file.
  datatype UserRow = UserRow(cpf: string, name: string, password: string)
  datatype AccountRow = AccountRow(cpf: string, accountType: string, accountNumber: string, balance: int)
  datatype TransactionRow =
    TransactionRow(cpf: string, accountNumber: string, date: string, description: string, value: int, kind: string)

  function TransactionOf(row: TransactionRow): Transaction {
    Transaction(row.date, row.description, row.value, row.kind)
  }

  // ---------------------------------------------------------------------------
  // The accounts of one user: an insertion-ordered dict

  /** Position of the account of type `kind`: the dict lookup `contas[kind]`. */
  function KindIndex(contas: seq<AccountEntry>, kind: string): (r: Option<nat>)
    ensures r.Some? ==> r.value < |contas| && contas[r.value].kind == kind
    ensures r.Some? ==> forall j :: 0 <= j < r.value ==> contas[j].kind != kind
    ensures r.None? ==> forall j :: 0 <= j < |contas| ==> contas[j].kind != kind
  {
    if contas == [] then None
    else if contas[0].kind == kind then Some(0)
    else match KindIndex(contas[1..], kind)
      case Some(i) => Some(i + 1)
      case None => None
  }

  /** The first account, in insertion order, whose number is `numero`. */
  function NumberIndex(contas: seq<AccountEntry>, numero: string): (r: Option<nat>)
    ensures r.Some? ==> r.value < |contas| && contas[r.value].account.numero == numero
    ensures r.Some? ==> forall j :: 0 <= j < r.value ==> contas[j].account.numero != numero
    ensures r.None? ==> forall j :: 0 <= j < |contas| ==> contas[j].account.numero != numero
  {
    if contas == [] then None
    else if contas[0].account.numero == numero then Some(0)
    else match NumberIndex(contas[1..], numero)
      case Some(i) => Some(i + 1)
      case None => None
  }

  /** `contas.get(kind)`. */
  function Get(contas: seq<AccountEntry>, kind: string): Option<Account> {
    match KindIndex(contas, kind)
    case Some(i) => Some(contas[i].account)
    case None => None
  }

  /** A dict has each key once. */
  predicate DistinctKinds(contas: seq<AccountEntry>) {
    forall i, j :: 0 <= i < j < |contas| ==> contas[i].kind != contas[j].kind
  }

  /** Two account lists that differ at most in their statements. */
  predicate SameShape(x: seq<AccountEntry>, y: seq<AccountEntry>) {
    |x| == |y| &&
    forall i :: 0 <= i < |x| ==>
      x[i].kind == y[i].kind && x[i].account.numero == y[i].account.numero && x[i].account.saldo == y[i].account.saldo
  }

  lemma NumberIndexOfSameShape(x: seq<AccountEntry>, y: seq<AccountEntry>, numero: string)
    requires SameShape(x, y)
    ensures NumberIndex(x, numero) == NumberIndex(y, numero)
  {
  }

  lemma KindIndexOfSameKinds(x: seq<AccountEntry>, y: seq<AccountEntry>, kind: string)
    requires |x| == |y| && forall i :: 0 <= i < |x| ==> x[i].kind == y[i].kind
    ensures KindIndex(x, kind) == KindIndex(y, kind)
  {
  }

  lemma KindIndexAfterAppend(contas: seq<AccountEntry>, e: AccountEntry, k: string)
    requires KindIndex(contas, e.kind).None?
    ensures KindIndex(contas + [e], k) == if k == e.kind then Some(|contas|) else KindIndex(contas, k)
  {
    var r := contas + [e];
    var v := KindIndex(r, k);
    assert forall j :: 0 <= j < |contas| ==> r[j] == contas[j];
    if v.None? {
      assert r[|contas|].kind != k;
    }
  }

  /**
   * `contas[kind] = account`: a lookup of `kind` afterwards finds `account`, every
   * other type is looked up as before, and the types already present keep their
   * places (a new type goes last).
   */
  function PutAccount(contas: seq<AccountEntry>, kind: string, account: Account): (r: seq<AccountEntry>)
    ensures Get(r, kind) == Some(account)
    ensures forall k :: k != kind ==> Get(r, k) == Get(contas, k)
    ensures |contas| <= |r| <= |contas| + 1
    ensures forall i :: 0 <= i < |contas| ==> r[i].kind == contas[i].kind
    ensures DistinctKinds(contas) ==> DistinctKinds(r)
  {
    match KindIndex(contas, kind)
    case Some(i) =>
      var r := contas[i := AccountEntry(kind, account)];
      assert forall k :: KindIndex(r, k) == KindIndex(contas, k) by {
        forall k { KindIndexOfSameKinds(r, contas, k); }
      }
      r
    case None =>
      var r := contas + [AccountEntry(kind, account)];
      forall k ensures KindIndex(r, k) == if k == kind then Some(|contas|) else KindIndex(contas, k) {
        KindIndexAfterAppend(contas, AccountEntry(kind, account), k);
      }
      r
  }

  /** Appends `tx` to the statement of entry `i` and changes nothing else. */
  function AppendToStatement(contas: seq<AccountEntry>, i: nat, tx: Transaction): (r: seq<AccountEntry>)
    requires i < |contas|
    ensures SameShape(r, contas)
    ensures r[i].account.extrato == contas[i].account.extrato + [tx]
    ensures forall j :: 0 <= j < |r| && j != i ==> r[j] == contas[j]
  {
    var e := contas[i];
    contas[i := e.(account := e.account.(extrato := e.account.extrato + [tx]))]
  }

  // ---------------------------------------------------------------------------
  // The three passes of the load, one row at a time

  /** First pass: every row of users.csv (re)defines the user of its CPF, with no accounts. */
  function UsersOf(rows: seq<UserRow>): (r: Usuarios)
    ensures forall c :: c in r <==> exists i :: 0 <= i < |rows| && rows[i].cpf == c
    ensures forall c :: c in r ==> r[c].contas == []
  {
    if rows == [] then map[]
    else
      var last := rows[|rows| - 1];
      var r := UsersOf(rows[..|rows| - 1])[last.cpf := User(last.name, last.password, [])];
      assert forall i :: 0 <= i < |rows| - 1 ==> rows[..|rows| - 1][i] == rows[i];
      r
  }

  /** One row of accounts.csv: attached by type to a known CPF, dropped otherwise. */
  function AddAccount(usuarios: Usuarios, row: AccountRow): (r: Usuarios)
    ensures r.Keys == usuarios.Keys
    ensures forall c :: c in r && c != row.cpf ==> r[c] == usuarios[c]
    ensures row.cpf in r ==>
      r[row.cpf].nome == usuarios[row.cpf].nome && r[row.cpf].senha == usuarios[row.cpf].senha
  {
    if row.cpf in usuarios then
      var u := usuarios[row.cpf];
      usuarios[row.cpf := u.(contas := PutAccount(u.contas, row.accountType, Account(row.accountNumber, row.balance, [])))]
    else usuarios
  }

  /** Second pass. */
  function WithAccounts(usuarios: Usuarios, rows: seq<AccountRow>): (r: Usuarios)
    ensures r.Keys == usuarios.Keys
    ensures forall c :: c in r ==> r[c].nome == usuarios[c].nome && r[c].senha == usuarios[c].senha
  {
    if rows == [] then usuarios
    else AddAccount(WithAccounts(usuarios, rows[..|rows| - 1]), rows[|rows| - 1])
  }

  /**
   * One row of transactions.csv: appended to the first account (in insertion
   * order) of its CPF whose number matches; dropped when the CPF is unknown or
   * no account matches.
   */
  function AddTransaction(usuarios: Usuarios, row: TransactionRow): (r: Usuarios)
    ensures r.Keys == usuarios.Keys
    ensures forall c :: c in r ==>
      r[c].nome == usuarios[c].nome && r[c].senha == usuarios[c].senha && SameShape(r[c].contas, usuarios[c].contas)
  {
    if row.cpf in usuarios then
      var u := usuarios[row.cpf];
      match NumberIndex(u.contas, row.accountNumber)
      case Some(i) => usuarios[row.cpf := u.(contas := AppendToStatement(u.contas, i, TransactionOf(row)))]
      case None => usuarios
    else usuarios
  }

  /** Third pass. */
  function WithTransactions(usuarios: Usuarios, rows: seq<TransactionRow>): (r: Usuarios)
    ensures r.Keys == usuarios.Keys
    ensures forall c :: c in r ==>
      r[c].nome == usuarios[c].nome && r[c].senha == usuarios[c].senha && SameShape(r[c].contas, usuarios[c].contas)
  {
    if rows == [] then usuarios
    else AddTransaction(WithTransactions(usuarios, rows[..|rows| - 1]), rows[|rows| - 1])
  }

  /** The whole of `load_data_from_csv`. */
  function Load(users: seq<UserRow>, accounts: seq<AccountRow>, transactions: seq<TransactionRow>): Usuarios {
    WithTransactions(WithAccounts(UsersOf(users), accounts), transactions)
  }

  /** `load_data_from_csv`: the three passes in turn, each over the rows of one file. */
  method LoadDataFromCsv(users: seq<UserRow>, accounts: seq<AccountRow>, transactions: seq<TransactionRow>)
    returns (usuarios: Usuarios)
    ensures usuarios == Load(users, accounts, transactions)
  {
    usuarios := LoadUsers(users);
    usuarios := LoadAccounts(usuarios, accounts);
    usuarios := LoadTransactions(usuarios, transactions);
  }

  /** The users.csv pass, on an emptied `USUARIOS`. */
  method LoadUsers(rows: seq<UserRow>) returns (usuarios: Usuarios)
    ensures usuarios == UsersOf(rows)
  {
    usuarios := map[];
    for n := 0 to |rows|
      invariant usuarios == UsersOf(rows[..n])
    {
      var row := rows[n];
      usuarios := usuarios[row.cpf := User(row.name, row.password, [])];
      assert rows[..n + 1][..n] == rows[..n];
    }
    assert rows[..|rows|] == rows;
  }

  /** The accounts.csv pass. */
  method LoadAccounts(usuarios0: Usuarios, rows: seq<AccountRow>) returns (usuarios: Usuarios)
    ensures usuarios == WithAccounts(usuarios0, rows)
  {
    usuarios := usuarios0;
    for n := 0 to |rows|
      invariant usuarios == WithAccounts(usuarios0, rows[..n])
    {
      var row := rows[n];
      if row.cpf in usuarios {
        var user := usuarios[row.cpf];
        usuarios := usuarios[row.cpf := user.(contas := PutAccount(user.contas, row.accountType, Account(row.accountNumber, row.balance, [])))];
      }
      assert rows[..n + 1][..n] == rows[..n];
    }
    assert rows[..|rows|] == rows;
  }

  /**
   * The transactions.csv pass, with the inner search over the user's accounts
   * that appends to the first one whose number matches and stops there.
   */
  method LoadTransactions(usuarios0: Usuarios, rows: seq<TransactionRow>) returns (usuarios: Usuarios)
    ensures usuarios == WithTransactions(usuarios0, rows)
  {
    usuarios := usuarios0;
    for n := 0 to |rows|
      invariant usuarios == WithTransactions(usuarios0, rows[..n])
    {
      var row := rows[n];
      ghost var before := usuarios;
      if row.cpf in usuarios {
        var contas := usuarios[row.cpf].contas;
        var j := 0;
        while j < |contas|
          invariant 0 <= j <= |contas|
          invariant usuarios == before
          invariant forall k :: 0 <= k < j ==> contas[k].account.numero != row.accountNumber
        {
          if contas[j].account.numero == row.accountNumber {
            var user := usuarios[row.cpf];
            usuarios := usuarios[row.cpf := user.(contas := AppendToStatement(contas, j, TransactionOf(row)))];
            assert NumberIndex(contas, row.accountNumber) == Some(j);
            break;
          }
          j := j + 1;
        }
      }
      assert usuarios == AddTransaction(before, row);
      assert rows[..n + 1][..n] == rows[..n];
    }
    assert rows[..|rows|] == rows;
  }
}
