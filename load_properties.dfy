/**
 * What the tolerant join of `load_data_from_csv` guarantees: which user and which
 * account each row ends up in, what is dropped, and that statements keep file order.
 */
module LoadProperties {
  import opened Wrappers
  import opened Ledger

  /** Later rows of users.csv win: a CPF is a user exactly when some row names it, with the last such row's data. */
  lemma {:induction false} UsersOfLastRowWins(rows: seq<UserRow>, c: string, i: nat)
    requires i < |rows| && rows[i].cpf == c
    requires forall j :: i < j < |rows| ==> rows[j].cpf != c
    ensures c in UsersOf(rows) && UsersOf(rows)[c] == User(rows[i].name, rows[i].password, [])
  {
    if i < |rows| - 1 {
      var prefix := rows[..|rows| - 1];
      assert prefix[i] == rows[i];
      forall j | i < j < |prefix| ensures prefix[j].cpf != c {
        assert prefix[j] == rows[j];
      }
      UsersOfLastRowWins(prefix, c, i);
    }
  }

  /**
   * Later rows of accounts.csv win: after the pass, the account of type `k` of a
   * known CPF `c` is the one of the last row for (`c`, `k`), with an empty statement.
   */
  lemma {:induction false} WithAccountsLastRowWins(usuarios: Usuarios, rows: seq<AccountRow>, c: string, k: string, i: nat)
    requires c in usuarios
    requires i < |rows| && rows[i].cpf == c && rows[i].accountType == k
    requires forall j :: i < j < |rows| ==> rows[j].cpf != c || rows[j].accountType != k
    ensures Get(WithAccounts(usuarios, rows)[c].contas, k) == Some(Account(rows[i].accountNumber, rows[i].balance, []))
  {
    var prefix := rows[..|rows| - 1];
    if i < |rows| - 1 {
      assert prefix[i] == rows[i];
      forall j | i < j < |prefix| ensures prefix[j].cpf != c || prefix[j].accountType != k {
        assert prefix[j] == rows[j];
      }
      WithAccountsLastRowWins(usuarios, prefix, c, k, i);
    }
  }

  /**
   * Account rows of other CPFs, or of other types, leave the account of type `k`
   * of `c` as it was; in particular a row whose CPF is unknown changes nothing.
   */
  lemma {:induction false} WithAccountsUntouched(usuarios: Usuarios, rows: seq<AccountRow>, c: string, k: string)
    requires c in usuarios
    requires forall j :: 0 <= j < |rows| ==> rows[j].cpf != c || rows[j].accountType != k
    ensures Get(WithAccounts(usuarios, rows)[c].contas, k) == Get(usuarios[c].contas, k)
  {
    if rows != [] {
      var prefix := rows[..|rows| - 1];
      forall j | 0 <= j < |prefix| ensures prefix[j].cpf != c || prefix[j].accountType != k {
        assert prefix[j] == rows[j];
      }
      WithAccountsUntouched(usuarios, prefix, c, k);
    }
  }

  /** The account pass keeps every user's types distinct, as a dict does. */
  lemma {:induction false} WithAccountsKeepsDistinctKinds(usuarios: Usuarios, rows: seq<AccountRow>, c: string)
    requires c in usuarios && DistinctKinds(usuarios[c].contas)
    ensures DistinctKinds(WithAccounts(usuarios, rows)[c].contas)
  {
    if rows != [] {
      WithAccountsKeepsDistinctKinds(usuarios, rows[..|rows| - 1], c);
    }
  }

  /**
   * The transactions of the rows of `rows` for CPF `c` whose first account with
   * a matching number is entry `i` of `contas`, in file order.
   */
  function Routed(rows: seq<TransactionRow>, c: string, contas: seq<AccountEntry>, i: nat): seq<Transaction> {
    if rows == [] then []
    else
      var last := rows[|rows| - 1];
      Routed(rows[..|rows| - 1], c, contas, i)
      + (if last.cpf == c && NumberIndex(contas, last.accountNumber) == Some(i) then [TransactionOf(last)] else [])
  }

  /**
   * The transaction pass appends to each account of a known CPF exactly the
   * transactions routed to it, in file order, and changes no type, number or
   * balance; the user's name and password stay as they were.
   */
  lemma {:induction false} WithTransactionsRoutes(usuarios: Usuarios, rows: seq<TransactionRow>, c: string)
    requires c in usuarios
    ensures c in WithTransactions(usuarios, rows)
    ensures var before, after := usuarios[c].contas, WithTransactions(usuarios, rows)[c].contas;
      SameShape(after, before) &&
      forall i :: 0 <= i < |after| ==>
        after[i].account.extrato == before[i].account.extrato + Routed(rows, c, before, i)
  {
    var before := usuarios[c].contas;
    if rows != [] {
      var prefix, last := rows[..|rows| - 1], rows[|rows| - 1];
      WithTransactionsRoutes(usuarios, prefix, c);
      var mid := WithTransactions(usuarios, prefix);
      var after := WithTransactions(usuarios, rows)[c].contas;
      NumberIndexOfSameShape(mid[c].contas, before, last.accountNumber);
      forall i | 0 <= i < |after|
        ensures after[i].account.extrato == before[i].account.extrato + Routed(rows, c, before, i)
      {
        AddTransactionEffect(mid, last, c, i);
      }
    }
  }

  /** One transaction row grows entry `i`'s statement by that row exactly when `i` is its first matching account. */
  lemma AddTransactionEffect(usuarios: Usuarios, row: TransactionRow, c: string, i: nat)
    requires c in usuarios && i < |usuarios[c].contas|
    ensures var contas, after := usuarios[c].contas, AddTransaction(usuarios, row)[c].contas;
      after[i].account.extrato == contas[i].account.extrato
        + (if row.cpf == c && NumberIndex(contas, row.accountNumber) == Some(i) then [TransactionOf(row)] else [])
  {
  }

  // ---------------------------------------------------------------------------
  // Nothing is lost and nothing is duplicated

  /** Number of rows for CPF `c` whose number matches some account of `contas`. */
  function Matched(rows: seq<TransactionRow>, c: string, contas: seq<AccountEntry>): nat {
    if rows == [] then 0
    else
      var last := rows[|rows| - 1];
      Matched(rows[..|rows| - 1], c, contas)
      + (if last.cpf == c && NumberIndex(contas, last.accountNumber).Some? then 1 else 0)
  }

  /** Transactions routed to the first `n` accounts, all together. */
  function RoutedTotal(rows: seq<TransactionRow>, c: string, contas: seq<AccountEntry>, n: nat): nat {
    if n == 0 then 0 else RoutedTotal(rows, c, contas, n - 1) + |Routed(rows, c, contas, n - 1)|
  }

  lemma {:induction false} RoutedTotalStep(rows: seq<TransactionRow>, c: string, contas: seq<AccountEntry>, n: nat)
    requires rows != []
    ensures var last := rows[|rows| - 1];
      RoutedTotal(rows, c, contas, n) == RoutedTotal(rows[..|rows| - 1], c, contas, n)
        + (if last.cpf == c && NumberIndex(contas, last.accountNumber).Some?
              && NumberIndex(contas, last.accountNumber).value < n then 1 else 0)
  {
    if n > 0 {
      RoutedTotalStep(rows, c, contas, n - 1);
    }
  }

  /**
   * Every matched row lands in exactly one account: the statements of a user
   * together hold as many transactions as there are matched rows for that CPF.
   */
  lemma {:induction false} RoutingLosesNothing(rows: seq<TransactionRow>, c: string, contas: seq<AccountEntry>)
    ensures RoutedTotal(rows, c, contas, |contas|) == Matched(rows, c, contas)
  {
    if rows == [] {
      RoutedTotalEmpty(c, contas, |contas|);
    } else {
      RoutedTotalStep(rows, c, contas, |contas|);
      RoutingLosesNothing(rows[..|rows| - 1], c, contas);
    }
  }

  lemma {:induction false} RoutedTotalEmpty(c: string, contas: seq<AccountEntry>, n: nat)
    ensures RoutedTotal([], c, contas, n) == 0
  {
    if n > 0 {
      RoutedTotalEmpty(c, contas, n - 1);
    }
  }

  // ---------------------------------------------------------------------------
  // The whole load

  /**
   * A CPF is in the loaded ledger exactly when users.csv names it; account and
   * transaction rows never create a user.
   */
  lemma LoadUsersOnly(users: seq<UserRow>, accounts: seq<AccountRow>, transactions: seq<TransactionRow>, c: string)
    ensures c in Load(users, accounts, transactions) <==> exists i :: 0 <= i < |users| && users[i].cpf == c
  {
  }

  /**
   * For a loaded user: the account types are exactly those of the account rows
   * for that CPF, each account has the number and balance of the last such row,
   * and its statement is exactly the transactions routed to it, in file order.
   */
  lemma {:induction false} LoadAccountOfUser(users: seq<UserRow>, accounts: seq<AccountRow>, transactions: seq<TransactionRow>,
                                             c: string, k: string, i: nat)
    requires c in Load(users, accounts, transactions)
    requires i < |accounts| && accounts[i].cpf == c && accounts[i].accountType == k
    requires forall j :: i < j < |accounts| ==> accounts[j].cpf != c || accounts[j].accountType != k
    ensures var withAccounts := WithAccounts(UsersOf(users), accounts)[c].contas;
      var contas := Load(users, accounts, transactions)[c].contas;
      KindIndex(contas, k).Some? &&
      var e := contas[KindIndex(contas, k).value];
      e.account.numero == accounts[i].accountNumber && e.account.saldo == accounts[i].balance &&
      e.account.extrato == Routed(transactions, c, withAccounts, KindIndex(contas, k).value)
  {
    var base := UsersOf(users);
    var mid := WithAccounts(base, accounts);
    WithAccountsLastRowWins(base, accounts, c, k, i);
    WithTransactionsRoutes(mid, transactions, c);
    var contas := Load(users, accounts, transactions)[c].contas;
    KindIndexOfSameKinds(contas, mid[c].contas, k);
  }

  /** A type with no account row for a loaded CPF has no account after the load. */
  lemma {:induction false} LoadNoAccountWithoutRow(users: seq<UserRow>, accounts: seq<AccountRow>, transactions: seq<TransactionRow>,
                                                   c: string, k: string)
    requires c in Load(users, accounts, transactions)
    requires forall j :: 0 <= j < |accounts| ==> accounts[j].cpf != c || accounts[j].accountType != k
    ensures KindIndex(Load(users, accounts, transactions)[c].contas, k).None?
  {
    var base := UsersOf(users);
    var mid := WithAccounts(base, accounts);
    WithAccountsUntouched(base, accounts, c, k);
    var contas := Load(users, accounts, transactions)[c].contas;
    KindIndexOfSameKinds(contas, mid[c].contas, k);
  }
}
