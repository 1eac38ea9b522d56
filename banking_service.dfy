/**
 The ledger service: account provisioning, deposits and withdrawals, and
 the two queries, over the three stores. Each operation is one atomic
 step. The random source and the clock are inputs: `attempts` holds the
 draws of successive account-number attempts, `now` the current time.
 */
module Services {
  import opened Models
  import opened Ledger
  import opened AccountNumbers
  import opened Repositories

  class BankingService {
    const clientStore: ClientStore
    const accountStore: AccountStore
    const transactionStore: TransactionStore

    /** The balance each account was opened with. */
    ghost var openingBalance: map<int, int>

    /**
     The service's invariant: the stores are consistent, every account
     belongs to a client, every entry to an account, and every account's
     history is a chain of legal steps from its opening balance whose last
     snapshot is the stored balance.
     */
    ghost predicate Valid()
      reads this, clientStore, accountStore, transactionStore
    {
      && clientStore.Valid() && accountStore.Valid() && transactionStore.Valid()
      && (forall id :: id in accountStore.accounts ==>
            accountStore.accounts[id].clientId in clientStore.clients)
      && Consistent(accountStore.accounts, openingBalance, transactionStore.transactions)
    }

    /**
     A service over the given stores. `opening` is the balance each account
     was opened with; the ledger must be consistent with it, as it is after
     any sequence of the service's operations.
     */
    constructor (clientStore: ClientStore, accountStore: AccountStore, transactionStore: TransactionStore,
                 ghost opening: map<int, int>)
      requires clientStore.Valid() && accountStore.Valid() && transactionStore.Valid()
      requires forall id :: id in accountStore.accounts ==>
                 accountStore.accounts[id].clientId in clientStore.clients
      requires Consistent(accountStore.accounts, opening, transactionStore.transactions)
      ensures Valid()
      ensures this.clientStore == clientStore && this.accountStore == accountStore
      ensures this.transactionStore == transactionStore
      ensures openingBalance == opening
    {
      this.clientStore := clientStore;
      this.accountStore := accountStore;
      this.transactionStore := transactionStore;
      openingBalance := opening;
    }

    /** Registers a client; the client store assigns its identity. */
    method CreateClient(client: Client) returns (r: Client)
      requires Valid()
      modifies clientStore
      ensures Valid()
      ensures r == client.(id := old(clientStore.nextId)) && r.id !in old(clientStore.clients)
      ensures clientStore.clients == old(clientStore.clients)[r.id := r]
      ensures clientStore.nextId == old(clientStore.nextId) + 1
    {
      r := clientStore.AddClient(client);
    }

    /**
     Opens an account for client `clientId` holding `initialBalance`. The
     number is the first attempt that no stored account uses; the source
     retries without bound, so the model needs one such attempt to exist.
     */
    method CreateAccount(clientId: int, initialBalance: int, attempts: seq<Draws>) returns (r: Result<Account>)
      requires Valid()
      requires clientId in clientStore.clients ==>
                 exists i :: 0 <= i < |attempts| && !accountStore.AccountExists(GenerateAccountNumber(attempts[i]))
      modifies this, accountStore
      ensures Valid()
      ensures r.Err? <==> clientId !in clientStore.clients
      ensures r.Err? ==> r.error == ArgumentError(ClientNotFound)
      ensures r.Err? ==> accountStore.accounts == old(accountStore.accounts)
      ensures accountStore.nextId == old(accountStore.nextId) + (if r.Ok? then 1 else 0)
      ensures openingBalance == if r.Ok? then old(openingBalance)[r.value.id := initialBalance] else old(openingBalance)
      ensures r.Ok? ==>
                && r.value.clientId == clientId && r.value.balance == initialBalance
                && r.value.id == old(accountStore.nextId) && r.value.id !in old(accountStore.accounts)
                && accountStore.accounts == old(accountStore.accounts)[r.value.id := r.value]
      ensures r.Ok? ==>
                && IsAccountNumber(r.value.accountNumber)
                && !old(accountStore.AccountExists(r.value.accountNumber))
                && exists i :: 0 <= i < |attempts|
                                 && r.value.accountNumber == GenerateAccountNumber(attempts[i])
                                 && forall j :: 0 <= j < i ==>
                                      old(accountStore.AccountExists(GenerateAccountNumber(attempts[j])))
    {
      var client := clientStore.GetClientById(clientId);
      if client.None? {
        return Err(ArgumentError(ClientNotFound));
      }
      var i, number := UnusedNumber(attempts);
      var account := Account(0, number, initialBalance, clientId);
      ghost var before := accountStore.accounts;
      account := accountStore.AddAccount(account);
      ConsistentAfterOpening(before, openingBalance, transactionStore.transactions, account);
      openingBalance := openingBalance[account.id := initialBalance];
      r := Ok(account);
    }

    /**
     The retry loop of account creation: the first attempt whose number no
     stored account uses, together with its position.
     */
    method UnusedNumber(attempts: seq<Draws>) returns (i: int, number: string)
      requires exists k :: 0 <= k < |attempts| && !accountStore.AccountExists(GenerateAccountNumber(attempts[k]))
      ensures 0 <= i < |attempts| && number == GenerateAccountNumber(attempts[i])
      ensures !accountStore.AccountExists(number)
      ensures forall j :: 0 <= j < i ==> accountStore.AccountExists(GenerateAccountNumber(attempts[j]))
    {
      ghost var bound :| 0 <= bound < |attempts| && !accountStore.AccountExists(GenerateAccountNumber(attempts[bound]));
      i := 0;
      number := GenerateAccountNumber(attempts[0]);
      while accountStore.AccountExists(number)
        invariant 0 <= i <= bound && number == GenerateAccountNumber(attempts[i])
        invariant forall j :: 0 <= j < i ==> accountStore.AccountExists(GenerateAccountNumber(attempts[j]))
        decreases bound - i
      {
        assert i != bound;
        forall j | 0 <= j < i + 1
          ensures accountStore.AccountExists(GenerateAccountNumber(attempts[j]))
        {
          if j == i {
            assert GenerateAccountNumber(attempts[j]) == number;
          }
        }
        i := i + 1;
        number := GenerateAccountNumber(attempts[i]);
      }
    }

    /** The balance of the account with number `accountNumber`, or nothing if there is none. */
    function GetAccountBalance(accountNumber: string): (r: Option<int>)
      reads accountStore
      requires accountStore.Valid()
      ensures r.None? <==> !accountStore.AccountExists(accountNumber)
      ensures forall id :: id in accountStore.accounts && accountStore.accounts[id].accountNumber == accountNumber ==>
                r == Some(accountStore.accounts[id].balance)
    {
      var account := accountStore.GetAccountByNumber(accountNumber);
      if account.Some? then Some(account.value.balance) else None
    }

    /**
     Applies one legal movement to a stored account and records it: the
     account is written back with the new balance, then an entry holding
     that balance is appended.
     */
    method Record(account: Account, kind: TransactionType, amount: int, now: int) returns (t: Transaction)
      requires Valid()
      requires account.id in accountStore.accounts && accountStore.accounts[account.id] == account
      requires amount > 0 && (kind == Withdrawal ==> amount <= account.balance)
      modifies accountStore, transactionStore
      ensures Valid()
      ensures t.balanceAfter == if kind == TransactionType.Deposit then account.balance + amount else account.balance - amount
      ensures t == Transaction(|old(transactionStore.transactions)| + 1, account.id, kind, amount, now, t.balanceAfter)
      ensures transactionStore.transactions == old(transactionStore.transactions) + [t]
      ensures accountStore.accounts == old(accountStore.accounts)[account.id := account.(balance := t.balanceAfter)]
      ensures accountStore.nextId == old(accountStore.nextId)
    {
      ghost var before := accountStore.accounts;
      var updated := if kind == TransactionType.Deposit then account.(balance := account.balance + amount)
                     else account.(balance := account.balance - amount);
      accountStore.UpdateAccount(updated);
      t := Transaction(0, updated.id, kind, amount, now, updated.balance);
      t := transactionStore.AddTransaction(t);
      ConsistentAfterMovement(before, openingBalance, old(transactionStore.transactions), account.id, t);
    }

    /**
     Deposits `amount` into the account with number `accountNumber`. A
     non-positive amount is rejected before the lookup; a missing account is
     rejected next; otherwise the balance grows by `amount` and one deposit
     entry holding the new balance is appended and returned.
     */
    method Deposit(accountNumber: string, amount: int, now: int) returns (r: Result<Transaction>)
      requires Valid()
      modifies accountStore, transactionStore
      ensures Valid()
      ensures amount <= 0 ==> r == Err(ArgumentError(NonPositiveAmount))
      ensures amount > 0 && !old(accountStore.AccountExists(accountNumber)) ==> r == Err(ArgumentError(AccountNotFound))
      ensures amount > 0 && old(accountStore.AccountExists(accountNumber)) ==> r.Ok?
      ensures r.Err? ==> accountStore.accounts == old(accountStore.accounts)
      ensures r.Err? ==> transactionStore.transactions == old(transactionStore.transactions)
      ensures r.Ok? ==> r.value.accountId in old(accountStore.accounts)
                        && old(accountStore.accounts[r.value.accountId]).accountNumber == accountNumber
      ensures r.Ok? ==>
                var a := old(accountStore.accounts[r.value.accountId]);
                && r.value == Transaction(|old(transactionStore.transactions)| + 1, a.id, TransactionType.Deposit,
                                          amount, now, a.balance + amount)
                && transactionStore.transactions == old(transactionStore.transactions) + [r.value]
                && accountStore.accounts == old(accountStore.accounts)[a.id := a.(balance := r.value.balanceAfter)]
      ensures accountStore.nextId == old(accountStore.nextId)
      ensures SortedByDate(old(transactionStore.transactions)) && DatedUpTo(old(transactionStore.transactions), now)
              ==> SortedByDate(transactionStore.transactions)
    {
      if amount <= 0 {
        return Err(ArgumentError(NonPositiveAmount));
      }
      var found := accountStore.GetAccountByNumber(accountNumber);
      if found.None? {
        return Err(ArgumentError(AccountNotFound));
      }
      var t := Record(found.value, TransactionType.Deposit, amount, now);
      AppendKeepsDateOrder(old(transactionStore.transactions), t);
      r := Ok(t);
    }

    /**
     Withdraws `amount` from the account with number `accountNumber`. A
     non-positive amount and a missing account are argument errors; an
     amount above the balance is the distinct insufficient-funds error;
     otherwise the balance shrinks by `amount`, staying non-negative, and one
     withdrawal entry holding the new balance is appended and returned.
     */
    method Withdraw(accountNumber: string, amount: int, now: int) returns (r: Result<Transaction>)
      requires Valid()
      modifies accountStore, transactionStore
      ensures Valid()
      ensures amount <= 0 ==> r == Err(ArgumentError(NonPositiveAmount))
      ensures amount > 0 && !old(accountStore.AccountExists(accountNumber)) ==> r == Err(ArgumentError(AccountNotFound))
      ensures forall id :: amount > 0 && id in old(accountStore.accounts)
                           && old(accountStore.accounts[id]).accountNumber == accountNumber ==>
                if old(accountStore.accounts[id]).balance < amount then r == Err(InsufficientFunds)
                else r.Ok? && r.value.accountId == id
      ensures r.Err? ==> accountStore.accounts == old(accountStore.accounts)
      ensures r.Err? ==> transactionStore.transactions == old(transactionStore.transactions)
      ensures r.Ok? ==> r.value.accountId in old(accountStore.accounts)
                        && old(accountStore.accounts[r.value.accountId]).accountNumber == accountNumber
      ensures r.Ok? ==>
                var a := old(accountStore.accounts[r.value.accountId]);
                && r.value == Transaction(|old(transactionStore.transactions)| + 1, a.id, Withdrawal,
                                          amount, now, a.balance - amount)
                && r.value.balanceAfter >= 0
                && transactionStore.transactions == old(transactionStore.transactions) + [r.value]
                && accountStore.accounts == old(accountStore.accounts)[a.id := a.(balance := r.value.balanceAfter)]
      ensures accountStore.nextId == old(accountStore.nextId)
      ensures SortedByDate(old(transactionStore.transactions)) && DatedUpTo(old(transactionStore.transactions), now)
              ==> SortedByDate(transactionStore.transactions)
    {
      if amount <= 0 {
        return Err(ArgumentError(NonPositiveAmount));
      }
      var found := accountStore.GetAccountByNumber(accountNumber);
      if found.None? {
        return Err(ArgumentError(AccountNotFound));
      }
      if found.value.balance < amount {
        return Err(InsufficientFunds);
      }
      var t := Record(found.value, Withdrawal, amount, now);
      AppendKeepsDateOrder(old(transactionStore.transactions), t);
      r := Ok(t);
    }

    /**
     The ledger entries of the account with number `accountNumber`, in the
     order they were made: an argument error if there is no such account,
     otherwise exactly the entries of that account, possibly none.
     */
    function GetAccountTransactions(accountNumber: string): (r: Result<seq<Transaction>>)
      reads accountStore, transactionStore
      requires accountStore.Valid()
      ensures r.Err? <==> !accountStore.AccountExists(accountNumber)
      ensures r.Err? ==> r.error == ArgumentError(AccountNotFound)
      ensures forall id, t :: id in accountStore.accounts && accountStore.accounts[id].accountNumber == accountNumber ==>
                r.Ok? && (t in r.value <==> t in transactionStore.transactions && t.accountId == id)
      ensures r.Ok? && SortedByDate(transactionStore.transactions) ==> SortedByDate(r.value)
    {
      var account := accountStore.GetAccountByNumber(accountNumber);
      if account.None? then Err(ArgumentError(AccountNotFound))
      else
        var history := transactionStore.GetTransactionsByAccountId(account.value.id);
        assert SortedByDate(transactionStore.transactions) ==> SortedByDate(history) by {
          if SortedByDate(transactionStore.transactions) {
            FilterKeepsDateOrder(transactionStore.transactions, account.value.id);
          }
        }
        Ok(history)
    }

    /**
     What the invariant gives for one account: its balance is the opening
     balance plus the deposits minus the withdrawals, it equals the balance
     recorded by the latest entry, and every entry has a positive amount and
     no withdrawal left the balance negative.
     */
    lemma BalanceMatchesLedger(id: int)
      requires Valid() && id in accountStore.accounts
      ensures var h := transactionStore.GetTransactionsByAccountId(id);
              accountStore.accounts[id].balance == openingBalance[id] + Deposits(h) - Withdrawals(h)
      ensures var h := transactionStore.GetTransactionsByAccountId(id);
              h != [] ==> accountStore.accounts[id].balance == Last(h).balanceAfter
      ensures forall t :: t in transactionStore.GetTransactionsByAccountId(id) ==>
                t.amount > 0 && (t.kind == Withdrawal ==> t.balanceAfter >= 0)
    {
      var h := transactionStore.GetTransactionsByAccountId(id);
      ChainBalance(openingBalance[id], h);
      forall t | t in h ensures t.amount > 0 && (t.kind == Withdrawal ==> t.balanceAfter >= 0) {
        var i :| 0 <= i < |h| && h[i] == t;
        ChainEntries(openingBalance[id], h, i);
      }
    }
  }
}
