/**
 The flows of the service's unit tests (BankingApi.Tests/BankingServiceTests.cs),
 one method each, as assertions over the model. Where a test sets up an
 account through its repository, the method requires a service holding such
 an account.
 */
module Scenarios {
  import opened Models
  import opened Ledger
  import opened AccountNumbers
  import opened Repositories
  import opened Services

  /** A fresh service over empty stores. */
  method NewService() returns (service: BankingService)
    ensures fresh(service) && fresh(service.clientStore) && fresh(service.accountStore)
    ensures fresh(service.transactionStore)
    ensures service.Valid()
    ensures service.clientStore.clients == map[] && service.clientStore.nextId == 1
    ensures service.accountStore.accounts == map[] && service.accountStore.nextId == 1
    ensures service.transactionStore.transactions == []
  {
    var clients := new ClientStore();
    var accounts := new AccountStore();
    var ledger := new TransactionStore();
    service := new BankingService(clients, accounts, ledger, map[]);
  }

  /** Registering a client returns it under its new identity, with its name. */
  method CreateClientScenario()
  {
    var service := NewService();
    var client := service.CreateClient(Client(0, "Test Client", 0, "Male", 50000));
    assert client.name == "Test Client" && client.id == 1;
    assert service.clientStore.clients == map[1 := client];
  }

  /**
   An unknown client is refused and nothing is stored; a known client gets
   one account holding the initial balance, under a ten-digit number, with
   an empty history.
   */
  method OpenAccountScenario(attempt: Draws)
  {
    var service := NewService();

    var refused := service.CreateAccount(999, 100, []);
    assert refused == Err(ArgumentError(ClientNotFound));
    assert service.accountStore.accounts == map[];

    var client := service.CreateClient(Client(0, "Test Client", 0, "Male", 50000));
    assert client.id == 1;
    assert !service.accountStore.AccountExists(GenerateAccountNumber([attempt][0]));
    var created := service.CreateAccount(client.id, 100, [attempt]);
    assert created.Ok? && created.value.balance == 100 && created.value.clientId == 1;
    assert service.accountStore.accounts == map[created.value.id := created.value];
    var number := created.value.accountNumber;
    assert |number| == 10;

    var balance := service.GetAccountBalance(number);
    assert balance == Some(100);
    var history := service.GetAccountTransactions(number);
    assert history.Ok? && history.value == [];
  }

  /** Depositing 50 into an account holding 100 records a deposit and leaves 150. */
  method DepositScenario(service: BankingService, id: int)
    requires service.Valid() && id in service.accountStore.accounts
    requires service.accountStore.accounts[id].accountNumber == "12345"
    requires service.accountStore.accounts[id].balance == 100
    modifies service.accountStore, service.transactionStore
  {
    var ledger := service.transactionStore.transactions;
    var deposit := service.Deposit("12345", 50, 1);
    assert deposit.Ok? && deposit.value.kind == TransactionType.Deposit;
    assert deposit.value.amount == 50 && deposit.value.balanceAfter == 150;
    assert service.transactionStore.transactions == ledger + [deposit.value];
    var balance := service.GetAccountBalance("12345");
    assert balance == Some(150);
  }

  /** A negative deposit is an argument error and changes nothing. */
  method NegativeDepositScenario(service: BankingService)
    requires service.Valid()
    modifies service.accountStore, service.transactionStore
  {
    var ledger := service.transactionStore.transactions;
    var refused := service.Deposit("12345", -10, 1);
    assert refused == Err(ArgumentError(NonPositiveAmount));
    assert service.transactionStore.transactions == ledger;
  }

  /** A deposit into an unknown account is an argument error and records nothing. */
  method DepositUnknownAccountScenario(service: BankingService)
    requires service.Valid() && !service.accountStore.AccountExists("nonexistent")
    modifies service.accountStore, service.transactionStore
  {
    var ledger := service.transactionStore.transactions;
    var missing := service.Deposit("nonexistent", 50, 1);
    assert missing == Err(ArgumentError(AccountNotFound));
    assert service.transactionStore.transactions == ledger;
  }

  /** Withdrawing 50 from an account holding 100 records a withdrawal and leaves 50. */
  method WithdrawScenario(service: BankingService, id: int)
    requires service.Valid() && id in service.accountStore.accounts
    requires service.accountStore.accounts[id].accountNumber == "12345"
    requires service.accountStore.accounts[id].balance == 100
    modifies service.accountStore, service.transactionStore
  {
    var ledger := service.transactionStore.transactions;
    var withdrawal := service.Withdraw("12345", 50, 1);
    assert withdrawal.Ok? && withdrawal.value.kind == Withdrawal;
    assert withdrawal.value.amount == 50 && withdrawal.value.balanceAfter == 50;
    assert service.transactionStore.transactions == ledger + [withdrawal.value];
    var balance := service.GetAccountBalance("12345");
    assert balance == Some(50);
  }

  /** Withdrawing 50 from an account holding 10 is refused and leaves it at 10. */
  method OverdrawScenario(service: BankingService, id: int)
    requires service.Valid() && id in service.accountStore.accounts
    requires service.accountStore.accounts[id].accountNumber == "12345"
    requires service.accountStore.accounts[id].balance == 10
    modifies service.accountStore, service.transactionStore
  {
    var overdraw := service.Withdraw("12345", 50, 1);
    assert overdraw == Err(InsufficientFunds);
    var balance := service.GetAccountBalance("12345");
    assert balance == Some(10);
  }

  /** A negative withdrawal is an argument error and changes nothing. */
  method NegativeWithdrawalScenario(service: BankingService)
    requires service.Valid()
    modifies service.accountStore, service.transactionStore
  {
    var ledger := service.transactionStore.transactions;
    var refused := service.Withdraw("12345", -10, 1);
    assert refused == Err(ArgumentError(NonPositiveAmount));
    assert service.transactionStore.transactions == ledger;
  }

  /** A withdrawal from an unknown account is an argument error and records nothing. */
  method WithdrawUnknownAccountScenario(service: BankingService)
    requires service.Valid() && !service.accountStore.AccountExists("nonexistent")
    modifies service.accountStore, service.transactionStore
  {
    var ledger := service.transactionStore.transactions;
    var missing := service.Withdraw("nonexistent", 50, 1);
    assert missing == Err(ArgumentError(AccountNotFound));
    assert service.transactionStore.transactions == ledger;
  }

  /** The balance of a stored account holding 200 is 200. */
  method BalanceScenario(service: BankingService, id: int)
    requires service.accountStore.Valid() && id in service.accountStore.accounts
    requires service.accountStore.accounts[id].accountNumber == "12345"
    requires service.accountStore.accounts[id].balance == 200
  {
    var balance := service.GetAccountBalance("12345");
    assert balance == Some(200);
  }

  /** The balance of an unknown account is nothing. */
  method BalanceUnknownAccountScenario(service: BankingService)
    requires service.accountStore.Valid() && !service.accountStore.AccountExists("nonexistent")
  {
    var balance := service.GetAccountBalance("nonexistent");
    assert balance == None;
  }

  /**
   An account whose history is a deposit of 100 and then a withdrawal of 50
   lists exactly those two entries, in that order.
   */
  method TransactionsScenario(service: BankingService, id: int, now: int)
    requires service.accountStore.Valid() && id in service.accountStore.accounts
    requires service.accountStore.accounts[id].accountNumber == "12345"
    requires service.transactionStore.GetTransactionsByAccountId(id)
          == [Transaction(1, id, TransactionType.Deposit, 100, now, 100), Transaction(2, id, Withdrawal, 50, now, 50)]
  {
    assert service.accountStore.GetAccountByNumber("12345") == Some(service.accountStore.accounts[id]);
    var history := service.GetAccountTransactions("12345");
    assert history.Ok? && |history.value| == 2;
    assert history.value[0].kind == TransactionType.Deposit && history.value[0].balanceAfter == 100;
    assert history.value[1].kind == Withdrawal && history.value[1].balanceAfter == 50;
  }

  /** The history of an unknown account is an argument error. */
  method TransactionsUnknownAccountScenario(service: BankingService)
    requires service.accountStore.Valid() && !service.accountStore.AccountExists("nonexistent")
  {
    var history := service.GetAccountTransactions("nonexistent");
    assert history == Err(ArgumentError(AccountNotFound));
  }

  /**
   A service built later over the same stores, as one is for every request,
   starts from the same opening balances and satisfies the invariant.
   */
  method ReopenScenario(service: BankingService, id: int)
    requires service.Valid() && id in service.accountStore.accounts
    requires service.accountStore.accounts[id].accountNumber == "12345"
    requires service.accountStore.accounts[id].balance == 100
    modifies service.accountStore, service.transactionStore
  {
    var deposit := service.Deposit("12345", 50, 1);
    var again := new BankingService(service.clientStore, service.accountStore, service.transactionStore,
                                    service.openingBalance);
    assert again.Valid();
    var balance := again.GetAccountBalance("12345");
    assert balance == Some(150);
  }
}
