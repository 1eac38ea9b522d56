# BankingApi ledger core in Dafny

This project models the ledger core of BankingApi, a small banking back end.
The core is `BankingService` running over its three repositories: clients,
accounts and transactions. The service does five things:

- it registers clients;
- it opens accounts under a generated ten-digit account number, retrying
  until it draws a number no stored account uses;
- it reports an account's balance;
- it deposits and withdraws money, each time updating the account's stored
  balance and appending one ledger entry that records the new balance;
- it lists an account's ledger entries.

The model is split into six files:

- `models.dfy` holds the entities as values (`Client`, `Account`,
  `Transaction`) and the service's two error kinds. The argument error
  covers a missing client, a missing account and a non-positive amount. The
  invalid-operation error covers insufficient funds.
- `account_numbers.dfy` models account-number generation. The random source
  is an input: each attempt is the ten values the generator drew.
- `repositories.dfy` has the three repositories as classes over in-memory
  state: a map of clients, a map of accounts and a sequence of ledger
  entries. Identities come from counters. Account numbers are unique, as
  the database's unique index makes them.
- `ledger.dfy` describes the ledger as a value:
  - one account's history (`Filter`);
  - what counts as a legal money movement (`Step`), and a history made only
    of legal movements (`Chain`);
  - the ledger invariant tying accounts, their opening balances and the
    ledger together (`Consistent`), with lemmas showing that opening an
    account and recording a movement preserve it.
- `banking_service.dfy` has `BankingService`. Its object invariant `Valid()`
  says:
  - every account belongs to a known client;
  - every ledger entry belongs to a known account;
  - every account's history is a chain of legal movements from its opening
    balance, and the last balance in that chain is the account's stored
    balance.

  Every state-changing operation preserves `Valid()`. Its methods return a
  `Result` where the source throws.
- `scenarios.dfy` replays, one method each and with the same amounts, every
  flow of the unit tests in `BankingApi.Tests/BankingServiceTests.cs` as
  assertions. The flows are:
  - registering a client;
  - opening an account for a known and for an unknown client;
  - a deposit, a negative deposit and a deposit into an unknown account;
  - a withdrawal, an overdraft, a negative withdrawal and a withdrawal from
    an unknown account;
  - the balance of a known and of an unknown account;
  - a two-entry history and the history of an unknown account.

  Where a test hands the service a repository already holding an account or
  entries, the method requires a service whose stores hold them.
  `ReopenScenario` builds a second service over stores already changed by
  the first.

Adding an account, updating an account and appending a transaction are
separate database writes in the source. Here each service operation is one
atomic step.

For a missing client or account the code throws `ArgumentException`, the
same exception as for a non-positive amount. The model follows it: `ArgumentError(ClientNotFound)` and
`ArgumentError(AccountNotFound)` are kinds of the argument error, beside
`ArgumentError(NonPositiveAmount)`. `InsufficientFunds` is a separate error.

## Model

| member | source | states |
|---|---|---|
| Services.BankingService.constructor | BankingApi/Services/BankingService.cs:13-20 | the service works over the given stores, whatever their ledger holds, provided it is consistent with the accounts' opening balances; the invariant holds. A service built per request over stores already changed by another keeps working (`ReopenScenario`) |
| Services.BankingService.CreateClient | BankingApi/Services/BankingService.cs:22-25 | the client is stored under a fresh identity taken from the client store's counter; no other client changes; the counter advances by one; the invariant is kept |
| Services.BankingService.CreateAccount | BankingApi/Services/BankingService.cs:27-49 | fails with the argument error exactly when the client is unknown, and then adds no account and leaves the counter as it was. Otherwise it adds exactly one account under a fresh identity, with the given client and initial balance, and the counter advances by one. The new account's opening balance is its initial balance, and every other account's opening balance is unchanged. Its number is ten digits, no account used it before, and it comes from the first attempt that did not collide. The invariant is kept |
| Services.BankingService.UnusedNumber | BankingApi/Services/BankingService.cs:35-39 | the retry loop stops at the first attempt whose number no stored account uses; every earlier attempt collided |
| Services.BankingService.GetAccountBalance | BankingApi/Services/BankingService.cs:51-55 | nothing exactly when no account has the number; otherwise the balance of the one account that has it |
| Services.BankingService.Record | BankingApi/Services/BankingService.cs:70-83 | the balance moves by the amount and the account is written back; one entry with the next identity, the account, the kind, the amount, the time and the new balance is appended; nothing else changes and the invariant is kept |
| Services.BankingService.Deposit | BankingApi/Services/BankingService.cs:57-84 | a non-positive amount is an argument error, checked before the lookup; an unknown number is an argument error; either error leaves both stores unchanged. Otherwise the one account with that number gains the amount, and one deposit entry holding the new balance is appended and returned. A ledger in date order stays in date order when `now` is no earlier than every stored entry |
| Services.BankingService.Withdraw | BankingApi/Services/BankingService.cs:86-118 | a non-positive amount and an unknown number are argument errors. An amount above the balance is the insufficient-funds error. Every error leaves both stores unchanged. Otherwise the account loses the amount, the new balance is never negative, and one withdrawal entry holding it is appended and returned. A ledger in date order stays in date order when `now` is no earlier than every stored entry |
| Services.BankingService.GetAccountTransactions | BankingApi/Services/BankingService.cs:120-128 | an argument error exactly when no account has the number; otherwise exactly the ledger entries of that account, possibly none, and in date order whenever the ledger is |
| Services.BankingService.BalanceMatchesLedger | BankingApi/Services/BankingService.cs:104-117 | after any sequence of operations, an account's balance is its opening balance plus its deposits minus its withdrawals. It equals the balance recorded by its latest entry. Every entry has a positive amount, and no withdrawal left a negative balance |
| AccountNumbers.DigitCharValue | BankingApi/Services/BankingService.cs:134 | the character drawn for value d is a decimal digit whose value is d |
| AccountNumbers.GenerateAccountNumber | BankingApi/Services/BankingService.cs:131-137 | the result is 10 characters long, each a decimal digit; position i holds the digit drawn for position i |
| AccountNumbers.GenerateInjective | BankingApi/Services/BankingService.cs:131-137 | different draws give different account numbers |
| AccountNumbers.GenerateSurjective | BankingApi/Services/BankingService.cs:131-137 | every ten-digit string, leading zeros included, can be generated |
| Repositories.ClientStore.constructor | BankingApi/Data/BankingDbContext.cs:12 | an empty client table whose next identity is 1 |
| Repositories.ClientStore.AddClient | BankingApi/Repositories/ClientRepository.cs:17-22 | the client is stored under the next identity, which was unused, and is returned with it; the counter advances |
| Repositories.ClientStore.GetClientById | BankingApi/Repositories/ClientRepository.cs:24-27 | a client exactly when the identity is stored, and it is the stored record, carrying that identity |
| Repositories.AccountStore.constructor | BankingApi/Data/BankingDbContext.cs:13 | an empty account table whose next identity is 1 |
| Repositories.AccountStore.FindFrom | BankingApi/Repositories/AccountRepository.cs:24-27 | the stored account with the number and the lowest identity from a given one upwards: no account between the two has the number; nothing when none from there has it |
| Repositories.AccountStore.AccountExists | BankingApi/Repositories/AccountRepository.cs:40-43 | (definition) whether some stored account has the number; it is the retry loop's condition |
| Repositories.AccountStore.NumbersUnique | BankingApi/Data/BankingDbContext.cs:21-23 | (definition) no two stored accounts share a number, the unique index on the account number; part of the store's invariant |
| Repositories.AccountStore.GetAccountByNumber | BankingApi/Repositories/AccountRepository.cs:24-27 | nothing exactly when no account has the number; otherwise the stored account that has it, which is the only one |
| Repositories.AccountStore.AddAccount | BankingApi/Repositories/AccountRepository.cs:17-22 | the account is stored under the next identity, which was unused, and is returned with it. Account numbers stay unique, as the unique index on the number demands |
| Repositories.AccountStore.UpdateAccount | BankingApi/Repositories/AccountRepository.cs:34-38 | the stored account with that identity is replaced; no other account changes |
| Repositories.TransactionStore.constructor | BankingApi/Data/BankingDbContext.cs:14 | an empty ledger |
| Repositories.TransactionStore.AddTransaction | BankingApi/Repositories/TransactionRepository.cs:17-21 | the entry is appended under the next identity; earlier entries are unchanged |
| Repositories.TransactionStore.GetTransactionsByAccountId | BankingApi/Repositories/TransactionRepository.cs:23-29 | exactly the entries of the given account, and no more of them than the ledger holds |
| Ledger.Filter | BankingApi/Repositories/TransactionRepository.cs:25-26 | an entry is selected exactly when it is in the ledger and belongs to the account |
| Ledger.FilterAppend | BankingApi/Repositories/TransactionRepository.cs:17-21 | appending an entry extends the history of its own account by that entry and leaves every other account's history as it was |
| Ledger.FilterNone | BankingApi/Services/BankingService.cs:41-48 | an account that no entry refers to, such as a newly opened one, has an empty history |
| Ledger.FilterKeepsDateOrder | BankingApi/Repositories/TransactionRepository.cs:27 | when the ledger is in date order, so is every history selected from it |
| Ledger.AppendKeepsDateOrder | BankingApi/Services/BankingService.cs:78 | appending an entry dated no earlier than every stored entry keeps a ledger in date order |
| Ledger.ChainExtend | BankingApi/Services/BankingService.cs:70-83 | a legal movement extends a consistent history, and the history's balance becomes the movement's recorded balance |
| Ledger.ChainBalance | BankingApi/Services/BankingService.cs:104-117 | the balance of a consistent history is the opening balance plus its deposits minus its withdrawals |
| Ledger.ChainEntries | BankingApi/Services/BankingService.cs:99-104 | every entry of a consistent history has a positive amount, and no withdrawal in it left a negative balance |
| Ledger.ConsistentAfterMovement | BankingApi/Services/BankingService.cs:104-115 | writing back one account with the new balance and appending the matching entry keeps the ledger invariant |
| Ledger.ConsistentAfterOpening | BankingApi/Services/BankingService.cs:41-48 | adding an account under an unused identity keeps the ledger invariant, and the new account starts with an empty history |

## Left out

- Asynchrony and concurrency. Two requests that interleave, such as two account creations racing on the same number, are not modelled. Each operation is one atomic step.
- The random source and the clock are inputs, not modelled. `CreateAccount` takes the draws of successive attempts. `Deposit` and `Withdraw` take the current time `now`.
- Decimal money is modelled as an unbounded integer of minor units. Decimal scale, rounding and overflow are not modelled.
- The HTTP controllers, program start-up and dependency injection are not modelled. The database mapping is modelled only as far as the three tables, auto-increment identities and the unique account-number index. The interfaces under `BankingApi/Interfaces` are only the shapes of the classes modelled here.
- Services.BankingService.CreateClient: the source inserts the client together with every object reachable from it, so a client submitted with accounts, and entries inside them, stores them with any balances, bypassing `CreateAccount`, `Deposit` and `Withdraw`. The model's client has no accounts, and the invariant behind `BalanceMatchesLedger` assumes this does not happen.
- Navigation properties (a client's accounts, an account's client and its transactions) are not stored. They follow from the foreign keys.
- `GetAccountByIdAsync` (BankingApi/Repositories/AccountRepository.cs:29-32) is not modelled, because the service never calls it.
- Repositories.TransactionStore.GetTransactionsByAccountId: does not sort by transaction date. It returns entries in the order they were appended. `Deposit` and `Withdraw` keep the ledger in date order when the clock does not run backwards (`Ledger.AppendKeepsDateOrder`), and a history selected from such a ledger is in date order (`Ledger.FilterKeepsDateOrder`). Entries with equal dates may come back from the database in another order, and a clock that runs backwards is not modelled.
- Services.BankingService.CreateAccount: requires that some given attempt draws an unused number. The source's retry loop has no bound and would never end if every number were taken.
- Repositories.AccountStore.AddAccount: requires an unused number. A duplicate would make the unique index throw a database error, which the service cannot trigger because it checks the number first.
- Repositories.ClientStore.AddClient: always assigns the next identity. An identity set by the caller before insertion is not modelled.
- Services.BankingService.Deposit: the source changes the tracked account object in place, then saves it. The model writes back an updated account value, so the caller's object being changed is not modelled.
- Services.BankingService.Withdraw: modelled the same way as `Deposit`, with the same limitation.
- Client fields are not validated, because the source does not validate them either. Likewise the source does not check the initial balance, so an account can open with a negative one. The model keeps this: only withdrawals are kept from making a balance negative.
