/**
 The three stores the service depends on, as in-memory state. Each store
 assigns identities from a counter, as an auto-increment key does; the
 account store keeps account numbers unique, as the unique index on the
 account number does.
 */
module Repositories {
  import opened Models
  import opened Ledger

  class ClientStore {
    var clients: map<int, Client>
    var nextId: int

    ghost predicate Valid()
      reads this
    {
      && nextId >= 1
      && forall id :: id in clients ==> clients[id].id == id && 1 <= id < nextId
    }

    constructor ()
      ensures Valid() && clients == map[] && nextId == 1
    {
      clients := map[];
      nextId := 1;
    }

    /** Stores `client` under a fresh identity and returns the stored record. */
    method AddClient(client: Client) returns (stored: Client)
      requires Valid()
      modifies this
      ensures Valid()
      ensures stored == client.(id := old(nextId)) && stored.id !in old(clients)
      ensures clients == old(clients)[stored.id := stored] && nextId == old(nextId) + 1
    {
      stored := client.(id := nextId);
      clients := clients[stored.id := stored];
      nextId := nextId + 1;
    }

    function GetClientById(id: int): (r: Option<Client>)
      reads this
      requires Valid()
      ensures r.Some? <==> id in clients
      ensures r.Some? ==> r.value.id == id && r.value == clients[id]
    {
      if id in clients then Some(clients[id]) else None
    }
  }

  class AccountStore {
    var accounts: map<int, Account>
    var nextId: int

    ghost predicate NumbersUnique()
      reads this
    {
      forall i, j :: i in accounts && j in accounts && i != j ==>
        accounts[i].accountNumber != accounts[j].accountNumber
    }

    ghost predicate Valid()
      reads this
    {
      && nextId >= 1
      && (forall id :: id in accounts ==> accounts[id].id == id && 1 <= id < nextId)
      && NumbersUnique()
    }

    constructor ()
      ensures Valid() && accounts == map[] && nextId == 1
    {
      accounts := map[];
      nextId := 1;
    }

    /** Whether some stored account has number `accountNumber`. */
    predicate AccountExists(accountNumber: string)
      reads this
    {
      exists id :: id in accounts && accounts[id].accountNumber == accountNumber
    }

    /** The first account, from identity `id` upwards, whose number is `accountNumber`. */
    function FindFrom(accountNumber: string, id: int): (r: Option<Account>)
      reads this
      requires Valid()
      decreases nextId - id
      ensures r.Some? ==> r.value.id in accounts && accounts[r.value.id] == r.value
      ensures r.Some? ==> r.value.accountNumber == accountNumber
      ensures r.Some? ==> id <= r.value.id && forall k :: id <= k < r.value.id && k in accounts ==>
                            accounts[k].accountNumber != accountNumber
      ensures r.None? ==> forall k :: id <= k < nextId && k in accounts ==>
                            accounts[k].accountNumber != accountNumber
    {
      if id >= nextId then None
      else if id in accounts && accounts[id].accountNumber == accountNumber then Some(accounts[id])
      else
        FindFrom(accountNumber, id + 1)
    }

    /**
     The account with number `accountNumber`, or nothing when there is none.
     Numbers are unique, so the account found is the only one with it.
     */
    function GetAccountByNumber(accountNumber: string): (r: Option<Account>)
      reads this
      requires Valid()
      ensures r.None? <==> !AccountExists(accountNumber)
      ensures r.Some? ==> r.value.id in accounts && accounts[r.value.id] == r.value
      ensures r.Some? ==> r.value.accountNumber == accountNumber
      ensures forall id :: id in accounts && accounts[id].accountNumber == accountNumber ==>
                r == Some(accounts[id])
    {
      FindFrom(accountNumber, 1)
    }

    /** Stores `account` under a fresh identity; its number must be unused. */
    method AddAccount(account: Account) returns (stored: Account)
      requires Valid()
      requires !AccountExists(account.accountNumber)
      modifies this
      ensures Valid()
      ensures stored == account.(id := old(nextId)) && stored.id !in old(accounts)
      ensures accounts == old(accounts)[stored.id := stored] && nextId == old(nextId) + 1
    {
      stored := account.(id := nextId);
      accounts := accounts[stored.id := stored];
      nextId := nextId + 1;
    }

    /** Writes back a stored account; its number does not change. */
    method UpdateAccount(account: Account)
      requires Valid()
      requires account.id in accounts
      requires accounts[account.id].accountNumber == account.accountNumber
      modifies this
      ensures Valid()
      ensures accounts == old(accounts)[account.id := account] && nextId == old(nextId)
    {
      accounts := accounts[account.id := account];
    }
  }

  class TransactionStore {
    var transactions: seq<Transaction>

    ghost predicate Valid()
      reads this
    {
      forall i :: 0 <= i < |transactions| ==> transactions[i].id == i + 1
    }

    constructor ()
      ensures Valid() && transactions == []
    {
      transactions := [];
    }

    /** Appends `t` under the next identity and returns the stored record. */
    method AddTransaction(t: Transaction) returns (stored: Transaction)
      requires Valid()
      modifies this
      ensures Valid()
      ensures stored == t.(id := |old(transactions)| + 1)
      ensures transactions == old(transactions) + [stored]
    {
      stored := t.(id := |transactions| + 1);
      transactions := transactions + [stored];
    }

    /** The entries of account `accountId`, in the order they were appended. */
    function GetTransactionsByAccountId(accountId: int): (r: seq<Transaction>)
      reads this
      ensures |r| <= |transactions|
      ensures forall t :: t in r <==> t in transactions && t.accountId == accountId
    {
      Filter(transactions, accountId)
    }
  }
}
