/**
 The ledger as a value: the per-account view of the append-only
 transaction sequence, the balance it justifies, and the consistency rule
 every account's history obeys. The service's object invariant is stated
 with these definitions.
 */
module Ledger {
  import opened Models

  function Last<T>(s: seq<T>): T
    requires |s| > 0
  {
    s[|s| - 1]
  }

  function Init<T>(s: seq<T>): seq<T>
    requires |s| > 0
  {
    s[..|s| - 1]
  }

  /** The entries of `ts` that belong to account `accountId`, in ledger order. */
  function Filter(ts: seq<Transaction>, accountId: int): (r: seq<Transaction>)
    ensures |r| <= |ts|
    ensures forall t :: t in r <==> t in ts && t.accountId == accountId
  {
    if ts == [] then []
    else
      assert ts == Init(ts) + [Last(ts)];
      if Last(ts).accountId == accountId then Filter(Init(ts), accountId) + [Last(ts)]
      else Filter(Init(ts), accountId)
  }

  /** Appending one entry extends exactly the history of that entry's account. */
  lemma FilterAppend(ts: seq<Transaction>, t: Transaction, accountId: int)
    ensures Filter(ts + [t], accountId)
         == if t.accountId == accountId then Filter(ts, accountId) + [t] else Filter(ts, accountId)
  {
    assert Init(ts + [t]) == ts;
  }

  /** An account no entry refers to has an empty history. */
  lemma {:induction false} FilterNone(ts: seq<Transaction>, accountId: int)
    requires forall t :: t in ts ==> t.accountId != accountId
    ensures Filter(ts, accountId) == []
  {
    if ts != [] {
      assert Last(ts) in ts;
      FilterNone(Init(ts), accountId);
    }
  }

  ghost predicate SortedByDate(ts: seq<Transaction>)
  {
    forall i, j :: 0 <= i < j < |ts| ==> ts[i].date <= ts[j].date
  }

  /**
   Selecting one account's entries keeps their order: when the ledger is in
   date order, so is every account's history, and a stable sort by date
   leaves it as it is.
   */
  lemma {:induction false} FilterKeepsDateOrder(ts: seq<Transaction>, accountId: int)
    requires SortedByDate(ts)
    ensures SortedByDate(Filter(ts, accountId))
  {
    if ts != [] {
      var init := Init(ts);
      assert SortedByDate(init);
      FilterKeepsDateOrder(init, accountId);
      if Last(ts).accountId == accountId {
        var f := Filter(init, accountId);
        forall k | 0 <= k < |f| ensures f[k].date <= Last(ts).date {
          assert f[k] in f;
          var i :| 0 <= i < |init| && init[i] == f[k];
          assert ts[i] == f[k];
        }
      }
    }
  }

  /** No entry of `ts` is dated after `now`. */
  ghost predicate DatedUpTo(ts: seq<Transaction>, now: int)
  {
    forall t :: t in ts ==> t.date <= now
  }

  /** Appending an entry dated no earlier than every entry keeps the ledger in date order. */
  lemma AppendKeepsDateOrder(ts: seq<Transaction>, t: Transaction)
    ensures SortedByDate(ts) && DatedUpTo(ts, t.date) ==> SortedByDate(ts + [t])
  {
  }

  /** Sum of the amounts of the deposits in `ts`. */
  function Deposits(ts: seq<Transaction>): int
  {
    if ts == [] then 0
    else Deposits(Init(ts)) + (if Last(ts).kind == Deposit then Last(ts).amount else 0)
  }

  /** Sum of the amounts of the withdrawals in `ts`. */
  function Withdrawals(ts: seq<Transaction>): int
  {
    if ts == [] then 0
    else Withdrawals(Init(ts)) + (if Last(ts).kind == Withdrawal then Last(ts).amount else 0)
  }

  /** The signed change an entry makes; the sign is carried by the type. */
  function Effect(t: Transaction): int
  {
    if t.kind == Deposit then t.amount else -t.amount
  }

  /** The balance a history shows: that of its last entry, or the opening balance. */
  function Balance(opening: int, ts: seq<Transaction>): int
  {
    if ts == [] then opening else Last(ts).balanceAfter
  }

  /**
   One legal money movement from balance `before`: a positive amount, no
   withdrawal beyond the balance, and the recorded balance is the result.
   */
  predicate Step(before: int, t: Transaction)
  {
    && t.amount > 0
    && (t.kind == Withdrawal ==> t.amount <= before)
    && t.balanceAfter == before + Effect(t)
  }

  /** Every entry of the history is a legal step from the balance before it. */
  predicate Chain(opening: int, ts: seq<Transaction>)
  {
    ts == [] || (Chain(opening, Init(ts)) && Step(Balance(opening, Init(ts)), Last(ts)))
  }

  /** A legal step extends a consistent history, and the balance becomes its snapshot. */
  lemma ChainExtend(opening: int, ts: seq<Transaction>, t: Transaction)
    requires Chain(opening, ts) && Step(Balance(opening, ts), t)
    ensures Chain(opening, ts + [t])
    ensures Balance(opening, ts + [t]) == t.balanceAfter == Balance(opening, ts) + Effect(t)
  {
    assert Init(ts + [t]) == ts;
  }

  /**
   The balance of a consistent history is the opening balance plus the sum
   of the deposits minus the sum of the withdrawals.
   */
  lemma {:induction false} ChainBalance(opening: int, ts: seq<Transaction>)
    requires Chain(opening, ts)
    ensures Balance(opening, ts) == opening + Deposits(ts) - Withdrawals(ts)
  {
    if ts != [] {
      ChainBalance(opening, Init(ts));
    }
  }

  /**
   Every entry of a consistent history has a positive amount, and no
   withdrawal in it leaves a negative balance.
   */
  lemma {:induction false} ChainEntries(opening: int, ts: seq<Transaction>, i: int)
    requires Chain(opening, ts) && 0 <= i < |ts|
    ensures ts[i].amount > 0
    ensures ts[i].kind == Withdrawal ==> ts[i].balanceAfter >= 0
  {
    if i < |ts| - 1 {
      ChainEntries(opening, Init(ts), i);
    }
  }

  /**
   The ledger invariant over the account table, the opening balances and
   the ledger: every entry belongs to an account, and every account's
   history is a chain of legal steps whose last snapshot is its balance.
   */
  ghost predicate Consistent(accounts: map<int, Account>, opening: map<int, int>, ledger: seq<Transaction>)
  {
    && opening.Keys == accounts.Keys
    && (forall t :: t in ledger ==> t.accountId in accounts)
    && (forall id :: id in accounts ==>
          && Chain(opening[id], Filter(ledger, id))
          && accounts[id].balance == Balance(opening[id], Filter(ledger, id)))
  }

  /**
   Writing back one account with the balance of a legal step and appending
   that step to the ledger keeps the ledger invariant.
   */
  lemma ConsistentAfterMovement(accounts: map<int, Account>, opening: map<int, int>, ledger: seq<Transaction>,
                                id: int, t: Transaction)
    requires Consistent(accounts, opening, ledger)
    requires id in accounts && t.accountId == id && Step(accounts[id].balance, t)
    ensures Consistent(accounts[id := accounts[id].(balance := t.balanceAfter)], opening, ledger + [t])
  {
    var accounts' := accounts[id := accounts[id].(balance := t.balanceAfter)];
    forall k | k in accounts'
      ensures Chain(opening[k], Filter(ledger + [t], k))
      ensures accounts'[k].balance == Balance(opening[k], Filter(ledger + [t], k))
    {
      FilterAppend(ledger, t, k);
      if k == id {
        ChainExtend(opening[k], Filter(ledger, k), t);
      }
    }
  }

  /** Adding an account with an unused identity and no history keeps the ledger invariant. */
  lemma ConsistentAfterOpening(accounts: map<int, Account>, opening: map<int, int>, ledger: seq<Transaction>,
                               a: Account)
    requires Consistent(accounts, opening, ledger)
    requires a.id !in accounts
    ensures Consistent(accounts[a.id := a], opening[a.id := a.balance], ledger)
    ensures Filter(ledger, a.id) == []
  {
    FilterNone(ledger, a.id);
  }
}
