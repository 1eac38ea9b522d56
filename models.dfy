/**
 The entities of the banking ledger and the outcomes of its operations.

 Money is an unbounded `int` (minor units); times are an `int` count of
 clock ticks supplied by the caller. Navigation properties of the entities
 (a client's accounts, an account's client and transactions) are derived
 from the foreign keys and are not stored here.
 */
module Models {

  /** A registered client. `id` is assigned by the client store. */
  datatype Client = Client(
    id: int,
    name: string,
    dateOfBirth: int,
    gender: string,
    income: int)

  /** An account: `accountNumber` is the external, unique identifier. */
  datatype Account = Account(
    id: int,
    accountNumber: string,
    balance: int,
    clientId: int)

  datatype TransactionType = Deposit | Withdrawal

  /** One ledger entry, holding the balance of its account right after it. */
  datatype Transaction = Transaction(
    id: int,
    accountId: int,
    kind: TransactionType,
    amount: int,
    date: int,
    balanceAfter: int)

  /** Why an argument was rejected (all reported as an argument error). */
  datatype ArgumentReason = ClientNotFound | AccountNotFound | NonPositiveAmount

  /**
   The two exception kinds the service raises: an argument error for a
   failed lookup or a non-positive amount, and a distinct invalid-operation
   error when a withdrawal exceeds the balance.
   */
  datatype Error = ArgumentError(reason: ArgumentReason) | InsufficientFunds

  datatype Option<T> = None | Some(value: T)

  datatype Result<T> = Ok(value: T) | Err(error: Error)
}
