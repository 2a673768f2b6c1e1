/**
 * Shared vocabulary of the ledger core: identifiers, the rows of every table,
 * the request and response records of the orchestrators, and the error kinds
 * that the services raise.
 */
module Types {
  /** Row ids are UUID strings; tenants, idempotency keys and codes are strings too. */
  type Id = string
  type Currency = string
  /** A calendar day, standing for SQL `current_date` and for the date part of `posted_at`. */
  type Day = int

  datatype Option<T> = None | Some(value: T)

  /** The failures the services throw, one constructor per distinct message. */
  datatype Error =
    | LinesRequired                        // "Posting lines are required"
    | NonPositiveLineAmount                // "Posting amount must be > 0"
    | MixedCurrencies                      // "Mixed currencies in one posting batch ..."
    | UnbalancedBatch                      // "Unbalanced posting batch"
    | NonPositiveAmount                    // "Amount must be positive"
    | WalletLockFailed                     // "Wallet lock failed ..."
    | WalletAccountNotFound                // "Wallet principal account not found"
    | CurrencyMismatch
    | InsufficientFunds
    | OriginalNotFound                     // "Original transaction not found"
    | OnlyPostedReversible                 // "Only posted transactions can be reversed"
    | NoLedgerEntries                      // "Original transaction has no ledger entries"
    | TransactionNotFound
    | IdempotencyConflict                  // "Idempotency key reused with different payload"
    | KycRequired
    | SingleLimitExceeded(cap: int, currency: Currency)
    | DailyLimitExceeded(cap: int, currency: Currency)
    | MaxBalanceExceeded(cap: int, currency: Currency)
    | UnknownProvider(provider: string)
    | ExternalReferenceRequired            // "mock: external_reference is required"
    | ExternalTransferNotFound
    | WalletNotFound
    | DuplicateAccountCode                 // the unique (tenant_id, code) index rejects an insert

  /** A thrown error or a returned value. */
  datatype Result<T> = Success(value: T) | Failure(error: Error) {
    predicate IsFailure() { Failure? }
    function PropagateFailure<U>(): Result<U> requires Failure? { Failure(error) }
    function Extract(): T requires Success? { value }
  }

  /** Check that fails with `e` unless `cond` holds. */
  function Require(cond: bool, e: Error): (r: Result<()>)
    ensures r.Success? <==> cond
    ensures r.Failure? ==> r.error == e
  {
    if cond then Success(()) else Failure(e)
  }

  // ---------------------------------------------------------------- ledger rows

  datatype Direction = Debit | Credit

  /** A posting line handed to the ledger engine; amounts are integer minor units. */
  datatype Line = Line(account: Id, direction: Direction, amount: int, currency: Currency)

  /** A `ledger_entries` row (its own id is not modelled). */
  datatype Entry = Entry(batchId: Id, account: Id, direction: Direction, amount: int, currency: Currency)

  /** A `ledger_batches` row: the transaction it posts and the day it was posted. */
  datatype Batch = Batch(transactionId: Id, postedOn: Day)

  // ---------------------------------------------------------------- other rows

  datatype WalletStatus = Active | Inactive

  datatype Wallet = Wallet(tenant: Id, owner: Id, currency: Currency, status: WalletStatus, kycVerified: bool)

  datatype AccountType = Asset | Liability

  datatype Account = Account(tenant: Id, code: string, kind: AccountType, currency: Currency)

  datatype TxType = TransferTx | CashInTx | CashOutTx | IssueTx | RedeemTx | ReversalTx

  datatype TxStatus = Pending | Posted | Reversed

  datatype Transaction = Transaction(
    tenant: Id, kind: TxType, status: TxStatus, amount: int, currency: Currency,
    idempotencyKey: string, original: Option<Id>)

  datatype Flow = CashIn | CashOut

  datatype ExternalTransfer = ExternalTransfer(
    tenant: Id, wallet: Id, transactionId: Id, provider: string, externalReference: string,
    direction: Flow, amount: int, currency: Currency, status: TxStatus, idempotencyKey: string)

  /** A `compliance_policies` row; `None` is SQL null, i.e. no cap. */
  datatype Policy = Policy(maxSingle: Option<int>, maxDailyDebit: Option<int>, maxBalance: Option<int>, requiresKyc: bool)

  // ---------------------------------------------------------------- requests and responses

  datatype TransferInput = TransferInput(tenant: Id, fromWallet: Id, toWallet: Id, amount: int, currency: Currency)

  datatype ValueInput = ValueInput(tenant: Id, wallet: Id, amount: int, currency: Currency)

  datatype ExternalInput = ExternalInput(
    tenant: Id, wallet: Id, amount: int, currency: Currency, provider: string, externalReference: string)

  datatype ValueOp = IssueOp | RedeemOp

  /** The JSON bodies the orchestrators return and the idempotency table caches. */
  datatype Response =
    | TransferResponse(transactionId: Id, batchId: Id, transfer: TransferInput)
    | ReversalResponse(transactionId: Id, originalId: Id, batchId: Id)
    | ValueResponse(op: ValueOp, transactionId: Id, batchId: Id, value: ValueInput)
    | ExternalResponse(externalTransferId: Id, transactionId: Id, batchId: Id, flow: Flow, external: ExternalInput)

  /** A scalar of a request payload. */
  datatype JsonValue = JStr(s: string) | JInt(n: int)

  /** A request payload as a JavaScript object: its keys in insertion order. */
  type Payload = seq<(string, JsonValue)>

  datatype IdempotencyRecord = IdempotencyRecord(requestHash: seq<(string, JsonValue)>, response: Response)

  /**
   * What the environment supplies to one call: the values `randomUUID()` will
   * return, in the order the services draw them, and SQL `current_date`.
   */
  datatype Env = Env(txId: Id, batchId: Id, accountId: Id, externalId: Id, walletId: Id, today: Day)
}
