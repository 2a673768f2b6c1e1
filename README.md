# fintech-core-engine — ledger and transaction core in Dafny

This project models the money-moving core of a multi-tenant wallet engine written in
TypeScript (NestJS over PostgreSQL). The engine keeps a double-entry ledger. Every movement
of value is written as a *posting batch*. A batch is a list of debit and credit lines in one
currency whose debits equal its credits. Four kinds of operation post batches:

- a wallet-to-wallet transfer, which can later be reversed;
- issuing value to a wallet or redeeming it back into the tenant's treasury account;
- cash-in and cash-out through an external connector, against a clearing account.

Each of these runs inside one database transaction guarded by an *idempotency key*. A retry
with the same key and the same payload replays the stored response. A retry with a different
payload is refused. A handler failure rolls everything back.

The model is organised as follows:

- **`Types`**: the rows of every table (`Wallet`, `Account`, `Transaction`, `Batch`, `Entry`,
  `ExternalTransfer`, `Policy`, `IdempotencyRecord`), the inputs and responses, and the
  `Result`/`Outcome` wrappers.
- **`Store`**: the database as a `DbState` value with one map or sequence per table, and the
  class `Db` whose fields are those tables. The methods of `Db` are the single-row inserts and
  updates the services issue, plus `Rollback` to a snapshot.
- **`Balances`**: the signed balance of an account (credits minus debits) and sums over
  accounts.
- **`Ordering`**: the string order used to sort wallet ids before locking them, and a canonical
  sorted, duplicate-free list.
- **`Ledger`**: `validateBalanced` and `post`.
- **`Guards`**: the checks the services share: positive amount, wallet locks, principal
  account lookup, the get-or-create of internal accounts, and two-leg postings.
- **`Compliance`**: the per-tenant, per-currency policy with its debit and credit checks, and
  policy upsert.
- **`Connectors`**: the connector interface (the mock connector or a custom one) and the provider registry.
- **`Wallets`**: wallet creation with its liability account, and the balance read.
- **`Idempotency`**: payload hashing and the replay / conflict / run-and-record decision of
  `execute`. It is generic over the handler.
- **`Transfers`**, **`Value`**, **`Integrations`**: the handler bodies of transfer and
  reversal, issue and redeem, and cash-in and cash-out.
- **`Orchestrator`**: the public operations. Each one wraps its handler in idempotent
  execution.

Every method that changes the database is proved equal to a pure step function on `DbState`.
The step function has the form `Outcome(r, db.State()) == XStep(old(db.State()), ...)`. The
properties the engine promises are proved as lemmas about those step functions:

- balanced batches;
- conservation of value;
- exact balance movements;
- reversal restoring balances;
- reversal at most once;
- replay of retries;
- rollback on failure;
- a ledger that stays balanced batch by batch.

Ids that the engine draws from `randomUUID()`, and the date that PostgreSQL's `current_date`
yields, are passed in as an `Env` record.

## Model

| member | source | states |
|---|---|---|
| Ledger.ValidateBalanced | src/modules/ledger/ledger.service.ts:14-39 | The loop over the lines computes exactly `Validation(lines)`: failure for no lines, for a non-positive amount, for mixed currencies, or for unequal debit and credit totals, checked in that order. |
| Ledger.ValidationMeaning | src/modules/ledger/ledger.service.ts:14-39 | Validation succeeds iff the lines are non-empty, every amount is positive, there is exactly one currency, and total debits equal total credits. |
| Ledger.SingleCurrency | src/modules/ledger/ledger.service.ts:28-35 | The set of currencies has size one iff every line has the first line's currency. |
| Ledger.CurrenciesMembers | src/modules/ledger/ledger.service.ts:28 | A currency is in the batch's currency set iff some line carries it. |
| Ledger.Post | src/modules/ledger/ledger.service.ts:41-60 | The method's result and new state equal `PostStep`: validate, insert the batch row, then append one entry per line. |
| Ledger.PostContract | src/modules/ledger/ledger.service.ts:41-60 | A post succeeds iff the lines are balanced. On failure nothing changes. On success it returns the new batch id, records the batch against the transaction and date, and appends exactly one entry per line, in order. No other table changes. |
| Ledger.PostSucceeds | src/modules/ledger/ledger.service.ts:41-60 | A post of valid lines adds the batch row and appends the posting. Nothing else changes. |
| Ledger.PostFrame | src/modules/ledger/ledger.service.ts:41-60 | Whether or not it succeeds, a post writes nothing outside the batches and the entries. |
| Ledger.PostConserves | src/modules/ledger/ledger.service.ts:41-60 | A post leaves the sum of the balances of any distinct set of accounts that covers its lines unchanged. This is the double-entry conservation law. |
| Ledger.PostingNetTotal | src/modules/ledger/ledger.service.ts:51-57 | The entries written for a batch have net total credits minus debits. For a balanced batch this is zero. |
| Ledger.LinesOfPosting | src/modules/ledger/ledger.service.ts:51-57 | The posted entries carry back exactly the lines that were posted. |
| Ledger.PostKeepsLedgerBalanced | src/modules/ledger/ledger.service.ts:41-60 | Posting with a fresh batch id keeps the ledger invariant: the entries of every recorded batch are balanced. |
| Ledger.AppendKeepsLedgerBalanced | src/modules/ledger/ledger.service.ts:41-60 | Any state whose entries and batches are the old ones plus a balanced posting under a fresh batch id satisfies the ledger invariant. |
| Balances.BalanceAppend | src/modules/wallets/wallets.service.ts:70-79 | The balance over appended entry logs is the sum of the balances over each part. |
| Balances.SumOfBalances | src/modules/ledger/ledger.service.ts:41-60 | Over a distinct set of accounts covering every entry, the sum of balances equals the net total of the entries. |
| Balances.BalanceUntouched | src/modules/wallets/wallets.service.ts:70-79 | An account with no entries has balance 0, which is the `coalesce(..., 0)` of the balance query. |
| Ordering.LessTransitive | src/modules/transactions/transactions.service.ts:176 | The string order used by `sort()` is transitive. Irreflexivity, totality and asymmetry are proved beside it. |
| Ordering.SortedUniqueCanonical | src/modules/transactions/transactions.service.ts:176 | De-duplicating and sorting two id lists with the same elements gives the same list, so the lock order depends only on the set of wallets. |
| Ordering.SortedUniqueness | src/modules/transactions/transactions.service.ts:176 | Two strictly sorted lists with the same elements are equal. |
| Guards.MustBePositive | src/modules/transactions/transactions.service.ts:167-173 | Succeeds with the amount iff it is positive. Otherwise it fails with the non-positive-amount error. |
| Guards.LockWalletRows | src/modules/transactions/transactions.service.ts:175-188 | Succeeds iff every requested wallet exists in the tenant. On success the lock list is strictly sorted and holds exactly the requested wallets, each once. Otherwise it fails with the lock error. |
| Guards.LockedCountAll | src/modules/transactions/transactions.service.ts:183-186 | The count of locked rows equals the number of requested ids iff every id is a wallet of the tenant. |
| Guards.LockOrderCanonical | src/modules/transactions/transactions.service.ts:176 | Locking `[a, b]` and `[b, a]` gives the same result and order, so opposite transfers cannot lock in opposite orders. |
| Guards.LockWalletRow | src/modules/value/value.service.ts:96-102 | Succeeds iff the wallet exists in the tenant. Otherwise it fails with the lock error. |
| Guards.GetWalletAccount | src/modules/transactions/transactions.service.ts:190-216 | Succeeds iff the wallet exists in the tenant, is active and has a principal account. It then returns that account, the wallet's currency and the account's ledger balance. Otherwise it fails with the not-found error. |
| Guards.AccountImpliesLock | src/modules/transactions/transactions.service.ts:175-216 | Whenever the principal account lookup succeeds, the lock of the same wallet succeeds too. |
| Guards.EnsureAccount | src/modules/value/value.service.ts:131-146 | The method's result and new state equal `EnsureAccountStep`: reuse the account with that code in the tenant, or insert a new asset account. |
| Guards.EnsureAccountFrame | src/modules/value/value.service.ts:131-146 | The get-or-create writes only the accounts table and its code index. |
| Guards.EnsureAccountIdempotent | src/modules/value/value.service.ts:131-146 | A second get-or-create with the same code returns the same account and changes nothing. The account belongs to the tenant with that code. The state is unchanged or gains exactly the new asset account. |
| Guards.EnsureAccountStable | src/modules/value/value.service.ts:131-146 | Once the get-or-create has run, a later one over the same code index returns the same account, whatever id it draws. |
| Guards.TwoLegValid | src/modules/transactions/transactions.service.ts:50-55 | A debit/credit pair of one amount passes batch validation iff the amount is positive. |
| Guards.TwoLegEffect | src/modules/transactions/transactions.service.ts:50-55 | Posting the pair lowers the debited account's balance by the amount and raises the credited account's balance by it. No other balance changes. |
| Compliance.AssertKycVerified | src/modules/compliance/compliance.service.ts:135-143 | Succeeds iff the wallet exists and is KYC-verified. Otherwise it fails with the KYC error. |
| Compliance.CheckDebitMeaning | src/modules/compliance/compliance.service.ts:61-96 | A debit passes iff the tenant has no policy for the currency, or every cap holds: KYC when required, the single-amount cap, and today's posted debits of the account plus the amount within the daily cap. |
| Compliance.CheckCreditMeaning | src/modules/compliance/compliance.service.ts:102-122 | A credit passes iff there is no policy, or KYC holds when required and the balance plus the amount stays within the wallet-balance cap. |
| Compliance.KycGate | src/modules/compliance/compliance.service.ts:72-74 | Under a policy that requires KYC, an unverified or unknown wallet fails both checks with the KYC error. |
| Compliance.CheckDebitMonotone | src/modules/compliance/compliance.service.ts:76-95 | A debit that passes still passes for any smaller amount. |
| Compliance.CheckCreditIgnoresDebitCaps | src/modules/compliance/compliance.service.ts:102-122 | The credit check does not depend on the single-amount or daily-debit caps. |
| Compliance.DailyDebitsAppend | src/modules/compliance/compliance.service.ts:81-91 | Today's posted debits over appended entry logs add up. |
| Compliance.DailyDebitsNonNegative | src/modules/compliance/compliance.service.ts:81-91 | Today's debit total over positive entries is never negative. |
| Compliance.PolicyOf | src/modules/compliance/compliance.service.ts:45-52 | Missing caps are stored as none. KYC is required only when the input says `true`. |
| Compliance.UpsertThenGet | src/modules/compliance/compliance.service.ts:34-55 | After an upsert, reading the policy returns the stored policy. Every other (tenant, currency) policy and every other table is unchanged. |
| Compliance.UpsertOverwrites | src/modules/compliance/compliance.service.ts:39-44 | An upsert over an existing policy gives the same result and state as an upsert where there was none. |
| Compliance.UpsertPolicy | src/modules/compliance/compliance.service.ts:34-55 | The method's result and new state equal `UpsertPolicyStep`. |
| Connectors.Connector.Provider | src/modules/integrations/mock.connector.ts:8 | The mock connector's provider name is `"mock"`. Any other connector reports the name it was built with (`IConnector.provider`). |
| Connectors.Connector.ValidateCashIn | src/modules/integrations/mock.connector.ts:10-14 | The mock accepts iff the external reference is non-empty, and otherwise fails with the reference-required error. Any other connector gives its own cash-in verdict, as `IConnector.validateCashIn` allows. |
| Connectors.Connector.ValidateCashOut | src/modules/integrations/mock.connector.ts:16-20 | The mock accepts iff the external reference is non-empty, and otherwise fails with the reference-required error. Any other connector gives its own cash-out verdict, which may differ from its cash-in verdict. |
| Connectors.GetConnector | src/modules/integrations/integrations.service.ts:205-209 | Succeeds iff the provider is registered, returning its connector. Otherwise it fails with the unknown-provider error naming the provider. |
| Connectors.Registry.OnModuleInit | src/modules/integrations/integrations.service.ts:31-33 | Registers the mock connector under `"mock"`. |
| Connectors.Registry.Register | src/modules/integrations/integrations.service.ts:35-37 | Adds or replaces the connector under its own provider name. |
| Connectors.Registry.Lookup | src/modules/integrations/integrations.service.ts:205-209 | Looks the provider up in the registry's map, as `GetConnector` does. |
| Connectors.InitialRegistry | src/modules/integrations/integrations.service.ts:31-33 | After start-up only `"mock"` resolves. Every other provider is unknown. |
| Connectors.RegisterThenGet | src/modules/integrations/integrations.service.ts:35-37 | After registering any connector, the mock or a custom one, its provider resolves to it and every other provider resolves as before. |
| Wallets.StripDashes | src/modules/wallets/wallets.service.ts:13 | Removing dashes leaves no dash and never lengthens the string. |
| Wallets.UuidAccountCode | src/modules/wallets/wallets.service.ts:13 | For a UUID-shaped id, the account code is `WALLET_` followed by the first 20 hex digits, 27 characters in all. |
| Wallets.UuidDigits | src/modules/wallets/wallets.service.ts:13 | For a UUID-shaped id, removing the dashes leaves the five hex groups side by side. |
| Wallets.CreateWallet | src/modules/wallets/wallets.service.ts:9-40 | The method's result and new state equal `CreateWalletStep`. |
| Wallets.CreateWalletContract | src/modules/wallets/wallets.service.ts:9-40 | Creation fails, with no change, iff the derived account code is already taken in the tenant. On success the wallet reads back active and not KYC-verified, with a zero balance and a principal liability account under the derived code. Entries and transactions are unchanged. |
| Wallets.CreateWalletConsistent | src/modules/wallets/wallets.service.ts:9-40 | Creating a wallet keeps the store's referential invariants. |
| Wallets.GetWallet | src/modules/wallets/wallets.service.ts:43-66 | Returns the stored wallet iff it exists. Otherwise it fails with the wallet-not-found error. |
| Wallets.GetBalanceMeaning | src/modules/wallets/wallets.service.ts:68-96 | Fails with not-found iff the wallet or its principal account is missing. Otherwise the available and ledger balances are both the principal account's balance, and 0 when it has no entries. |
| Idempotency.Lookup | src/common/idempotency/idempotency.service.ts:21-35 | Decides replay, conflict or run from the stored record of (tenant, key). It runs iff there is none. |
| Idempotency.HashMeaning | src/common/idempotency/idempotency.service.ts:49-52 | Two payloads hash alike iff they map the same keys to the same values. |
| Idempotency.HashIgnoresKeyOrder | src/common/idempotency/idempotency.service.ts:49-52 | Swapping two neighbouring keys of a payload does not change its hash. |
| Idempotency.ExecuteReplays | src/common/idempotency/idempotency.service.ts:29-31 | A stored key with the same payload hash returns the stored response and changes nothing. |
| Idempotency.ExecuteConflicts | src/common/idempotency/idempotency.service.ts:33-35 | A stored key with a different payload hash fails with the conflict error and changes nothing. |
| Idempotency.ExecuteRuns | src/common/idempotency/idempotency.service.ts:37-45 | A new key runs the handler and returns its result. On failure the state is the one before the call. On success the handler's state gains the key with the payload hash and the response. |
| Idempotency.ExecuteFailureRollsBack | src/common/db/database.service.ts:18-31 | Whatever path `execute` takes, a failure leaves the database as it was. |
| Idempotency.ExecuteTwice | src/common/idempotency/idempotency.service.ts:12-47 | After a success, a retry with the same key and an equal payload returns the same response and state, whatever the handler would do now. |
| Idempotency.DecideTenantScoped | src/common/idempotency/idempotency.service.ts:21-27 | A record under another tenant with the same key does not affect this tenant's decision. |
| Transfers.OriginalRow | src/modules/transactions/transactions.service.ts:99-116 | Succeeds with the stored row iff the transaction exists and is posted. It fails with not-found when it is missing, and with only-posted-reversible otherwise. |
| Transfers.GetTransaction | src/modules/transactions/transactions.service.ts:68-96 | Returns the stored transaction iff it exists. Otherwise it fails with the transaction-not-found error. |
| Transfers.Transfer | src/modules/transactions/transactions.service.ts:27-66 | The handler's result and new state equal `TransferBody`. |
| Transfers.TransferContract | src/modules/transactions/transactions.service.ts:27-66 | A transfer succeeds iff every guard passes. On failure nothing changes and the guard's error is returned. On success the transaction is recorded as posted, one batch is added, and exactly the debit/credit pair is appended. The sender's balance falls by the amount, the receiver's rises by it, and no other balance changes. Whatever the outcome, no table other than transactions, batches and entries changes. |
| Transfers.TransferFrame | src/modules/transactions/transactions.service.ts:27-66 | Whatever its outcome, the transfer handler writes nothing outside transactions, batches and entries. |
| Transfers.TransferFundsBoundary | src/modules/transactions/transactions.service.ts:36-38 | Once the earlier checks pass, the transfer is refused for insufficient funds iff the sender's balance is below the amount. |
| Transfers.TransferCurrencyMismatch | src/modules/transactions/transactions.service.ts:33-35 | If either wallet's currency differs from the request's, the transfer fails with the currency-mismatch error. |
| Transfers.ReversalLines | src/modules/transactions/transactions.service.ts:146-151 | Each reversal line is the original entry with its direction flipped, in the same order. |
| Transfers.ReversalNegates | src/modules/transactions/transactions.service.ts:146-153 | Posting the flipped lines moves every account's balance by the negation of the original entries' effect. |
| Transfers.ReversalBalanced | src/modules/transactions/transactions.service.ts:146-153 | The flipped lines of a balanced batch are balanced. |
| Transfers.ReversalInvolution | src/modules/transactions/transactions.service.ts:146-151 | Reversing a reversal gives back the original lines. |
| Transfers.Reversal | src/modules/transactions/transactions.service.ts:122-163 | The handler's result and new state equal `ReversalBody`. |
| Transfers.ReversalContract | src/modules/transactions/transactions.service.ts:122-163 | With no entries for the transaction, the reversal fails with no change. Otherwise it succeeds iff the flipped lines are balanced. On success the response names both transactions and the new batch, one batch is added, and exactly the flipped entries are appended. Whatever the outcome, no table other than transactions, batches and entries changes. |
| Transfers.ReversalFrame | src/modules/transactions/transactions.service.ts:122-163 | Whatever its outcome, the reversal handler writes nothing outside transactions, batches and entries. |
| Transfers.ReversalRestores | src/modules/transactions/transactions.service.ts:123-155 | After a reversal, every balance equals its old value minus the original transaction's contribution. |
| Transfers.ReversalStatuses | src/modules/transactions/transactions.service.ts:138-155 | After a reversal, the new transaction is posted and the original is marked reversed. No other transaction row changes. |
| Transfers.TransferTxEntries | src/modules/transactions/transactions.service.ts:123-136 | In a consistent store, the entries found for a new transfer are exactly its debit/credit pair. |
| Transfers.FreshPostingEntries | src/modules/transactions/transactions.service.ts:123-136 | In a consistent store, the entries of a transaction posted under a fresh id and a fresh batch are exactly that batch's entries. |
| Transfers.TwoLegReversible | src/modules/transactions/transactions.service.ts:146-153 | The two entries of a positive two-leg posting are non-empty, and flipped they pass batch validation. |
| Transfers.TransferEntriesReversible | src/modules/transactions/transactions.service.ts:43-57 | After a successful transfer its transaction's entries are non-empty and reversible. Every balance equals the old one plus those entries. |
| Transfers.TransferKeepsKeys | src/modules/transactions/transactions.service.ts:27-66 | The transfer handler never writes an idempotency row. |
| Transfers.TransferKeepsLedgerBalanced | src/modules/transactions/transactions.service.ts:50-55 | A successful transfer with a fresh batch id keeps every recorded batch balanced. |
| Transfers.ReversalKeepsLedgerBalanced | src/modules/transactions/transactions.service.ts:146-153 | A successful reversal with a fresh batch id keeps every recorded batch balanced. |
| Value.EnsureTreasuryAccount | src/modules/value/value.service.ts:131-146 | Get-or-create of the tenant's `INTERNAL_TREASURY_<currency>` asset account. |
| Value.Issue | src/modules/value/value.service.ts:24-52 | The handler's result and new state equal `IssueBody`. |
| Value.IssueContract | src/modules/value/value.service.ts:24-52 | Issue succeeds iff its guards pass: positive amount, active wallet, currency and credit compliance. On failure nothing changes. On success the issue row is posted, one batch is added, the treasury-to-wallet pair is appended, and wallets and principals are unchanged. Apart from the treasury get-or-create, no table other than transactions, batches and entries changes. |
| Value.IssueMovesAmount | src/modules/value/value.service.ts:38-42 | Issue lowers the treasury account's balance by the amount and raises the wallet's balance by it. No other balance changes. |
| Value.Redeem | src/modules/value/value.service.ts:56-87 | The handler's result and new state equal `RedeemBody`. |
| Value.RedeemContract | src/modules/value/value.service.ts:56-87 | Redeem succeeds iff its guards pass: positive amount, lock, active wallet, currency, funds and debit compliance. On failure nothing changes. On success the redeem row is posted, one batch is added, and the wallet-to-treasury pair is appended. Apart from the treasury get-or-create, no table other than transactions, batches and entries changes. |
| Value.WritesFrame | src/modules/value/value.service.ts:29-43 | Apart from the treasury get-or-create, the writes of issue and redeem change only transactions, batches and entries. |
| Value.RedeemMovesAmount | src/modules/value/value.service.ts:73-77 | Redeem lowers the wallet's balance by the amount and raises the treasury's balance by it. No other balance changes. |
| Value.RedeemFunds | src/modules/value/value.service.ts:61 | Once the earlier checks pass, redeem is refused for insufficient funds iff the wallet balance is below the amount. |
| Value.IssueThenRedeem | src/modules/value/value.service.ts:23-87 | Issuing and then redeeming the same amount leaves every account balance as it was. |
| Value.ValueLinesValid | src/modules/value/value.service.ts:38-42 | The treasury/wallet pair of an issue or a redeem passes batch validation iff the amount is positive. |
| Value.WritesMoveAmount | src/modules/value/value.service.ts:29-78 | For a positive amount, issue moves the amount from the treasury to the wallet and redeem moves it back. No other balance changes. |
| Value.WritesKeepLedgerBalanced | src/modules/value/value.service.ts:29-78 | For a positive amount and a fresh batch id, the writes of issue or redeem keep every recorded batch balanced. |
| Value.SameTreasury | src/modules/value/value.service.ts:131-146 | After a successful issue, a later get-or-create of the treasury account in that tenant and currency returns the same account. |
| Value.SameWalletAccount | src/modules/value/value.service.ts:26-59 | After an issue, a redeem from the same wallet debits the principal account that the issue credited. |
| Integrations.EnsureClearingAccount | src/modules/integrations/integrations.service.ts:252-267 | Get-or-create of the tenant's clearing asset account for the currency. |
| Integrations.CashInHandler | src/modules/integrations/integrations.service.ts:44-100 | The handler's result and new state equal `ExternalBody(CashIn, ...)`. |
| Integrations.CashOutHandler | src/modules/integrations/integrations.service.ts:108-166 | The handler's result and new state equal `ExternalBody(CashOut, ...)`. |
| Integrations.RecordAndPost | src/modules/integrations/integrations.service.ts:63-89 | The writes after the checks equal `RecordAndPostStep`: clearing account, transaction, external transfer, post, then both statuses set to posted. |
| Integrations.GuardsPassed | src/modules/integrations/integrations.service.ts:45-61 | Passing the checks implies a positive amount and yields the wallet's principal account. |
| Integrations.ExternalRejects | src/modules/integrations/integrations.service.ts:45-61 | When a check fails, the operation fails with that check's error and changes nothing. |
| Integrations.ExternalContract | src/modules/integrations/integrations.service.ts:39-167 | When the checks pass, the operation succeeds. The transaction and the external transfer are recorded as posted, one batch is added, and the clearing/wallet pair is appended: clearing to wallet for cash-in, wallet to clearing for cash-out. Apart from the clearing get-or-create, no table other than transactions, external transfers, batches and entries changes. |
| Integrations.RecordFrame | src/modules/integrations/integrations.service.ts:63-89 | Apart from the clearing get-or-create, the writes of cash-in and cash-out change only transactions, external transfers, batches and entries. |
| Integrations.PostsWhenPositive | src/modules/integrations/integrations.service.ts:63-98 | For a positive amount the writes after the checks succeed with the ids drawn for them. The transaction row and the external transfer row are added as posted, and exactly one batch, dated today, is added for the transaction. |
| Integrations.RecordEntries | src/modules/integrations/integrations.service.ts:82-86 | For a positive amount the writes append exactly the clearing/wallet pair to the entries, in the direction of the flow. |
| Integrations.RecordKeepsPrincipal | src/modules/integrations/integrations.service.ts:63-89 | The writes after the checks leave every wallet's principal account unchanged. |
| Integrations.RecordKeepsWalletRows | src/modules/integrations/integrations.service.ts:63-89 | The writes after the checks leave the wallet rows unchanged. |
| Integrations.RecordKeepsLedgerBalanced | src/modules/integrations/integrations.service.ts:82-86 | For a positive amount and a fresh batch id, the writes keep every recorded batch balanced. |
| Integrations.SameClearing | src/modules/integrations/integrations.service.ts:252-267 | After a successful cash-in or cash-out, a later get-or-create of the clearing account in that tenant and currency returns the same account. |
| Integrations.SameWalletAccount | src/modules/integrations/integrations.service.ts:45-61 | After a cash-in, a cash-out of the same wallet debits the principal account that the cash-in credited. |
| Integrations.ExternalMovesAmount | src/modules/integrations/integrations.service.ts:82-86 | Cash-in moves the amount from clearing to the wallet. Cash-out moves it from the wallet to clearing. No other balance changes. |
| Integrations.CashInThenOut | src/modules/integrations/integrations.service.ts:39-167 | A cash-in followed by a cash-out of the same amount leaves every balance as it was. |
| Integrations.GetTransfer | src/modules/integrations/integrations.service.ts:169-203 | Returns the stored external transfer iff it exists. Otherwise it fails with the not-found error. |
| Integrations.ExternalReadBack | src/modules/integrations/integrations.service.ts:72-89 | After a successful cash-in or cash-out, reading its external transfer returns the posted row. |
| Integrations.UnknownProviderRejected | src/modules/integrations/integrations.service.ts:205-209 | A positive request naming an unregistered provider fails with unknown-provider and changes nothing. |
| Integrations.MockNeedsReference | src/modules/integrations/mock.connector.ts:10-20 | Through the mock connector, a request with an empty external reference fails with reference-required and changes nothing. |
| Integrations.ConnectorRejects | src/modules/integrations/integrations.service.ts:45-54 | Whatever connector is registered, a positive request it rejects fails with the connector's own error and changes nothing. |
| Integrations.RegisteredProviderCashIn | src/modules/integrations/integrations.service.ts:35-54 | A connector registered after start-up serves cash-in under its own name: if it accepts and the wallet checks pass, the cash-in posts and the response names that provider. |
| Orchestrator.RunHandler | src/common/idempotency/idempotency.service.ts:37-38 | Running a handler has exactly the effect of its body. |
| Orchestrator.Execute | src/common/idempotency/idempotency.service.ts:12-47 | The method's result and new state equal `ExecuteStep`: hash, look up, then replay, conflict, or run with rollback on failure and record on success. |
| Orchestrator.CreateTransfer | src/modules/transactions/transactions.service.ts:26-66 | The entry point's result and new state equal `CreateTransferStep`, which is `execute` over the transfer handler. |
| Orchestrator.ReverseTransaction | src/modules/transactions/transactions.service.ts:98-165 | The entry point's result and new state equal `ReverseStep`: the posted-original check, then `execute` over the reversal handler. |
| Orchestrator.Issue | src/modules/value/value.service.ts:23-53 | The result and new state equal `ValueStep` for issue, with the payload tagged `op: issue`. |
| Orchestrator.Redeem | src/modules/value/value.service.ts:55-88 | The result and new state equal `ValueStep` for redeem, with the payload tagged `op: redeem`. |
| Orchestrator.CashInFunds | src/modules/integrations/integrations.service.ts:39-101 | The result and new state equal `ExternalStep` for cash-in over the registry's connectors. |
| Orchestrator.CashOutFunds | src/modules/integrations/integrations.service.ts:103-167 | The result and new state equal `ExternalStep` for cash-out over the registry's connectors. |
| Orchestrator.TransferCommitted | src/modules/transactions/transactions.service.ts:26-66 | A committed transfer is readable as a posted original. Its key is recorded. Its entries are non-empty and reversible. Every balance equals the old one plus the transfer's entries. |
| Orchestrator.TransferCommits | src/common/idempotency/idempotency.service.ts:37-45 | A committed transfer on a fresh key is the transfer handler's outcome plus one idempotency record holding its response. |
| Orchestrator.TransferCommittedRow | src/modules/transactions/transactions.service.ts:26-66 | A committed transfer names its new transaction, which reads back as posted, and its key is recorded. |
| Orchestrator.TransferCommittedEntries | src/modules/transactions/transactions.service.ts:26-66 | A committed transfer's entries are non-empty and reversible. Every balance equals the old one plus those entries. |
| Orchestrator.ReversalAtMostOnce | src/modules/transactions/transactions.service.ts:98-165 | Reversing a posted transaction with entries succeeds. It subtracts that transaction's effect from every balance and marks it reversed. Any later reversal of it, with any key, fails with only-posted-reversible and changes nothing. |
| Orchestrator.TransferThenReverse | src/modules/transactions/transactions.service.ts:26-165 | A transfer followed by its reversal succeeds and restores every balance. The original is left reversed, and a further reversal fails. |
| Orchestrator.TransferRetryReplays | src/common/idempotency/idempotency.service.ts:29-31 | Retrying a successful transfer with the same key and input returns the first response and changes nothing. |
| Orchestrator.ValuePayloadOp | src/modules/value/value.service.ts:24 | The hashed payload of issue or redeem carries its operation name under `op`. |
| Orchestrator.IssueKeyConflictsWithRedeem | src/modules/value/value.service.ts:24-56 | After an issue succeeds, a redeem with the same key and body fails with the idempotency conflict and changes nothing. |
| Orchestrator.NonPositiveRejected | src/modules/transactions/transactions.service.ts:167-173 | A first request (a key the tenant has not used) of any amount-carrying operation with a non-positive amount fails with the non-positive-amount error and leaves the database unchanged. |
| Orchestrator.HandlerKeepsLedgerBalanced | src/modules/ledger/ledger.service.ts:41-60 | A successful handler with a fresh batch id keeps every recorded batch balanced. |
| Orchestrator.ExecuteKeepsLedgerBalanced | src/common/idempotency/idempotency.service.ts:12-47 | Every idempotent operation, replayed, refused, failed or run, keeps every recorded batch balanced. |
| Store.Db.Rollback | src/common/db/database.service.ts:25-27 | Restores every table to the snapshot taken at `begin`. |

## Left out

- Amount parsing: amounts are exact integers in minor units. JavaScript's `Number` parsing of
  the amount text, floating-point arithmetic, `Number.isFinite` and the 1e-6 tolerance in
  batch validation are not modelled. Balanced means debits equal credits exactly.
- `Idempotency.HashPayload`: the payload hash is the canonical key-sorted serialisation
  itself. The SHA-256 step is taken to be injective, so hash collisions are not modelled.
  JSON's string escaping is not modelled either.
- Request bodies: the hashed payloads hold only the fields the services read, with the amount
  as an integer. Extra keys a client might send, and the original amount text, are not kept.
- `randomUUID()` and `current_date` are parameters: the `Env` record holds the ids the call
  will draw and today's date. Lemmas that need fresh ids say so in their preconditions. Ledger
  entry ids and the `created_at`/`posted_at` timestamps are not modelled; the date of a batch
  is the day it was posted.
- Concurrency: row locks (`for update`) and isolation between sessions are not modelled. The
  model checks the lock conditions and the sorted lock order. It does not model the blocking.
- String order: `sort()` compares UTF-16 code units, while the model compares characters by
  code point. The two agree on UUIDs and ASCII ids.
- Connectors: the registry is an in-memory map outside the database transaction, and is not
  rolled back. A connector is the mock or a custom one given by its provider name and two
  validation functions. A custom connector's validations are pure functions of the request:
  a network call they might make, and its asynchrony, are not modelled.
- `Transfers.ReversalContract`: the order of the reversal lines is the order of the entries
  in the log. The source's query has no `order by`, so the database's order is unspecified
  there.
- `Guards.LockWalletRows`: the lock step checks only that each wallet exists in the tenant
  (not that it is active), as the code does. Activity is checked afterwards by the principal
  account lookup.
- Id collisions on insert: the `Db.Insert*` methods overwrite an existing row with the same
  id. PostgreSQL would raise a primary-key violation there and roll the transaction back (for
  example when `env.txId` is already in `transactions`). With random UUIDs the collision does
  not happen, so this error path is not modelled; lemmas that need fresh ids require them.
- Wallet creation sets `kyc_verified` to false, the column default. Changing a wallet's KYC
  status is outside this code.
- A retry of a reversal with the same key does not replay. The posted-status check runs before
  the idempotent `execute`, so the retry fails with only-posted-reversible. The model keeps
  this order, and `Orchestrator.ReversalAtMostOnce` states it.
- Controllers, HTTP validation, authentication and scopes, audit logging, tenant management,
  the health check, migrations and scripts are not part of this model. Tenant foreign keys are
  not checked.
