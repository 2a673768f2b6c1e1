/**
 * Money entering and leaving the platform through an external provider:
 * cash-in and cash-out, each validated by the provider's connector, recorded
 * as an `external_transfers` row beside its ledger transaction, and posted
 * against the tenant's external clearing account for the currency.
 */
module Integrations {
  import opened Types
  import opened Store
  import opened Balances
  import opened Ledger
  import opened Compliance
  import opened Guards
  import opened Connectors

  /** The code of the tenant's clearing account for a currency. */
  function ClearingCode(currency: Currency): string {
    "EXTERNAL_CLEARING_" + currency
  }

  /** `ensureClearingAccount`. */
  function EnsureClearingStep(s: DbState, tenant: Id, currency: Currency, newId: Id): (Id, DbState) {
    EnsureAccountStep(s, tenant, ClearingCode(currency), currency, newId)
  }

  method EnsureClearingAccount(db: Db, tenant: Id, currency: Currency, newId: Id) returns (id: Id)
    modifies db`accounts, db`accountCodes
    ensures (id, db.State()) == EnsureClearingStep(old(db.State()), tenant, currency, newId)
  {
    id := EnsureAccount(db, tenant, ClearingCode(currency), currency, newId);
  }

  /** What the service hands the connector. */
  function ParamsOf(input: ExternalInput): ConnectorParams {
    ConnectorParams(input.tenant, input.wallet, input.amount, input.currency, input.externalReference)
  }

  /** The checks of `cashIn`: positive amount, known provider, connector validation, principal account, currency, credit gate. */
  function CashInGuards(s: DbState, connectors: map<string, Connector>, input: ExternalInput, today: Day): Result<WalletAccount> {
    var amount :- MustBePositive(input.amount);
    var connector :- GetConnector(connectors, input.provider);
    var valid :- connector.ValidateCashIn(ParamsOf(input));
    var wallet :- GetWalletAccount(s, input.tenant, input.wallet);
    var sameCurrency :- Require(wallet.currency == input.currency, CurrencyMismatch);
    var creditOk :- CheckCredit(s, input.tenant, input.wallet, amount, input.currency, wallet.balance);
    Success(wallet)
  }

  /**
   * The checks of `cashOut`: positive amount, known provider, connector
   * validation, wallet lock, principal account, currency, funds, debit gate.
   */
  function CashOutGuards(s: DbState, connectors: map<string, Connector>, input: ExternalInput, today: Day): Result<WalletAccount> {
    var amount :- MustBePositive(input.amount);
    var connector :- GetConnector(connectors, input.provider);
    var valid :- connector.ValidateCashOut(ParamsOf(input));
    var locked :- LockWalletRow(s, input.tenant, input.wallet);
    var wallet :- GetWalletAccount(s, input.tenant, input.wallet);
    var sameCurrency :- Require(wallet.currency == input.currency, CurrencyMismatch);
    var funded :- Require(wallet.balance >= amount, InsufficientFunds);
    var debitOk :- CheckDebit(s, input.tenant, input.wallet, wallet.accountId, amount, input.currency, today);
    Success(wallet)
  }

  function ExternalGuards(flow: Flow, s: DbState, connectors: map<string, Connector>, input: ExternalInput, today: Day): Result<WalletAccount> {
    match flow
    case CashIn => CashInGuards(s, connectors, input, today)
    case CashOut => CashOutGuards(s, connectors, input, today)
  }

  /** The pending `cash_in` or `cash_out` transaction row. */
  function ExternalTxRow(flow: Flow, key: string, input: ExternalInput): Transaction {
    Transaction(input.tenant, if flow == CashIn then CashInTx else CashOutTx, Pending, input.amount, input.currency, key, None)
  }

  /** The pending `external_transfers` row. */
  function ExternalRow(flow: Flow, key: string, input: ExternalInput, txId: Id): ExternalTransfer {
    ExternalTransfer(input.tenant, input.wallet, txId, input.provider, input.externalReference, flow,
                     input.amount, input.currency, Pending, key)
  }

  /** Cash-in debits clearing and credits the wallet; cash-out debits the wallet and credits clearing. */
  function ExternalLines(flow: Flow, clearing: Id, walletAccount: Id, input: ExternalInput): seq<Line> {
    match flow
    case CashIn => TwoLegLines(clearing, walletAccount, input.amount, input.currency)
    case CashOut => TwoLegLines(walletAccount, clearing, input.amount, input.currency)
  }

  /**
   * The handler of `cashIn` / `cashOut` once its checks have passed: clearing
   * account, pending transaction, pending external transfer, posting, both
   * rows `posted`.
   */
  function RecordAndPostStep(flow: Flow, s: DbState, wallet: WalletAccount, key: string, input: ExternalInput, env: Env): Outcome<Response> {
    var clearing := EnsureClearingStep(s, input.tenant, input.currency, env.accountId).0;
    var lines := ExternalLines(flow, clearing, wallet.accountId, input);
    var posted := PostStep(Recorded(flow, s, key, input, env), env.txId, lines, env.batchId, env.today);
    match posted.result
    case Failure(e) => Outcome(Failure(e), posted.state)
    case Success(batchId) =>
      Outcome(Success(ExternalResponse(env.externalId, env.txId, batchId, flow, input)),
              WithExternalStatus(WithStatus(posted.state, env.txId, Posted), env.externalId, Posted))
  }

  /** The state before the posting: clearing account ensured, transaction and external transfer `pending`. */
  function Recorded(flow: Flow, s: DbState, key: string, input: ExternalInput, env: Env): DbState {
    var s1 := EnsureClearingStep(s, input.tenant, input.currency, env.accountId).1;
    WithExternal(WithTransaction(s1, env.txId, ExternalTxRow(flow, key, input)), env.externalId, ExternalRow(flow, key, input, env.txId))
  }

  /**
   * Besides the clearing get-or-create, the writes of a cash-in or cash-out
   * touch only transactions, external transfers, batches and entries.
   */
  lemma {:induction false} RecordFrame(flow: Flow, s: DbState, wallet: WalletAccount, key: string, input: ExternalInput, env: Env)
    ensures RecordAndPostStep(flow, s, wallet, key, input, env).state.(transactions := s.transactions, externalTransfers := s.externalTransfers,
                                                                       batches := s.batches, entries := s.entries)
         == EnsureClearingStep(s, input.tenant, input.currency, env.accountId).1
  {
    var (clearing, s1) := EnsureClearingStep(s, input.tenant, input.currency, env.accountId);
    var recorded := Recorded(flow, s, key, input, env);
    var posted := PostStep(recorded, env.txId, ExternalLines(flow, clearing, wallet.accountId, input), env.batchId, env.today);
    EnsureAccountFrame(s, input.tenant, ClearingCode(input.currency), input.currency, env.accountId);
    PostFrame(recorded, env.txId, ExternalLines(flow, clearing, wallet.accountId, input), env.batchId, env.today);
    StatusFrame(posted.state, env.txId, Posted);
    ExternalStatusFrame(WithStatus(posted.state, env.txId, Posted), env.externalId, Posted);
    assert recorded.(transactions := s.transactions, externalTransfers := s.externalTransfers) == s1;
  }

  /** The handler of `cashIn` / `cashOut`: its checks, then the writes. */
  function ExternalBody(flow: Flow, s: DbState, connectors: map<string, Connector>, key: string, input: ExternalInput, env: Env): Outcome<Response> {
    match ExternalGuards(flow, s, connectors, input, env.today)
    case Failure(e) => Outcome(Failure(e), s)
    case Success(wallet) => RecordAndPostStep(flow, s, wallet, key, input, env)
  }

  method RecordAndPost(db: Db, flow: Flow, wallet: WalletAccount, key: string, input: ExternalInput, env: Env) returns (r: Result<Response>)
    modifies db`accounts, db`accountCodes, db`transactions, db`externalTransfers, db`batches, db`entries
    ensures Outcome(r, db.State()) == RecordAndPostStep(flow, old(db.State()), wallet, key, input, env)
  {
    var clearing := EnsureClearingAccount(db, input.tenant, input.currency, env.accountId);
    db.InsertTransaction(env.txId, ExternalTxRow(flow, key, input));
    db.InsertExternal(env.externalId, ExternalRow(flow, key, input, env.txId));
    var lines := ExternalLines(flow, clearing, wallet.accountId, input);
    var posted := Post(db, env.txId, lines, env.batchId, env.today);
    match posted {
      case Failure(e) =>
        r := Failure(e);
      case Success(batchId) =>
        db.UpdateStatus(env.txId, Posted);
        db.UpdateExternalStatus(env.externalId, Posted);
        r := Success(ExternalResponse(env.externalId, env.txId, batchId, flow, input));
    }
  }

  method CashInHandler(db: Db, connectors: map<string, Connector>, key: string, input: ExternalInput, env: Env) returns (r: Result<Response>)
    modifies db`accounts, db`accountCodes, db`transactions, db`externalTransfers, db`batches, db`entries
    ensures Outcome(r, db.State()) == ExternalBody(CashIn, old(db.State()), connectors, key, input, env)
  {
    var guards := CashInGuards(db.State(), connectors, input, env.today);
    match guards {
      case Failure(e) =>
        r := Failure(e);
      case Success(wallet) =>
        r := RecordAndPost(db, CashIn, wallet, key, input, env);
    }
  }

  method CashOutHandler(db: Db, connectors: map<string, Connector>, key: string, input: ExternalInput, env: Env) returns (r: Result<Response>)
    modifies db`accounts, db`accountCodes, db`transactions, db`externalTransfers, db`batches, db`entries
    ensures Outcome(r, db.State()) == ExternalBody(CashOut, old(db.State()), connectors, key, input, env)
  {
    var guards := CashOutGuards(db.State(), connectors, input, env.today);
    match guards {
      case Failure(e) =>
        r := Failure(e);
      case Success(wallet) =>
        r := RecordAndPost(db, CashOut, wallet, key, input, env);
    }
  }

  /** Checks that pass imply a positive amount and the wallet's principal account. */
  lemma {:induction false} GuardsPassed(flow: Flow, s: DbState, connectors: map<string, Connector>, input: ExternalInput, today: Day)
    requires ExternalGuards(flow, s, connectors, input, today).Success?
    ensures input.amount > 0
    ensures ExternalGuards(flow, s, connectors, input, today).value == GetWalletAccount(s, input.tenant, input.wallet).value
  {
  }

  /** A cash-in or cash-out whose checks fail writes nothing and reports the first failing check's error. */
  lemma {:induction false} ExternalRejects(flow: Flow, s: DbState, connectors: map<string, Connector>, key: string, input: ExternalInput, env: Env)
    requires ExternalGuards(flow, s, connectors, input, env.today).Failure?
    ensures ExternalBody(flow, s, connectors, key, input, env) == Outcome(Failure(ExternalGuards(flow, s, connectors, input, env.today).error), s)
  {
  }

  /**
   * A cash-in or cash-out whose checks pass always posts: the transaction
   * and the external transfer both end `posted`, the external transfer
   * records provider, reference, direction and amount and points at the
   * transaction.
   */
  lemma {:induction false} ExternalContract(flow: Flow, s: DbState, connectors: map<string, Connector>, key: string, input: ExternalInput, env: Env)
    requires ExternalGuards(flow, s, connectors, input, env.today).Success?
    ensures var o := ExternalBody(flow, s, connectors, key, input, env);
      && o.result == Success(ExternalResponse(env.externalId, env.txId, env.batchId, flow, input))
      && o.state.transactions == s.transactions[env.txId := ExternalTxRow(flow, key, input).(status := Posted)]
      && o.state.externalTransfers == s.externalTransfers[env.externalId := ExternalRow(flow, key, input, env.txId).(status := Posted)]
      && o.state.batches == s.batches[env.batchId := Batch(env.txId, env.today)]
      && o.state.principal == s.principal && o.state.wallets == s.wallets
      && o.state.entries == s.entries + Posting(env.batchId, ExternalLines(flow, EnsureClearingStep(s, input.tenant, input.currency, env.accountId).0,
                                                                          ExternalGuards(flow, s, connectors, input, env.today).value.accountId, input))
      && o.state.(transactions := s.transactions, externalTransfers := s.externalTransfers, batches := s.batches, entries := s.entries)
         == EnsureClearingStep(s, input.tenant, input.currency, env.accountId).1
  {
    var wallet := ExternalGuards(flow, s, connectors, input, env.today).value;
    GuardsPassed(flow, s, connectors, input, env.today);
    BodyAfterGuards(flow, s, connectors, key, input, env);
    PostsWhenPositive(flow, s, wallet, key, input, env);
    RecordEntries(flow, s, wallet, key, input, env);
    RecordKeepsPrincipal(flow, s, wallet, key, input, env);
    RecordKeepsWalletRows(flow, s, wallet, key, input, env);
    RecordFrame(flow, s, wallet, key, input, env);
  }

  /** The writes after the checks: with a positive amount the posting cannot fail. */
  lemma {:induction false} PostsWhenPositive(flow: Flow, s: DbState, wallet: WalletAccount, key: string, input: ExternalInput, env: Env)
    requires input.amount > 0
    ensures RecordAndPostStep(flow, s, wallet, key, input, env).result == Success(ExternalResponse(env.externalId, env.txId, env.batchId, flow, input))
    ensures RecordAndPostStep(flow, s, wallet, key, input, env).state.transactions == s.transactions[env.txId := ExternalTxRow(flow, key, input).(status := Posted)]
    ensures RecordAndPostStep(flow, s, wallet, key, input, env).state.externalTransfers == s.externalTransfers[env.externalId := ExternalRow(flow, key, input, env.txId).(status := Posted)]
    ensures RecordAndPostStep(flow, s, wallet, key, input, env).state.batches == s.batches[env.batchId := Batch(env.txId, env.today)]
  {
    PostsResult(flow, s, wallet, key, input, env);
    PostsTransactionRow(flow, s, wallet, key, input, env);
    PostsExternalRow(flow, s, wallet, key, input, env);
    PostsBatch(flow, s, wallet, key, input, env);
  }

  /** With a positive amount the writes after the checks report the external transfer, transaction and batch ids. */
  lemma {:induction false} PostsResult(flow: Flow, s: DbState, wallet: WalletAccount, key: string, input: ExternalInput, env: Env)
    requires input.amount > 0
    ensures RecordAndPostStep(flow, s, wallet, key, input, env).result == Success(ExternalResponse(env.externalId, env.txId, env.batchId, flow, input))
  {
    RecordedPosts(flow, s, wallet, key, input, env);
  }

  /** With a positive amount the transaction row is written and ends `posted`. */
  lemma {:induction false} PostsTransactionRow(flow: Flow, s: DbState, wallet: WalletAccount, key: string, input: ExternalInput, env: Env)
    requires input.amount > 0
    ensures RecordAndPostStep(flow, s, wallet, key, input, env).state.transactions == s.transactions[env.txId := ExternalTxRow(flow, key, input).(status := Posted)]
  {
    RecordedPosts(flow, s, wallet, key, input, env);
    RecordedRows(flow, s, key, input, env);
    var r := Recorded(flow, s, key, input, env);
    var lines := ExternalLines(flow, EnsureClearingStep(s, input.tenant, input.currency, env.accountId).0, wallet.accountId, input);
    var p := r.(batches := r.batches[env.batchId := Batch(env.txId, env.today)], entries := r.entries + Posting(env.batchId, lines));
    StatusesPosted(p, env.txId, env.externalId);
    var row := ExternalTxRow(flow, key, input);
    assert p.transactions[env.txId] == row;
    UpdateTwice(s.transactions, env.txId, row, row.(status := Posted));
  }

  /** With a positive amount the external transfer row is written and ends `posted`. */
  lemma {:induction false} PostsExternalRow(flow: Flow, s: DbState, wallet: WalletAccount, key: string, input: ExternalInput, env: Env)
    requires input.amount > 0
    ensures RecordAndPostStep(flow, s, wallet, key, input, env).state.externalTransfers == s.externalTransfers[env.externalId := ExternalRow(flow, key, input, env.txId).(status := Posted)]
  {
    RecordedPosts(flow, s, wallet, key, input, env);
    RecordedRows(flow, s, key, input, env);
    var r := Recorded(flow, s, key, input, env);
    var lines := ExternalLines(flow, EnsureClearingStep(s, input.tenant, input.currency, env.accountId).0, wallet.accountId, input);
    var p := r.(batches := r.batches[env.batchId := Batch(env.txId, env.today)], entries := r.entries + Posting(env.batchId, lines));
    StatusesPosted(p, env.txId, env.externalId);
    var row := ExternalRow(flow, key, input, env.txId);
    assert p.externalTransfers[env.externalId] == row;
    UpdateTwice(s.externalTransfers, env.externalId, row, row.(status := Posted));
  }

  /** With a positive amount exactly one batch, dated today, is added for the transaction. */
  lemma {:induction false} PostsBatch(flow: Flow, s: DbState, wallet: WalletAccount, key: string, input: ExternalInput, env: Env)
    requires input.amount > 0
    ensures RecordAndPostStep(flow, s, wallet, key, input, env).state.batches == s.batches[env.batchId := Batch(env.txId, env.today)]
  {
    RecordedPosts(flow, s, wallet, key, input, env);
    RecordedRows(flow, s, key, input, env);
  }

  /** With a positive amount the posting after the pending rows succeeds, adding the batch and its entries. */
  lemma {:induction false} RecordedPosts(flow: Flow, s: DbState, wallet: WalletAccount, key: string, input: ExternalInput, env: Env)
    requires input.amount > 0
    ensures var r := Recorded(flow, s, key, input, env);
      var lines := ExternalLines(flow, EnsureClearingStep(s, input.tenant, input.currency, env.accountId).0, wallet.accountId, input);
      PostStep(r, env.txId, lines, env.batchId, env.today)
      == Outcome(Success(env.batchId), r.(batches := r.batches[env.batchId := Batch(env.txId, env.today)], entries := r.entries + Posting(env.batchId, lines)))
  {
    var lines := ExternalLines(flow, EnsureClearingStep(s, input.tenant, input.currency, env.accountId).0, wallet.accountId, input);
    ExternalLinesValid(flow, EnsureClearingStep(s, input.tenant, input.currency, env.accountId).0, wallet.accountId, input);
    PostSucceeds(Recorded(flow, s, key, input, env), env.txId, lines, env.batchId, env.today);
  }

  /** The pending rows are the only writes before the posting, apart from the clearing account. */
  lemma {:induction false} RecordedRows(flow: Flow, s: DbState, key: string, input: ExternalInput, env: Env)
    ensures Recorded(flow, s, key, input, env).transactions == s.transactions[env.txId := ExternalTxRow(flow, key, input)]
    ensures Recorded(flow, s, key, input, env).externalTransfers == s.externalTransfers[env.externalId := ExternalRow(flow, key, input, env.txId)]
    ensures Recorded(flow, s, key, input, env).batches == s.batches
    ensures Recorded(flow, s, key, input, env).entries == s.entries
    ensures Recorded(flow, s, key, input, env).principal == s.principal
    ensures Recorded(flow, s, key, input, env).wallets == s.wallets
    ensures Recorded(flow, s, key, input, env).accountCodes == EnsureClearingStep(s, input.tenant, input.currency, env.accountId).1.accountCodes
  {
  }

  /** With a positive amount the writes append one balanced batch under the fresh batch id, so every batch stays balanced. */
  lemma {:induction false} RecordKeepsLedgerBalanced(flow: Flow, s: DbState, wallet: WalletAccount, key: string, input: ExternalInput, env: Env)
    requires LedgerBalanced(s) && env.batchId !in s.batches && input.amount > 0
    ensures LedgerBalanced(RecordAndPostStep(flow, s, wallet, key, input, env).state)
  {
    var clearing := EnsureClearingStep(s, input.tenant, input.currency, env.accountId).0;
    var lines := ExternalLines(flow, clearing, wallet.accountId, input);
    PostsBatch(flow, s, wallet, key, input, env);
    RecordEntries(flow, s, wallet, key, input, env);
    ExternalLinesValid(flow, clearing, wallet.accountId, input);
    ValidationMeaning(lines);
    AppendKeepsLedgerBalanced(s, RecordAndPostStep(flow, s, wallet, key, input, env).state, env.txId, lines, env.batchId, env.today);
  }

  /** The pair a cash-in or cash-out posts passes batch validation exactly when the amount is positive. */
  lemma {:induction false} ExternalLinesValid(flow: Flow, clearing: Id, walletAccount: Id, input: ExternalInput)
    ensures Validation(ExternalLines(flow, clearing, walletAccount, input)).Success? <==> input.amount > 0
  {
    if flow == CashIn {
      TwoLegValid(clearing, walletAccount, input.amount, input.currency);
    } else {
      TwoLegValid(walletAccount, clearing, input.amount, input.currency);
    }
  }

  /** With a positive amount the writes after the checks append exactly the clearing/wallet pair. */
  lemma {:induction false} RecordEntries(flow: Flow, s: DbState, wallet: WalletAccount, key: string, input: ExternalInput, env: Env)
    requires input.amount > 0
    ensures RecordAndPostStep(flow, s, wallet, key, input, env).state.entries
         == s.entries + Posting(env.batchId, ExternalLines(flow, EnsureClearingStep(s, input.tenant, input.currency, env.accountId).0, wallet.accountId, input))
  {
    RecordedPosts(flow, s, wallet, key, input, env);
    RecordedRows(flow, s, key, input, env);
  }

  /** The writes after the checks leave the wallet rows alone. */
  lemma {:induction false} RecordKeepsWalletRows(flow: Flow, s: DbState, wallet: WalletAccount, key: string, input: ExternalInput, env: Env)
    ensures RecordAndPostStep(flow, s, wallet, key, input, env).state.wallets == s.wallets
  {
    RecordedRows(flow, s, key, input, env);
    PostFrame(Recorded(flow, s, key, input, env), env.txId, ExternalLines(flow, EnsureClearingStep(s, input.tenant, input.currency, env.accountId).0, wallet.accountId, input), env.batchId, env.today);
  }

  /**
   * A successful cash-in moves exactly the amount from the clearing account
   * to the wallet's principal account; a successful cash-out moves it back
   * from the wallet to clearing. Every other balance is unchanged.
   */
  lemma {:induction false} ExternalMovesAmount(flow: Flow, s: DbState, connectors: map<string, Connector>, key: string, input: ExternalInput, env: Env)
    requires ExternalBody(flow, s, connectors, key, input, env).result.Success?
    ensures var o := ExternalBody(flow, s, connectors, key, input, env);
      var wallet := ExternalGuards(flow, s, connectors, input, env.today).value.accountId;
      var clearing := EnsureClearingStep(s, input.tenant, input.currency, env.accountId).0;
      var (from, to) := if flow == CashIn then (clearing, wallet) else (wallet, clearing);
      forall a :: Balance(o.state.entries, a)
                  == Balance(s.entries, a) - (if a == from then input.amount else 0)
                                           + (if a == to then input.amount else 0)
  {
    var wallet := ExternalGuards(flow, s, connectors, input, env.today).value;
    GuardsPassed(flow, s, connectors, input, env.today);
    PostingMovesAmount(flow, s, wallet, key, input, env);
  }

  /** The posting after the checks moves the amount between clearing and the wallet in the flow's direction. */
  lemma {:induction false} PostingMovesAmount(flow: Flow, s: DbState, wallet: WalletAccount, key: string, input: ExternalInput, env: Env)
    requires input.amount > 0
    ensures var o := RecordAndPostStep(flow, s, wallet, key, input, env);
      var clearing := EnsureClearingStep(s, input.tenant, input.currency, env.accountId).0;
      var (from, to) := if flow == CashIn then (clearing, wallet.accountId) else (wallet.accountId, clearing);
      forall a :: Balance(o.state.entries, a)
                  == Balance(s.entries, a) - (if a == from then input.amount else 0)
                                           + (if a == to then input.amount else 0)
  {
    var clearing := EnsureClearingStep(s, input.tenant, input.currency, env.accountId).0;
    var lines := ExternalLines(flow, clearing, wallet.accountId, input);
    var (from, to) := if flow == CashIn then (clearing, wallet.accountId) else (wallet.accountId, clearing);
    assert lines == TwoLegLines(from, to, input.amount, input.currency);
    RecordEntries(flow, s, wallet, key, input, env);
    forall a {
      TwoLegEffect(s.entries, env.batchId, from, to, input.amount, input.currency, a);
    }
  }

  /** The writes after the checks change the account index only through the clearing account. */
  lemma {:induction false} RecordKeepsCodes(flow: Flow, s: DbState, wallet: WalletAccount, key: string, input: ExternalInput, env: Env)
    ensures RecordAndPostStep(flow, s, wallet, key, input, env).state.accountCodes
         == EnsureClearingStep(s, input.tenant, input.currency, env.accountId).1.accountCodes
  {
    RecordedRows(flow, s, key, input, env);
    PostFrame(Recorded(flow, s, key, input, env), env.txId, ExternalLines(flow, EnsureClearingStep(s, input.tenant, input.currency, env.accountId).0, wallet.accountId, input), env.batchId, env.today);
  }

  /** The writes after the checks leave every wallet's principal account alone. */
  lemma {:induction false} RecordKeepsPrincipal(flow: Flow, s: DbState, wallet: WalletAccount, key: string, input: ExternalInput, env: Env)
    ensures RecordAndPostStep(flow, s, wallet, key, input, env).state.principal == s.principal
  {
    RecordedRows(flow, s, key, input, env);
    PostFrame(Recorded(flow, s, key, input, env), env.txId, ExternalLines(flow, EnsureClearingStep(s, input.tenant, input.currency, env.accountId).0, wallet.accountId, input), env.batchId, env.today);
  }

  /** Once the checks pass, the handler is the writes after them. */
  lemma {:induction false} BodyAfterGuards(flow: Flow, s: DbState, connectors: map<string, Connector>, key: string, input: ExternalInput, env: Env)
    requires ExternalGuards(flow, s, connectors, input, env.today).Success?
    ensures ExternalBody(flow, s, connectors, key, input, env)
         == RecordAndPostStep(flow, s, ExternalGuards(flow, s, connectors, input, env.today).value, key, input, env)
  {
  }

  /** The account the checks hand on is the wallet's principal account. */
  lemma {:induction false} GuardsAccount(flow: Flow, s: DbState, connectors: map<string, Connector>, input: ExternalInput, today: Day)
    requires ExternalGuards(flow, s, connectors, input, today).Success?
    ensures input.wallet in s.principal
    ensures ExternalGuards(flow, s, connectors, input, today).value.accountId == s.principal[input.wallet]
  {
    GuardsPassed(flow, s, connectors, input, today);
  }

  /** After a cash-in, a cash-out of the same wallet debits the same principal account the cash-in credited. */
  lemma {:induction false} SameWalletAccount(s: DbState, connectors: map<string, Connector>, key1: string, input: ExternalInput, env1: Env, today: Day)
    requires ExternalGuards(CashIn, s, connectors, input, env1.today).Success?
    requires ExternalGuards(CashOut, ExternalBody(CashIn, s, connectors, key1, input, env1).state, connectors, input, today).Success?
    ensures ExternalGuards(CashOut, ExternalBody(CashIn, s, connectors, key1, input, env1).state, connectors, input, today).value.accountId
         == ExternalGuards(CashIn, s, connectors, input, env1.today).value.accountId
  {
    var w1 := ExternalGuards(CashIn, s, connectors, input, env1.today).value;
    var s1 := ExternalBody(CashIn, s, connectors, key1, input, env1).state;
    BodyAfterGuards(CashIn, s, connectors, key1, input, env1);
    RecordKeepsPrincipal(CashIn, s, w1, key1, input, env1);
    assert s1.principal == s.principal;
    GuardsAccount(CashIn, s, connectors, input, env1.today);
    GuardsAccount(CashOut, s1, connectors, input, today);
  }

  /** After a cash-in, every later cash-in or cash-out in that tenant and currency uses the same clearing account. */
  lemma {:induction false} SameClearing(flow: Flow, s: DbState, connectors: map<string, Connector>, key1: string, input: ExternalInput, env1: Env, newId: Id)
    requires ExternalGuards(flow, s, connectors, input, env1.today).Success?
    ensures EnsureClearingStep(ExternalBody(flow, s, connectors, key1, input, env1).state, input.tenant, input.currency, newId).0
         == EnsureClearingStep(s, input.tenant, input.currency, env1.accountId).0
  {
    var w1 := ExternalGuards(flow, s, connectors, input, env1.today).value;
    var s1 := ExternalBody(flow, s, connectors, key1, input, env1).state;
    BodyAfterGuards(flow, s, connectors, key1, input, env1);
    RecordKeepsCodes(flow, s, w1, key1, input, env1);
    EnsureAccountStable(s, s1, input.tenant, ClearingCode(input.currency), input.currency, env1.accountId, newId);
  }

  /**
   * Cashing an amount into a wallet and cashing the same amount out again
   * returns every account, the wallet's and the clearing account's included,
   * to its earlier balance.
   */
  lemma {:induction false} CashInThenOut(s: DbState, connectors: map<string, Connector>, key1: string, key2: string, input: ExternalInput, env1: Env, env2: Env)
    requires ExternalBody(CashIn, s, connectors, key1, input, env1).result.Success?
    requires ExternalBody(CashOut, ExternalBody(CashIn, s, connectors, key1, input, env1).state, connectors, key2, input, env2).result.Success?
    ensures var s2 := ExternalBody(CashOut, ExternalBody(CashIn, s, connectors, key1, input, env1).state, connectors, key2, input, env2).state;
      forall a :: Balance(s2.entries, a) == Balance(s.entries, a)
  {
    var s1 := ExternalBody(CashIn, s, connectors, key1, input, env1).state;
    var s2 := ExternalBody(CashOut, s1, connectors, key2, input, env2).state;
    var w := ExternalGuards(CashIn, s, connectors, input, env1.today).value.accountId;
    var c := EnsureClearingStep(s, input.tenant, input.currency, env1.accountId).0;
    SameWalletAccount(s, connectors, key1, input, env1, env2.today);
    SameClearing(CashIn, s, connectors, key1, input, env1, env2.accountId);
    ExternalMovesAmount(CashIn, s, connectors, key1, input, env1);
    ExternalMovesAmount(CashOut, s1, connectors, key2, input, env2);
    MoveAndBack(s.entries, s1.entries, s2.entries, c, w, input.amount);
  }

  /** `getTransfer`: the external transfer row, or "External transfer not found". */
  function GetTransfer(s: DbState, id: Id): (r: Result<ExternalTransfer>)
    ensures r.Success? <==> id in s.externalTransfers
    ensures r.Success? ==> r.value == s.externalTransfers[id]
    ensures r.Failure? ==> r.error == ExternalTransferNotFound
  {
    if id in s.externalTransfers then Success(s.externalTransfers[id]) else Failure(ExternalTransferNotFound)
  }

  /** A successful cash-in or cash-out can be read back under its external transfer id, `posted`. */
  lemma {:induction false} ExternalReadBack(flow: Flow, s: DbState, connectors: map<string, Connector>, key: string, input: ExternalInput, env: Env)
    requires ExternalBody(flow, s, connectors, key, input, env).result.Success?
    ensures var o := ExternalBody(flow, s, connectors, key, input, env);
      GetTransfer(o.state, o.result.value.externalTransferId) == Success(ExternalRow(flow, key, input, env.txId).(status := Posted))
  {
    ExternalContract(flow, s, connectors, key, input, env);
  }

  /** A positive amount naming a provider nobody registered fails with "Unknown provider: <name>" and writes nothing. */
  lemma {:induction false} UnknownProviderRejected(flow: Flow, s: DbState, connectors: map<string, Connector>, key: string, input: ExternalInput, env: Env)
    requires input.amount > 0 && input.provider !in connectors
    ensures ExternalBody(flow, s, connectors, key, input, env) == Outcome(Failure(UnknownProvider(input.provider)), s)
  {
  }

  /** With the mock connector registered, an empty external reference fails before any wallet is read. */
  lemma {:induction false} MockNeedsReference(flow: Flow, s: DbState, connectors: map<string, Connector>, key: string, input: ExternalInput, env: Env)
    requires input.amount > 0 && input.provider in connectors && connectors[input.provider].MockConnector?
    requires input.externalReference == ""
    ensures ExternalBody(flow, s, connectors, key, input, env) == Outcome(Failure(ExternalReferenceRequired), s)
  {
  }

  /** The registered connector's verdict on a request, for the flow's direction. */
  function ConnectorVerdict(flow: Flow, connector: Connector, input: ExternalInput): Result<()> {
    match flow
    case CashIn => connector.ValidateCashIn(ParamsOf(input))
    case CashOut => connector.ValidateCashOut(ParamsOf(input))
  }

  /**
   * Whatever connector is registered, a positive amount it rejects fails with
   * the connector's own error before any wallet is read, and writes nothing.
   */
  lemma {:induction false} ConnectorRejects(flow: Flow, s: DbState, connectors: map<string, Connector>, key: string, input: ExternalInput, env: Env)
    requires input.amount > 0 && input.provider in connectors
    requires ConnectorVerdict(flow, connectors[input.provider], input).Failure?
    ensures ExternalBody(flow, s, connectors, key, input, env)
         == Outcome(Failure(ConnectorVerdict(flow, connectors[input.provider], input).error), s)
  {
  }

  /**
   * A connector registered after start-up serves cash-in under its own
   * provider name: when it accepts the request and the wallet checks pass,
   * the cash-in posts and its response names that provider.
   */
  lemma {:induction false} RegisteredProviderCashIn(c: Connector, s: DbState, key: string, input: ExternalInput, env: Env)
    requires input.amount > 0 && input.provider == c.Provider()
    requires c.ValidateCashIn(ParamsOf(input)).Success?
    requires GetWalletAccount(s, input.tenant, input.wallet).Success?
    requires GetWalletAccount(s, input.tenant, input.wallet).value.currency == input.currency
    requires CheckCredit(s, input.tenant, input.wallet, input.amount, input.currency,
                         GetWalletAccount(s, input.tenant, input.wallet).value.balance).Success?
    ensures var r := ExternalBody(CashIn, s, map["mock" := MockConnector][c.Provider() := c], key, input, env).result;
      r == Success(ExternalResponse(env.externalId, env.txId, env.batchId, CashIn, input)) && r.value.external.provider == c.Provider()
  {
    var connectors := map["mock" := MockConnector][c.Provider() := c];
    assert GetConnector(connectors, input.provider) == Success(c);
    assert ExternalGuards(CashIn, s, connectors, input, env.today).Success?;
    ExternalContract(CashIn, s, connectors, key, input, env);
  }
}
