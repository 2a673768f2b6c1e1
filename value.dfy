/**
 * Issuing value into a wallet and redeeming it out again, against the
 * tenant's treasury account for the currency, created on first use.
 */
module Value {
  import opened Types
  import opened Store
  import opened Balances
  import opened Ledger
  import opened Compliance
  import opened Guards

  /** The code of the tenant's treasury account for a currency. */
  function TreasuryCode(currency: Currency): string {
    "INTERNAL_TREASURY_" + currency
  }

  /** `ensureTreasuryAccount`. */
  function EnsureTreasuryStep(s: DbState, tenant: Id, currency: Currency, newId: Id): (Id, DbState) {
    EnsureAccountStep(s, tenant, TreasuryCode(currency), currency, newId)
  }

  method EnsureTreasuryAccount(db: Db, tenant: Id, currency: Currency, newId: Id) returns (id: Id)
    modifies db`accounts, db`accountCodes
    ensures (id, db.State()) == EnsureTreasuryStep(old(db.State()), tenant, currency, newId)
  {
    id := EnsureAccount(db, tenant, TreasuryCode(currency), currency, newId);
  }

  /** The pending `issue` or `redeem` row. */
  function ValueRow(op: ValueOp, key: string, input: ValueInput): Transaction {
    Transaction(input.tenant, if op == IssueOp then IssueTx else RedeemTx, Pending, input.amount, input.currency, key, None)
  }

  /** Issue debits treasury and credits the wallet; redeem debits the wallet and credits treasury. */
  function ValueLines(op: ValueOp, treasury: Id, walletAccount: Id, input: ValueInput): seq<Line> {
    if op == IssueOp then TwoLegLines(treasury, walletAccount, input.amount, input.currency)
    else TwoLegLines(walletAccount, treasury, input.amount, input.currency)
  }

  /** The state before the posting: treasury account ensured, transaction `pending`. */
  function ValueRecorded(op: ValueOp, s: DbState, key: string, input: ValueInput, env: Env): DbState {
    var s1 := EnsureTreasuryStep(s, input.tenant, input.currency, env.accountId).1;
    WithTransaction(s1, env.txId, ValueRow(op, key, input))
  }

  /** The writes of `issue` / `redeem` once their checks passed: treasury, pending row, posting, status `posted`. */
  function ValueWrites(op: ValueOp, s: DbState, walletAccount: Id, key: string, input: ValueInput, env: Env): Outcome<Response> {
    var treasury := EnsureTreasuryStep(s, input.tenant, input.currency, env.accountId).0;
    var lines := ValueLines(op, treasury, walletAccount, input);
    var posted := PostStep(ValueRecorded(op, s, key, input, env), env.txId, lines, env.batchId, env.today);
    match posted.result
    case Failure(e) => Outcome(Failure(e), posted.state)
    case Success(batchId) => Outcome(Success(ValueResponse(op, env.txId, batchId, input)), WithStatus(posted.state, env.txId, Posted))
  }

  /**
   * Besides the treasury get-or-create, the writes of an issue or redeem
   * touch only transactions, batches and entries.
   */
  lemma {:induction false} WritesFrame(op: ValueOp, s: DbState, walletAccount: Id, key: string, input: ValueInput, env: Env)
    ensures ValueWrites(op, s, walletAccount, key, input, env).state.(transactions := s.transactions, batches := s.batches, entries := s.entries)
         == EnsureTreasuryStep(s, input.tenant, input.currency, env.accountId).1
  {
    var (treasury, s1) := EnsureTreasuryStep(s, input.tenant, input.currency, env.accountId);
    var recorded := ValueRecorded(op, s, key, input, env);
    var posted := PostStep(recorded, env.txId, ValueLines(op, treasury, walletAccount, input), env.batchId, env.today);
    EnsureAccountFrame(s, input.tenant, TreasuryCode(input.currency), input.currency, env.accountId);
    PostFrame(recorded, env.txId, ValueLines(op, treasury, walletAccount, input), env.batchId, env.today);
    StatusFrame(posted.state, env.txId, Posted);
    assert recorded.(transactions := s.transactions) == s1;
  }

  /** The pair an issue or redeem posts passes batch validation exactly when the amount is positive. */
  lemma {:induction false} ValueLinesValid(op: ValueOp, treasury: Id, walletAccount: Id, input: ValueInput)
    ensures Validation(ValueLines(op, treasury, walletAccount, input)).Success? <==> input.amount > 0
  {
    if op == IssueOp {
      TwoLegValid(treasury, walletAccount, input.amount, input.currency);
    } else {
      TwoLegValid(walletAccount, treasury, input.amount, input.currency);
    }
  }

  /** With a positive amount the posting after the pending row succeeds, adding the batch and its entries. */
  lemma {:induction false} ValuePosts(op: ValueOp, s: DbState, walletAccount: Id, key: string, input: ValueInput, env: Env)
    requires input.amount > 0
    ensures var r := ValueRecorded(op, s, key, input, env);
      var lines := ValueLines(op, EnsureTreasuryStep(s, input.tenant, input.currency, env.accountId).0, walletAccount, input);
      PostStep(r, env.txId, lines, env.batchId, env.today)
      == Outcome(Success(env.batchId), r.(batches := r.batches[env.batchId := Batch(env.txId, env.today)], entries := r.entries + Posting(env.batchId, lines)))
  {
    var treasury := EnsureTreasuryStep(s, input.tenant, input.currency, env.accountId).0;
    ValueLinesValid(op, treasury, walletAccount, input);
    PostSucceeds(ValueRecorded(op, s, key, input, env), env.txId, ValueLines(op, treasury, walletAccount, input), env.batchId, env.today);
  }

  /** The pending row is the only write before the posting, apart from the treasury account. */
  lemma {:induction false} ValueRecordedRows(op: ValueOp, s: DbState, key: string, input: ValueInput, env: Env)
    ensures ValueRecorded(op, s, key, input, env).transactions == s.transactions[env.txId := ValueRow(op, key, input)]
    ensures ValueRecorded(op, s, key, input, env).batches == s.batches
    ensures ValueRecorded(op, s, key, input, env).entries == s.entries
    ensures ValueRecorded(op, s, key, input, env).principal == s.principal
    ensures ValueRecorded(op, s, key, input, env).wallets == s.wallets
    ensures ValueRecorded(op, s, key, input, env).accountCodes == EnsureTreasuryStep(s, input.tenant, input.currency, env.accountId).1.accountCodes
  {
  }

  /** With a positive amount the writes report the transaction and batch and add exactly one batch, dated today. */
  lemma {:induction false} WritesPost(op: ValueOp, s: DbState, walletAccount: Id, key: string, input: ValueInput, env: Env)
    requires input.amount > 0
    ensures ValueWrites(op, s, walletAccount, key, input, env).result == Success(ValueResponse(op, env.txId, env.batchId, input))
    ensures ValueWrites(op, s, walletAccount, key, input, env).state.batches == s.batches[env.batchId := Batch(env.txId, env.today)]
  {
    ValuePosts(op, s, walletAccount, key, input, env);
    ValueRecordedRows(op, s, key, input, env);
  }

  /** With a positive amount the writes leave the new transaction row `posted`. */
  lemma {:induction false} WritesRow(op: ValueOp, s: DbState, walletAccount: Id, key: string, input: ValueInput, env: Env)
    requires input.amount > 0
    ensures ValueWrites(op, s, walletAccount, key, input, env).state.transactions == s.transactions[env.txId := ValueRow(op, key, input).(status := Posted)]
  {
    ValuePosts(op, s, walletAccount, key, input, env);
    ValueRecordedRows(op, s, key, input, env);
  }

  /** With a positive amount the writes append exactly the treasury/wallet pair. */
  lemma {:induction false} WritesEntries(op: ValueOp, s: DbState, walletAccount: Id, key: string, input: ValueInput, env: Env)
    requires input.amount > 0
    ensures ValueWrites(op, s, walletAccount, key, input, env).state.entries
         == s.entries + Posting(env.batchId, ValueLines(op, EnsureTreasuryStep(s, input.tenant, input.currency, env.accountId).0, walletAccount, input))
  {
    ValuePosts(op, s, walletAccount, key, input, env);
    ValueRecordedRows(op, s, key, input, env);
  }

  /** The writes leave every wallet's principal account alone. */
  lemma {:induction false} WritesKeepPrincipal(op: ValueOp, s: DbState, walletAccount: Id, key: string, input: ValueInput, env: Env)
    ensures ValueWrites(op, s, walletAccount, key, input, env).state.principal == s.principal
  {
    ValueRecordedRows(op, s, key, input, env);
    var (treasury, s1) := EnsureTreasuryStep(s, input.tenant, input.currency, env.accountId);
    var recorded := ValueRecorded(op, s, key, input, env);
    var posted := PostStep(recorded, env.txId, ValueLines(op, treasury, walletAccount, input), env.batchId, env.today);
    EnsureAccountFrame(s, input.tenant, TreasuryCode(input.currency), input.currency, env.accountId);
    PostFrame(recorded, env.txId, ValueLines(op, treasury, walletAccount, input), env.batchId, env.today);
    StatusFrame(posted.state, env.txId, Posted);
    assert recorded.(transactions := s.transactions) == s1;
  }

  /** The writes leave the wallet rows alone. */
  lemma {:induction false} WritesKeepWallets(op: ValueOp, s: DbState, walletAccount: Id, key: string, input: ValueInput, env: Env)
    ensures ValueWrites(op, s, walletAccount, key, input, env).state.wallets == s.wallets
  {
    ValueRecordedRows(op, s, key, input, env);
    var (treasury, s1) := EnsureTreasuryStep(s, input.tenant, input.currency, env.accountId);
    var recorded := ValueRecorded(op, s, key, input, env);
    var posted := PostStep(recorded, env.txId, ValueLines(op, treasury, walletAccount, input), env.batchId, env.today);
    EnsureAccountFrame(s, input.tenant, TreasuryCode(input.currency), input.currency, env.accountId);
    PostFrame(recorded, env.txId, ValueLines(op, treasury, walletAccount, input), env.batchId, env.today);
    StatusFrame(posted.state, env.txId, Posted);
    assert recorded.(transactions := s.transactions) == s1;
  }

  /** The writes change the account index only through the treasury account. */
  lemma {:induction false} WritesKeepCodes(op: ValueOp, s: DbState, walletAccount: Id, key: string, input: ValueInput, env: Env)
    ensures ValueWrites(op, s, walletAccount, key, input, env).state.accountCodes
         == EnsureTreasuryStep(s, input.tenant, input.currency, env.accountId).1.accountCodes
  {
    ValueRecordedRows(op, s, key, input, env);
    var (treasury, s1) := EnsureTreasuryStep(s, input.tenant, input.currency, env.accountId);
    var recorded := ValueRecorded(op, s, key, input, env);
    var posted := PostStep(recorded, env.txId, ValueLines(op, treasury, walletAccount, input), env.batchId, env.today);
    EnsureAccountFrame(s, input.tenant, TreasuryCode(input.currency), input.currency, env.accountId);
    PostFrame(recorded, env.txId, ValueLines(op, treasury, walletAccount, input), env.batchId, env.today);
    StatusFrame(posted.state, env.txId, Posted);
    assert recorded.(transactions := s.transactions) == s1;
  }

  /** The writes move the amount between the treasury and the wallet in the operation's direction. */
  lemma {:induction false} WritesMoveAmount(op: ValueOp, s: DbState, walletAccount: Id, key: string, input: ValueInput, env: Env)
    requires input.amount > 0
    ensures var o := ValueWrites(op, s, walletAccount, key, input, env);
      var treasury := EnsureTreasuryStep(s, input.tenant, input.currency, env.accountId).0;
      var (from, to) := if op == IssueOp then (treasury, walletAccount) else (walletAccount, treasury);
      forall a :: Balance(o.state.entries, a)
                  == Balance(s.entries, a) - (if a == from then input.amount else 0)
                                           + (if a == to then input.amount else 0)
  {
    var treasury := EnsureTreasuryStep(s, input.tenant, input.currency, env.accountId).0;
    var (from, to) := if op == IssueOp then (treasury, walletAccount) else (walletAccount, treasury);
    assert ValueLines(op, treasury, walletAccount, input) == TwoLegLines(from, to, input.amount, input.currency);
    WritesEntries(op, s, walletAccount, key, input, env);
    forall a {
      TwoLegEffect(s.entries, env.batchId, from, to, input.amount, input.currency, a);
    }
  }

  /** With a positive amount the writes append one balanced batch under the fresh batch id, so every batch stays balanced. */
  lemma {:induction false} WritesKeepLedgerBalanced(op: ValueOp, s: DbState, walletAccount: Id, key: string, input: ValueInput, env: Env)
    requires LedgerBalanced(s) && env.batchId !in s.batches && input.amount > 0
    ensures LedgerBalanced(ValueWrites(op, s, walletAccount, key, input, env).state)
  {
    var treasury := EnsureTreasuryStep(s, input.tenant, input.currency, env.accountId).0;
    var lines := ValueLines(op, treasury, walletAccount, input);
    WritesPost(op, s, walletAccount, key, input, env);
    WritesEntries(op, s, walletAccount, key, input, env);
    ValueLinesValid(op, treasury, walletAccount, input);
    ValidationMeaning(lines);
    AppendKeepsLedgerBalanced(s, ValueWrites(op, s, walletAccount, key, input, env).state, env.txId, lines, env.batchId, env.today);
  }

  // ------------------------------------------------------------ issue

  /** The checks of `issue`: positive amount, principal account, currency, credit gate. No lock is taken. */
  function IssueGuards(s: DbState, input: ValueInput, today: Day): Result<WalletAccount> {
    var amount :- MustBePositive(input.amount);
    var wallet :- GetWalletAccount(s, input.tenant, input.wallet);
    var sameCurrency :- Require(wallet.currency == input.currency, CurrencyMismatch);
    var creditOk :- CheckCredit(s, input.tenant, input.wallet, amount, input.currency, wallet.balance);
    Success(wallet)
  }

  /** The handler of `issue`: debit treasury, credit wallet. */
  function IssueBody(s: DbState, key: string, input: ValueInput, env: Env): Outcome<Response> {
    match IssueGuards(s, input, env.today)
    case Failure(e) => Outcome(Failure(e), s)
    case Success(wallet) => ValueWrites(IssueOp, s, wallet.accountId, key, input, env)
  }

  method Issue(db: Db, key: string, input: ValueInput, env: Env) returns (r: Result<Response>)
    modifies db`accounts, db`accountCodes, db`transactions, db`batches, db`entries
    ensures Outcome(r, db.State()) == IssueBody(old(db.State()), key, input, env)
  {
    var guards := IssueGuards(db.State(), input, env.today);
    match guards {
      case Failure(e) =>
        r := Failure(e);
      case Success(wallet) =>
        var treasury := EnsureTreasuryAccount(db, input.tenant, input.currency, env.accountId);
        db.InsertTransaction(env.txId, ValueRow(IssueOp, key, input));
        var lines := TwoLegLines(treasury, wallet.accountId, input.amount, input.currency);
        var posted := Post(db, env.txId, lines, env.batchId, env.today);
        match posted {
          case Failure(e) =>
            r := Failure(e);
          case Success(batchId) =>
            db.UpdateStatus(env.txId, Posted);
            r := Success(ValueResponse(IssueOp, env.txId, batchId, input));
        }
    }
  }

  /**
   * An issue whose checks pass always posts and the `issue` transaction ends
   * `posted`; a failing check writes nothing and reports the check's error.
   */
  lemma {:induction false} IssueContract(s: DbState, key: string, input: ValueInput, env: Env)
    ensures var o := IssueBody(s, key, input, env);
      && (o.result.Success? <==> IssueGuards(s, input, env.today).Success?)
      && (o.result.Failure? ==> o.state == s && o.result.error == IssueGuards(s, input, env.today).error)
      && (o.result.Success? ==>
            && o.result.value == ValueResponse(IssueOp, env.txId, env.batchId, input)
            && o.state.transactions == s.transactions[env.txId := ValueRow(IssueOp, key, input).(status := Posted)]
            && o.state.batches == s.batches[env.batchId := Batch(env.txId, env.today)]
            && o.state.entries == s.entries + Posting(env.batchId, TwoLegLines(EnsureTreasuryStep(s, input.tenant, input.currency, env.accountId).0, IssueGuards(s, input, env.today).value.accountId, input.amount, input.currency))
            && o.state.principal == s.principal && o.state.wallets == s.wallets
            && o.state.(transactions := s.transactions, batches := s.batches, entries := s.entries)
               == EnsureTreasuryStep(s, input.tenant, input.currency, env.accountId).1)
  {
    var g := IssueGuards(s, input, env.today);
    if g.Success? {
      assert input.amount > 0;
      assert IssueBody(s, key, input, env) == ValueWrites(IssueOp, s, g.value.accountId, key, input, env);
      WritesPost(IssueOp, s, g.value.accountId, key, input, env);
      WritesRow(IssueOp, s, g.value.accountId, key, input, env);
      WritesEntries(IssueOp, s, g.value.accountId, key, input, env);
      WritesKeepPrincipal(IssueOp, s, g.value.accountId, key, input, env);
      WritesKeepWallets(IssueOp, s, g.value.accountId, key, input, env);
      WritesFrame(IssueOp, s, g.value.accountId, key, input, env);
    }
  }

  /** A successful issue moves exactly the amount from the treasury account to the wallet's principal account. */
  lemma {:induction false} IssueMovesAmount(s: DbState, key: string, input: ValueInput, env: Env)
    requires IssueBody(s, key, input, env).result.Success?
    ensures var o := IssueBody(s, key, input, env);
      var wallet := IssueGuards(s, input, env.today).value;
      var treasury := EnsureTreasuryStep(s, input.tenant, input.currency, env.accountId).0;
      forall a :: Balance(o.state.entries, a)
                  == Balance(s.entries, a) - (if a == treasury then input.amount else 0)
                                           + (if a == wallet.accountId then input.amount else 0)
  {
    var g := IssueGuards(s, input, env.today);
    assert input.amount > 0;
    assert IssueBody(s, key, input, env) == ValueWrites(IssueOp, s, g.value.accountId, key, input, env);
    WritesMoveAmount(IssueOp, s, g.value.accountId, key, input, env);
  }

  // ------------------------------------------------------------ redeem

  /** The checks of `redeem`: positive amount, wallet lock, principal account, currency, funds, debit gate. */
  function RedeemGuards(s: DbState, input: ValueInput, today: Day): Result<WalletAccount> {
    var amount :- MustBePositive(input.amount);
    var locked :- LockWalletRow(s, input.tenant, input.wallet);
    var wallet :- GetWalletAccount(s, input.tenant, input.wallet);
    var sameCurrency :- Require(wallet.currency == input.currency, CurrencyMismatch);
    var funded :- Require(wallet.balance >= amount, InsufficientFunds);
    var debitOk :- CheckDebit(s, input.tenant, input.wallet, wallet.accountId, amount, input.currency, today);
    Success(wallet)
  }

  /** The handler of `redeem`: debit wallet, credit treasury. */
  function RedeemBody(s: DbState, key: string, input: ValueInput, env: Env): Outcome<Response> {
    match RedeemGuards(s, input, env.today)
    case Failure(e) => Outcome(Failure(e), s)
    case Success(wallet) => ValueWrites(RedeemOp, s, wallet.accountId, key, input, env)
  }

  method Redeem(db: Db, key: string, input: ValueInput, env: Env) returns (r: Result<Response>)
    modifies db`accounts, db`accountCodes, db`transactions, db`batches, db`entries
    ensures Outcome(r, db.State()) == RedeemBody(old(db.State()), key, input, env)
  {
    var guards := RedeemGuards(db.State(), input, env.today);
    match guards {
      case Failure(e) =>
        r := Failure(e);
      case Success(wallet) =>
        var treasury := EnsureTreasuryAccount(db, input.tenant, input.currency, env.accountId);
        db.InsertTransaction(env.txId, ValueRow(RedeemOp, key, input));
        var lines := TwoLegLines(wallet.accountId, treasury, input.amount, input.currency);
        var posted := Post(db, env.txId, lines, env.batchId, env.today);
        match posted {
          case Failure(e) =>
            r := Failure(e);
          case Success(batchId) =>
            db.UpdateStatus(env.txId, Posted);
            r := Success(ValueResponse(RedeemOp, env.txId, batchId, input));
        }
    }
  }

  /**
   * A redeem whose checks pass always posts and the `redeem` transaction ends
   * `posted`; a failing check writes nothing and reports the check's error.
   */
  lemma {:induction false} RedeemContract(s: DbState, key: string, input: ValueInput, env: Env)
    ensures var o := RedeemBody(s, key, input, env);
      && (o.result.Success? <==> RedeemGuards(s, input, env.today).Success?)
      && (o.result.Failure? ==> o.state == s && o.result.error == RedeemGuards(s, input, env.today).error)
      && (o.result.Success? ==>
            && o.result.value == ValueResponse(RedeemOp, env.txId, env.batchId, input)
            && o.state.transactions == s.transactions[env.txId := ValueRow(RedeemOp, key, input).(status := Posted)]
            && o.state.batches == s.batches[env.batchId := Batch(env.txId, env.today)]
            && o.state.entries == s.entries + Posting(env.batchId, TwoLegLines(RedeemGuards(s, input, env.today).value.accountId, EnsureTreasuryStep(s, input.tenant, input.currency, env.accountId).0, input.amount, input.currency))
            && o.state.principal == s.principal && o.state.wallets == s.wallets
            && o.state.(transactions := s.transactions, batches := s.batches, entries := s.entries)
               == EnsureTreasuryStep(s, input.tenant, input.currency, env.accountId).1)
  {
    var g := RedeemGuards(s, input, env.today);
    if g.Success? {
      assert input.amount > 0;
      assert RedeemBody(s, key, input, env) == ValueWrites(RedeemOp, s, g.value.accountId, key, input, env);
      WritesPost(RedeemOp, s, g.value.accountId, key, input, env);
      WritesRow(RedeemOp, s, g.value.accountId, key, input, env);
      WritesEntries(RedeemOp, s, g.value.accountId, key, input, env);
      WritesKeepPrincipal(RedeemOp, s, g.value.accountId, key, input, env);
      WritesKeepWallets(RedeemOp, s, g.value.accountId, key, input, env);
      WritesFrame(RedeemOp, s, g.value.accountId, key, input, env);
    }
  }

  /** A successful redeem moves exactly the amount from the wallet's principal account to the treasury account. */
  lemma {:induction false} RedeemMovesAmount(s: DbState, key: string, input: ValueInput, env: Env)
    requires RedeemBody(s, key, input, env).result.Success?
    ensures var o := RedeemBody(s, key, input, env);
      var wallet := RedeemGuards(s, input, env.today).value;
      var treasury := EnsureTreasuryStep(s, input.tenant, input.currency, env.accountId).0;
      forall a :: Balance(o.state.entries, a)
                  == Balance(s.entries, a) - (if a == wallet.accountId then input.amount else 0)
                                           + (if a == treasury then input.amount else 0)
  {
    var g := RedeemGuards(s, input, env.today);
    assert input.amount > 0;
    assert RedeemBody(s, key, input, env) == ValueWrites(RedeemOp, s, g.value.accountId, key, input, env);
    WritesMoveAmount(RedeemOp, s, g.value.accountId, key, input, env);
  }

  /** A redeem is refused with "Insufficient funds" exactly when an otherwise valid wallet holds less than the amount. */
  lemma {:induction false} RedeemFunds(s: DbState, input: ValueInput, today: Day)
    requires input.amount > 0 && LockWalletRow(s, input.tenant, input.wallet).Success?
    requires GetWalletAccount(s, input.tenant, input.wallet).Success?
    requires GetWalletAccount(s, input.tenant, input.wallet).value.currency == input.currency
    ensures RedeemGuards(s, input, today) == Failure(InsufficientFunds)
        <==> GetWalletAccount(s, input.tenant, input.wallet).value.balance < input.amount
  {
    var wallet := GetWalletAccount(s, input.tenant, input.wallet).value;
    var debit := CheckDebit(s, input.tenant, input.wallet, wallet.accountId, input.amount, input.currency, today);
    assert debit.Failure? ==> debit.error != InsufficientFunds;
  }

  /** A successful issue or redeem passed its checks. */
  lemma {:induction false} ValueSucceededGuards(s: DbState, key: string, input: ValueInput, env: Env)
    ensures IssueBody(s, key, input, env).result.Success? ==> IssueGuards(s, input, env.today).Success?
    ensures RedeemBody(s, key, input, env).result.Success? ==> RedeemGuards(s, input, env.today).Success?
  {
  }

  /** The account the checks of issue and redeem hand on is the wallet's principal account. */
  lemma {:induction false} GuardsAccount(s: DbState, input: ValueInput, today: Day)
    ensures IssueGuards(s, input, today).Success? ==>
      input.wallet in s.principal && IssueGuards(s, input, today).value.accountId == s.principal[input.wallet]
    ensures RedeemGuards(s, input, today).Success? ==>
      input.wallet in s.principal && RedeemGuards(s, input, today).value.accountId == s.principal[input.wallet]
  {
  }

  /** After an issue, a redeem from the same wallet debits the principal account the issue credited. */
  lemma {:induction false} SameWalletAccount(s: DbState, key1: string, input: ValueInput, env1: Env, today: Day)
    requires IssueGuards(s, input, env1.today).Success?
    requires RedeemGuards(IssueBody(s, key1, input, env1).state, input, today).Success?
    ensures RedeemGuards(IssueBody(s, key1, input, env1).state, input, today).value.accountId
         == IssueGuards(s, input, env1.today).value.accountId
  {
    var w := IssueGuards(s, input, env1.today).value.accountId;
    var s1 := IssueBody(s, key1, input, env1).state;
    assert IssueBody(s, key1, input, env1) == ValueWrites(IssueOp, s, w, key1, input, env1);
    WritesKeepPrincipal(IssueOp, s, w, key1, input, env1);
    GuardsAccount(s, input, env1.today);
    GuardsAccount(s1, input, today);
  }

  /** After an issue, every later issue or redeem in that tenant and currency uses the same treasury account. */
  lemma {:induction false} SameTreasury(s: DbState, key1: string, input: ValueInput, env1: Env, newId: Id)
    requires IssueGuards(s, input, env1.today).Success?
    ensures EnsureTreasuryStep(IssueBody(s, key1, input, env1).state, input.tenant, input.currency, newId).0
         == EnsureTreasuryStep(s, input.tenant, input.currency, env1.accountId).0
  {
    var w := IssueGuards(s, input, env1.today).value.accountId;
    var s1 := IssueBody(s, key1, input, env1).state;
    assert IssueBody(s, key1, input, env1) == ValueWrites(IssueOp, s, w, key1, input, env1);
    WritesKeepCodes(IssueOp, s, w, key1, input, env1);
    EnsureAccountStable(s, s1, input.tenant, TreasuryCode(input.currency), input.currency, env1.accountId, newId);
  }

  /**
   * Issuing an amount into a wallet and redeeming the same amount from it
   * afterwards returns every account, the wallet's and the treasury's
   * included, to its earlier balance.
   */
  lemma {:induction false} IssueThenRedeem(s: DbState, key1: string, key2: string, input: ValueInput, env1: Env, env2: Env)
    requires IssueBody(s, key1, input, env1).result.Success?
    requires RedeemBody(IssueBody(s, key1, input, env1).state, key2, input, env2).result.Success?
    ensures var s2 := RedeemBody(IssueBody(s, key1, input, env1).state, key2, input, env2).state;
      forall a :: Balance(s2.entries, a) == Balance(s.entries, a)
  {
    var s1 := IssueBody(s, key1, input, env1).state;
    var s2 := RedeemBody(s1, key2, input, env2).state;
    var w := IssueGuards(s, input, env1.today).value.accountId;
    var t := EnsureTreasuryStep(s, input.tenant, input.currency, env1.accountId).0;
    ValueSucceededGuards(s, key1, input, env1);
    ValueSucceededGuards(s1, key2, input, env2);
    SameWalletAccount(s, key1, input, env1, env2.today);
    SameTreasury(s, key1, input, env1, env2.accountId);
    IssueMovesAmount(s, key1, input, env1);
    RedeemMovesAmount(s1, key2, input, env2);
    MoveAndBack(s.entries, s1.entries, s2.entries, t, w, input.amount);
  }
}
