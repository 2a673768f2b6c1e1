/**
 * Wallet-to-wallet transfers and reversals: the handler bodies that run
 * inside the idempotency coordinator, and the transaction read.
 */
module Transfers {
  import opened Types
  import opened Store
  import opened Balances
  import opened Ledger
  import opened Compliance
  import opened Guards

  // ------------------------------------------------------------ createTransfer

  /**
   * The checks of `createTransfer`, in source order: positive amount, both
   * wallet rows locked, both principal accounts found, currencies, funds,
   * the debit gate on the source and the credit gate on the destination.
   */
  function TransferGuards(s: DbState, input: TransferInput, today: Day): Result<(WalletAccount, WalletAccount)> {
    var amount :- MustBePositive(input.amount);
    var locked :- LockWalletRows(s, input.tenant, [input.fromWallet, input.toWallet]);
    var from :- GetWalletAccount(s, input.tenant, input.fromWallet);
    var to :- GetWalletAccount(s, input.tenant, input.toWallet);
    var sameCurrency :- Require(from.currency == input.currency && to.currency == input.currency, CurrencyMismatch);
    var funded :- Require(from.balance >= amount, InsufficientFunds);
    var debitOk :- CheckDebit(s, input.tenant, input.fromWallet, from.accountId, amount, input.currency, today);
    var creditOk :- CheckCredit(s, input.tenant, input.toWallet, amount, input.currency, to.balance);
    Success((from, to))
  }

  /** The pending transfer row. */
  function TransferRow(key: string, input: TransferInput): Transaction {
    Transaction(input.tenant, TransferTx, Pending, input.amount, input.currency, key, None)
  }

  /** The handler of `createTransfer`: checks, then the writes. */
  function TransferBody(s: DbState, key: string, input: TransferInput, env: Env): Outcome<Response> {
    match TransferGuards(s, input, env.today)
    case Failure(e) => Outcome(Failure(e), s)
    case Success(accounts) => TransferWrites(s, key, input, env, accounts.0.accountId, accounts.1.accountId)
  }

  /** The writes of `createTransfer` once its checks passed: pending row, posting, status `posted`. */
  function TransferWrites(s: DbState, key: string, input: TransferInput, env: Env, from: Id, to: Id): Outcome<Response> {
    var s1 := WithTransaction(s, env.txId, TransferRow(key, input));
    var posted := PostStep(s1, env.txId, TwoLegLines(from, to, input.amount, input.currency), env.batchId, env.today);
    match posted.result
    case Failure(e) => Outcome(Failure(e), posted.state)
    case Success(batchId) => Outcome(Success(TransferResponse(env.txId, batchId, input)), WithStatus(posted.state, env.txId, Posted))
  }

  method Transfer(db: Db, key: string, input: TransferInput, env: Env) returns (r: Result<Response>)
    modifies db`transactions, db`batches, db`entries
    ensures Outcome(r, db.State()) == TransferBody(old(db.State()), key, input, env)
  {
    var guards := TransferGuards(db.State(), input, env.today);
    match guards {
      case Failure(e) =>
        r := Failure(e);
      case Success(accounts) =>
        db.InsertTransaction(env.txId, TransferRow(key, input));
        var lines := TwoLegLines(accounts.0.accountId, accounts.1.accountId, input.amount, input.currency);
        var posted := Post(db, env.txId, lines, env.batchId, env.today);
        match posted {
          case Failure(e) =>
            r := Failure(e);
          case Success(batchId) =>
            db.UpdateStatus(env.txId, Posted);
            r := Success(TransferResponse(env.txId, batchId, input));
        }
    }
  }

  /**
   * A transfer whose checks pass always posts: it records one `transfer`
   * transaction, `posted`, posts debit-source / credit-destination for the
   * amount, and moves exactly the amount from the source balance to the
   * destination balance; any failing check writes nothing.
   */
  lemma {:induction false} TransferContract(s: DbState, key: string, input: TransferInput, env: Env)
    ensures var o := TransferBody(s, key, input, env);
      && (o.result.Success? <==> TransferGuards(s, input, env.today).Success?)
      && o.state.(transactions := s.transactions, batches := s.batches, entries := s.entries) == s
      && (o.result.Failure? ==> o.state == s && o.result.error == TransferGuards(s, input, env.today).error)
      && (o.result.Success? ==>
            var (from, to) := TransferGuards(s, input, env.today).value;
            && o.result.value == TransferResponse(env.txId, env.batchId, input)
            && o.state.transactions == s.transactions[env.txId := TransferRow(key, input).(status := Posted)]
            && o.state.batches == s.batches[env.batchId := Batch(env.txId, env.today)]
            && o.state.entries == s.entries + Posting(env.batchId, TwoLegLines(from.accountId, to.accountId, input.amount, input.currency))
            && (forall a :: Balance(o.state.entries, a)
                  == Balance(s.entries, a) - (if a == from.accountId then input.amount else 0)
                                           + (if a == to.accountId then input.amount else 0)))
  {
    TransferFrame(s, key, input, env);
    var g := TransferGuards(s, input, env.today);
    if g.Success? {
      var (from, to) := g.value;
      assert input.amount > 0;
      assert TransferBody(s, key, input, env) == TransferWrites(s, key, input, env, from.accountId, to.accountId);
      WritesPost(s, key, input, env, from.accountId, to.accountId);
      WritesRows(s, key, input, env, from.accountId, to.accountId);
      WritesEntries(s, key, input, env, from.accountId, to.accountId);
      forall a {
        TwoLegEffect(s.entries, env.batchId, from.accountId, to.accountId, input.amount, input.currency, a);
      }
    }
  }

  /** A transfer, whatever its outcome, writes only transactions, batches and entries. */
  lemma {:induction false} TransferFrame(s: DbState, key: string, input: TransferInput, env: Env)
    ensures TransferBody(s, key, input, env).state.(transactions := s.transactions, batches := s.batches, entries := s.entries) == s
  {
    var g := TransferGuards(s, input, env.today);
    if g.Success? {
      var (from, to) := g.value;
      assert TransferBody(s, key, input, env) == TransferWrites(s, key, input, env, from.accountId, to.accountId);
      WritesFrame(s, key, input, env, from.accountId, to.accountId);
    }
  }

  /** The writes of a transfer touch only transactions, batches and entries. */
  lemma {:induction false} WritesFrame(s: DbState, key: string, input: TransferInput, env: Env, from: Id, to: Id)
    ensures TransferWrites(s, key, input, env, from, to).state.(transactions := s.transactions, batches := s.batches, entries := s.entries) == s
  {
    var s1 := WithTransaction(s, env.txId, TransferRow(key, input));
    var posted := PostStep(s1, env.txId, TwoLegLines(from, to, input.amount, input.currency), env.batchId, env.today);
    PostFrame(s1, env.txId, TwoLegLines(from, to, input.amount, input.currency), env.batchId, env.today);
    StatusFrame(posted.state, env.txId, Posted);
  }

  /** With a positive amount the posting of the writes succeeds: the response names the new transaction and batch. */
  lemma {:induction false} WritesPost(s: DbState, key: string, input: TransferInput, env: Env, from: Id, to: Id)
    requires input.amount > 0
    ensures TransferWrites(s, key, input, env, from, to).result == Success(TransferResponse(env.txId, env.batchId, input))
    ensures TransferWrites(s, key, input, env, from, to).state.batches == s.batches[env.batchId := Batch(env.txId, env.today)]
  {
    TwoLegValid(from, to, input.amount, input.currency);
    PostSucceeds(WithTransaction(s, env.txId, TransferRow(key, input)), env.txId, TwoLegLines(from, to, input.amount, input.currency), env.batchId, env.today);
  }

  /** With a positive amount the writes leave the new transaction row `posted`. */
  lemma {:induction false} WritesRows(s: DbState, key: string, input: TransferInput, env: Env, from: Id, to: Id)
    requires input.amount > 0
    ensures TransferWrites(s, key, input, env, from, to).state.transactions == s.transactions[env.txId := TransferRow(key, input).(status := Posted)]
  {
    TwoLegValid(from, to, input.amount, input.currency);
    PostSucceeds(WithTransaction(s, env.txId, TransferRow(key, input)), env.txId, TwoLegLines(from, to, input.amount, input.currency), env.batchId, env.today);
  }

  /** With a positive amount the writes append the debit-source / credit-destination pair. */
  lemma {:induction false} WritesEntries(s: DbState, key: string, input: TransferInput, env: Env, from: Id, to: Id)
    requires input.amount > 0
    ensures TransferWrites(s, key, input, env, from, to).state.entries == s.entries + Posting(env.batchId, TwoLegLines(from, to, input.amount, input.currency))
  {
    TwoLegValid(from, to, input.amount, input.currency);
    PostSucceeds(WithTransaction(s, env.txId, TransferRow(key, input)), env.txId, TwoLegLines(from, to, input.amount, input.currency), env.batchId, env.today);
  }

  /** A transfer never touches the idempotency rows; the coordinator writes those. */
  lemma {:induction false} TransferKeepsKeys(s: DbState, key: string, input: TransferInput, env: Env)
    ensures TransferBody(s, key, input, env).state.idempotencyKeys == s.idempotencyKeys
  {
    match TransferGuards(s, input, env.today) {
      case Failure(_) =>
      case Success((from, to)) =>
        PostFrame(WithTransaction(s, env.txId, TransferRow(key, input)), env.txId,
                  TwoLegLines(from.accountId, to.accountId, input.amount, input.currency), env.batchId, env.today);
    }
  }

  /** A successful transfer appends one balanced batch under its fresh batch id, so every batch stays balanced. */
  lemma {:induction false} TransferKeepsLedgerBalanced(s: DbState, key: string, input: TransferInput, env: Env)
    requires LedgerBalanced(s) && env.batchId !in s.batches
    requires TransferBody(s, key, input, env).result.Success?
    ensures LedgerBalanced(TransferBody(s, key, input, env).state)
  {
    var (from, to) := TransferGuards(s, input, env.today).value;
    assert input.amount > 0;
    assert TransferBody(s, key, input, env) == TransferWrites(s, key, input, env, from.accountId, to.accountId);
    WritesPost(s, key, input, env, from.accountId, to.accountId);
    WritesEntries(s, key, input, env, from.accountId, to.accountId);
    var lines := TwoLegLines(from.accountId, to.accountId, input.amount, input.currency);
    TwoLegValid(from.accountId, to.accountId, input.amount, input.currency);
    ValidationMeaning(lines);
    AppendKeepsLedgerBalanced(s, TransferBody(s, key, input, env).state, env.txId, lines, env.batchId, env.today);
  }

  /** The funds check admits a balance equal to the amount and rejects one just below it. */
  lemma {:induction false} TransferFundsBoundary(s: DbState, input: TransferInput, today: Day)
    requires input.amount > 0
    requires LockWalletRows(s, input.tenant, [input.fromWallet, input.toWallet]).Success?
    requires GetWalletAccount(s, input.tenant, input.fromWallet).Success?
    requires GetWalletAccount(s, input.tenant, input.toWallet).Success?
    requires GetWalletAccount(s, input.tenant, input.fromWallet).value.currency == input.currency
    requires GetWalletAccount(s, input.tenant, input.toWallet).value.currency == input.currency
    ensures TransferGuards(s, input, today) != Failure(InsufficientFunds)
        <==> GetWalletAccount(s, input.tenant, input.fromWallet).value.balance >= input.amount
  {
    var from := GetWalletAccount(s, input.tenant, input.fromWallet).value;
    var to := GetWalletAccount(s, input.tenant, input.toWallet).value;
    if from.balance >= input.amount {
      var debit := CheckDebit(s, input.tenant, input.fromWallet, from.accountId, input.amount, input.currency, today);
      var credit := CheckCredit(s, input.tenant, input.toWallet, input.amount, input.currency, to.balance);
      assert debit.Failure? ==> debit.error != InsufficientFunds;
      assert credit.Failure? ==> credit.error != InsufficientFunds;
    }
  }

  /** Either wallet in another currency than the request fails the transfer with "Currency mismatch". */
  lemma {:induction false} TransferCurrencyMismatch(s: DbState, input: TransferInput, today: Day)
    requires input.amount > 0
    requires LockWalletRows(s, input.tenant, [input.fromWallet, input.toWallet]).Success?
    requires GetWalletAccount(s, input.tenant, input.fromWallet).Success?
    requires GetWalletAccount(s, input.tenant, input.toWallet).Success?
    requires GetWalletAccount(s, input.tenant, input.fromWallet).value.currency != input.currency
          || GetWalletAccount(s, input.tenant, input.toWallet).value.currency != input.currency
    ensures TransferGuards(s, input, today) == Failure(CurrencyMismatch)
  {
  }

  // ------------------------------------------------------------ reverseTransaction

  /** The read of the original outside the transaction: it must exist and be `posted`. */
  function OriginalRow(s: DbState, txId: Id): (r: Result<Transaction>)
    ensures r.Success? <==> txId in s.transactions && s.transactions[txId].status == Posted
    ensures r.Success? ==> r.value == s.transactions[txId]
    ensures r.Failure? ==> r.error == (if txId in s.transactions then OnlyPostedReversible else OriginalNotFound)
  {
    if txId !in s.transactions then Failure(OriginalNotFound)
    else if s.transactions[txId].status != Posted then Failure(OnlyPostedReversible)
    else Success(s.transactions[txId])
  }

  /** Does entry `e` belong to a batch of transaction `txId` (the join on `ledger_batches`)? */
  predicate OfTransaction(batches: map<Id, Batch>, e: Entry, txId: Id) {
    e.batchId in batches && batches[e.batchId].transactionId == txId
  }

  /** The original's entries, in log order, over a prefix of the log. */
  function TxEntriesOf(batches: map<Id, Batch>, entries: seq<Entry>, txId: Id): seq<Entry>
    decreases |entries|
  {
    if |entries| == 0 then []
    else
      var last := entries[|entries| - 1];
      TxEntriesOf(batches, entries[..|entries| - 1], txId) + (if OfTransaction(batches, last, txId) then [last] else [])
  }

  function TxEntries(s: DbState, txId: Id): seq<Entry> {
    TxEntriesOf(s.batches, s.entries, txId)
  }

  function Flip(d: Direction): Direction {
    if d == Debit then Credit else Debit
  }

  /** The `entries.rows.map(...)` of the reversal: same account, amount and currency, direction flipped. */
  function ReversalLines(entries: seq<Entry>): (lines: seq<Line>)
    ensures |lines| == |entries|
    ensures forall i :: 0 <= i < |entries| ==>
      lines[i] == Line(entries[i].account, Flip(entries[i].direction), entries[i].amount, entries[i].currency)
  {
    seq(|entries|, i requires 0 <= i < |entries| =>
      Line(entries[i].account, Flip(entries[i].direction), entries[i].amount, entries[i].currency))
  }

  /** The pending reversal row: the original's tenant, amount and currency, linked to the original. */
  function ReversalRow(key: string, txId: Id, original: Transaction): Transaction {
    Transaction(original.tenant, ReversalTx, Pending, original.amount, original.currency, key, Some(txId))
  }

  /** The handler of `reverseTransaction`: read the entries, post them flipped, set both statuses. */
  function ReversalBody(s: DbState, key: string, txId: Id, original: Transaction, env: Env): Outcome<Response> {
    var entries := TxEntries(s, txId);
    if |entries| == 0 then Outcome(Failure(NoLedgerEntries), s)
    else
      var s1 := WithTransaction(s, env.txId, ReversalRow(key, txId, original));
      var posted := PostStep(s1, env.txId, ReversalLines(entries), env.batchId, env.today);
      match posted.result
      case Failure(e) => Outcome(Failure(e), posted.state)
      case Success(batchId) =>
        Outcome(Success(ReversalResponse(env.txId, txId, batchId)),
                WithStatus(WithStatus(posted.state, env.txId, Posted), txId, Reversed))
  }

  method Reversal(db: Db, key: string, txId: Id, original: Transaction, env: Env) returns (r: Result<Response>)
    modifies db`transactions, db`batches, db`entries
    ensures Outcome(r, db.State()) == ReversalBody(old(db.State()), key, txId, original, env)
  {
    var entries := TxEntries(db.State(), txId);
    if |entries| == 0 {
      r := Failure(NoLedgerEntries);
      return;
    }
    db.InsertTransaction(env.txId, ReversalRow(key, txId, original));
    var posted := Post(db, env.txId, ReversalLines(entries), env.batchId, env.today);
    match posted {
      case Failure(e) =>
        r := Failure(e);
      case Success(batchId) =>
        db.UpdateStatus(env.txId, Posted);
        db.UpdateStatus(txId, Reversed);
        r := Success(ReversalResponse(env.txId, txId, batchId));
    }
  }

  /** Posting the flipped lines of some entries moves every balance back by exactly what those entries moved it. */
  lemma {:induction false} ReversalNegates(batchId: Id, entries: seq<Entry>, account: Id)
    ensures Balance(Posting(batchId, ReversalLines(entries)), account) == -Balance(entries, account)
    decreases |entries|
  {
    if |entries| > 0 {
      var init := entries[..|entries| - 1];
      ReversalNegates(batchId, init, account);
      var lines := ReversalLines(entries);
      assert lines[..|lines| - 1] == ReversalLines(init);
      var p := Posting(batchId, lines);
      assert p[..|p| - 1] == Posting(batchId, ReversalLines(init));
    }
  }

  lemma {:induction false} ReversalDebits(entries: seq<Entry>)
    ensures DebitTotal(ReversalLines(entries)) == CreditTotal(LinesOf(entries))
    decreases |entries|
  {
    if |entries| > 0 {
      var init := entries[..|entries| - 1];
      ReversalDebits(init);
      var lines := ReversalLines(entries);
      assert lines[..|lines| - 1] == ReversalLines(init);
      var original := LinesOf(entries);
      assert original[..|original| - 1] == LinesOf(init);
    }
  }

  lemma {:induction false} ReversalCredits(entries: seq<Entry>)
    ensures CreditTotal(ReversalLines(entries)) == DebitTotal(LinesOf(entries))
    decreases |entries|
  {
    if |entries| > 0 {
      var init := entries[..|entries| - 1];
      ReversalCredits(init);
      var lines := ReversalLines(entries);
      assert lines[..|lines| - 1] == ReversalLines(init);
      var original := LinesOf(entries);
      assert original[..|original| - 1] == LinesOf(init);
    }
  }

  lemma {:induction false} LinesOfAt(entries: seq<Entry>)
    ensures |LinesOf(entries)| == |entries|
    ensures forall i :: 0 <= i < |entries| ==> LinesOf(entries)[i] == LineOf(entries[i])
    decreases |entries|
  {
    if |entries| > 0 { LinesOfAt(entries[..|entries| - 1]); }
  }

  /** The flipped lines of a balanced batch form a balanced batch, so posting a reversal of one batch cannot fail validation. */
  lemma {:induction false} ReversalBalanced(entries: seq<Entry>)
    requires Balanced(LinesOf(entries))
    ensures Balanced(ReversalLines(entries))
  {
    ReversalDebits(entries);
    ReversalCredits(entries);
    LinesOfAt(entries);
  }

  /** Reversing a reversal gives back the original lines. */
  lemma {:induction false} ReversalInvolution(batchId: Id, entries: seq<Entry>)
    ensures ReversalLines(Posting(batchId, ReversalLines(entries))) == LinesOf(entries)
  {
    PostingAt(batchId, ReversalLines(entries));
    LinesOfAt(entries);
  }

  lemma {:induction false} TxEntriesOfAppend(batches: map<Id, Batch>, xs: seq<Entry>, ys: seq<Entry>, txId: Id)
    ensures TxEntriesOf(batches, xs + ys, txId) == TxEntriesOf(batches, xs, txId) + TxEntriesOf(batches, ys, txId)
    decreases |ys|
  {
    if |ys| > 0 {
      assert (xs + ys)[..|xs + ys| - 1] == xs + ys[..|ys| - 1];
      TxEntriesOfAppend(batches, xs, ys[..|ys| - 1], txId);
    } else {
      assert xs + ys == xs;
    }
  }

  lemma {:induction false} TxEntriesOfNone(batches: map<Id, Batch>, entries: seq<Entry>, txId: Id)
    requires forall i :: 0 <= i < |entries| ==> !OfTransaction(batches, entries[i], txId)
    ensures TxEntriesOf(batches, entries, txId) == []
    decreases |entries|
  {
    if |entries| > 0 { TxEntriesOfNone(batches, entries[..|entries| - 1], txId); }
  }

  lemma {:induction false} TxEntriesOfAll(batches: map<Id, Batch>, entries: seq<Entry>, txId: Id)
    requires forall i :: 0 <= i < |entries| ==> OfTransaction(batches, entries[i], txId)
    ensures TxEntriesOf(batches, entries, txId) == entries
    decreases |entries|
  {
    if |entries| > 0 {
      TxEntriesOfAll(batches, entries[..|entries| - 1], txId);
      assert entries[..|entries| - 1] + [entries[|entries| - 1]] == entries;
    }
  }

  /**
   * What a reversal does, for any transaction: it fails with "Original
   * transaction has no ledger entries" and writes nothing when the
   * transaction has no entries; otherwise it succeeds exactly when the
   * flipped lines pass the ledger's validation, and then appends them as one
   * batch tied to the new reversal transaction.
   */
  lemma {:induction false} ReversalContract(s: DbState, key: string, txId: Id, original: Transaction, env: Env)
    ensures var o := ReversalBody(s, key, txId, original, env);
      var entries := TxEntries(s, txId);
      && (|entries| == 0 ==> o == Outcome(Failure(NoLedgerEntries), s))
      && o.state.(transactions := s.transactions, batches := s.batches, entries := s.entries) == s
      && (|entries| > 0 ==> (o.result.Success? <==> Balanced(ReversalLines(entries))))
      && (o.result.Success? ==>
            && o.result.value == ReversalResponse(env.txId, txId, env.batchId)
            && o.state.batches == s.batches[env.batchId := Batch(env.txId, env.today)]
            && o.state.entries == s.entries + Posting(env.batchId, ReversalLines(entries)))
  {
    ReversalFrame(s, key, txId, original, env);
    var entries := TxEntries(s, txId);
    if |entries| > 0 {
      var lines := ReversalLines(entries);
      ValidationMeaning(lines);
      var s1 := WithTransaction(s, env.txId, ReversalRow(key, txId, original));
      PostContract(s1, env.txId, lines, env.batchId, env.today);
    }
  }

  /** A reversal, whatever its outcome, writes only transactions, batches and entries. */
  lemma {:induction false} ReversalFrame(s: DbState, key: string, txId: Id, original: Transaction, env: Env)
    ensures ReversalBody(s, key, txId, original, env).state.(transactions := s.transactions, batches := s.batches, entries := s.entries) == s
  {
    var entries := TxEntries(s, txId);
    if |entries| > 0 {
      var s1 := WithTransaction(s, env.txId, ReversalRow(key, txId, original));
      var posted := PostStep(s1, env.txId, ReversalLines(entries), env.batchId, env.today);
      PostFrame(s1, env.txId, ReversalLines(entries), env.batchId, env.today);
      StatusFrame(posted.state, env.txId, Posted);
      StatusFrame(WithStatus(posted.state, env.txId, Posted), txId, Reversed);
    }
  }

  /** A successful reversal appends one balanced batch under its fresh batch id, so every batch stays balanced. */
  lemma {:induction false} ReversalKeepsLedgerBalanced(s: DbState, key: string, txId: Id, original: Transaction, env: Env)
    requires LedgerBalanced(s) && env.batchId !in s.batches
    requires ReversalBody(s, key, txId, original, env).result.Success?
    ensures LedgerBalanced(ReversalBody(s, key, txId, original, env).state)
  {
    ReversalContract(s, key, txId, original, env);
    AppendKeepsLedgerBalanced(s, ReversalBody(s, key, txId, original, env).state, env.txId, ReversalLines(TxEntries(s, txId)), env.batchId, env.today);
  }

  /** A successful reversal undoes on every account exactly what the original's entries did. */
  lemma {:induction false} ReversalRestores(s: DbState, key: string, txId: Id, original: Transaction, env: Env)
    requires ReversalBody(s, key, txId, original, env).result.Success?
    ensures forall a :: Balance(ReversalBody(s, key, txId, original, env).state.entries, a)
                     == Balance(s.entries, a) - Balance(TxEntries(s, txId), a)
  {
    var entries := TxEntries(s, txId);
    ReversalContract(s, key, txId, original, env);
    var o := ReversalBody(s, key, txId, original, env);
    forall a ensures Balance(o.state.entries, a) == Balance(s.entries, a) - Balance(entries, a) {
      BalanceAppend(s.entries, Posting(env.batchId, ReversalLines(entries)), a);
      ReversalNegates(env.batchId, entries, a);
    }
  }

  /**
   * A successful reversal records the `reversal` row, `posted` and linked
   * to the original, and marks the original `reversed`; no other
   * transaction changes.
   */
  lemma {:induction false} ReversalStatuses(s: DbState, key: string, txId: Id, original: Transaction, env: Env)
    requires ReversalBody(s, key, txId, original, env).result.Success?
    requires txId in s.transactions && env.txId != txId
    ensures ReversalBody(s, key, txId, original, env).state.transactions
         == s.transactions[env.txId := ReversalRow(key, txId, original).(status := Posted)]
                          [txId := s.transactions[txId].(status := Reversed)]
  {
    var s1 := WithTransaction(s, env.txId, ReversalRow(key, txId, original));
    var posted := PostStep(s1, env.txId, ReversalLines(TxEntries(s, txId)), env.batchId, env.today);
    PostContract(s1, env.txId, ReversalLines(TxEntries(s, txId)), env.batchId, env.today);
    assert posted.state.transactions == s1.transactions;
  }

  /**
   * The entries a transfer posts are exactly the entries of its transaction
   * afterwards: on a consistent store no earlier entry belongs to a batch of
   * a fresh transaction id.
   */
  lemma {:induction false} TransferTxEntries(s: DbState, key: string, input: TransferInput, env: Env)
    requires Consistent(s) && env.txId !in s.transactions && env.batchId !in s.batches
    requires TransferBody(s, key, input, env).result.Success?
    ensures var (from, to) := TransferGuards(s, input, env.today).value;
      TxEntries(TransferBody(s, key, input, env).state, env.txId)
        == Posting(env.batchId, TwoLegLines(from.accountId, to.accountId, input.amount, input.currency))
  {
    TransferContract(s, key, input, env);
    var (from, to) := TransferGuards(s, input, env.today).value;
    FreshPostingEntries(s, env.txId, env.batchId, env.today, TwoLegLines(from.accountId, to.accountId, input.amount, input.currency));
  }

  /**
   * On a consistent store, the entries of a transaction posted under a fresh
   * id and a fresh batch are exactly that batch's entries.
   */
  lemma {:induction false} FreshPostingEntries(s: DbState, txId: Id, batchId: Id, today: Day, lines: seq<Line>)
    requires Consistent(s) && txId !in s.transactions && batchId !in s.batches
    ensures TxEntriesOf(s.batches[batchId := Batch(txId, today)], s.entries + Posting(batchId, lines), txId) == Posting(batchId, lines)
  {
    var batches := s.batches[batchId := Batch(txId, today)];
    var p := Posting(batchId, lines);
    forall i | 0 <= i < |s.entries| ensures !OfTransaction(batches, s.entries[i], txId) {
      assert s.entries[i].batchId in s.batches;
    }
    TxEntriesOfNone(batches, s.entries, txId);
    PostingAt(batchId, lines);
    TxEntriesOfAll(batches, p, txId);
    TxEntriesOfAppend(batches, s.entries, p, txId);
  }

  /** The two entries of a positive two-leg posting can be reversed: flipped, they pass batch validation. */
  lemma {:induction false} TwoLegReversible(batchId: Id, from: Id, to: Id, amount: int, currency: Currency)
    requires amount > 0
    ensures |Posting(batchId, TwoLegLines(from, to, amount, currency))| > 0
    ensures Balanced(ReversalLines(Posting(batchId, TwoLegLines(from, to, amount, currency))))
  {
    var lines := TwoLegLines(from, to, amount, currency);
    TwoLegValid(from, to, amount, currency);
    ValidationMeaning(lines);
    LinesOfPosting(batchId, lines);
    ReversalBalanced(Posting(batchId, lines));
  }

  /**
   * After a successful transfer its transaction's entries are non-empty and
   * reversible, and they account for every balance change.
   */
  lemma {:induction false} TransferEntriesReversible(s: DbState, key: string, input: TransferInput, env: Env)
    requires Consistent(s) && env.txId !in s.transactions && env.batchId !in s.batches
    requires TransferBody(s, key, input, env).result.Success?
    ensures var b := TransferBody(s, key, input, env).state;
      var entries := TxEntries(b, env.txId);
      && |entries| > 0 && Balanced(ReversalLines(entries))
      && (forall a :: Balance(b.entries, a) == Balance(s.entries, a) + Balance(entries, a))
  {
    var (from, to) := TransferGuards(s, input, env.today).value;
    assert input.amount > 0;
    assert TransferBody(s, key, input, env) == TransferWrites(s, key, input, env, from.accountId, to.accountId);
    WritesEntries(s, key, input, env, from.accountId, to.accountId);
    TransferTxEntries(s, key, input, env);
    var p := Posting(env.batchId, TwoLegLines(from.accountId, to.accountId, input.amount, input.currency));
    TwoLegReversible(env.batchId, from.accountId, to.accountId, input.amount, input.currency);
    forall a ensures Balance(s.entries + p, a) == Balance(s.entries, a) + Balance(p, a) {
      BalanceAppend(s.entries, p, a);
    }
  }

  // ------------------------------------------------------------ getTransaction

  /** `getTransaction`: the row, or "Transaction not found". */
  function GetTransaction(s: DbState, txId: Id): (r: Result<Transaction>)
    ensures r.Success? <==> txId in s.transactions
    ensures r.Success? ==> r.value == s.transactions[txId]
    ensures r.Failure? ==> r.error == TransactionNotFound
  {
    if txId in s.transactions then Success(s.transactions[txId]) else Failure(TransactionNotFound)
  }
}
