/**
 * The public operations of the engine: every money movement runs its
 * handler inside the idempotency coordinator, one database transaction per
 * call. This module wires the handlers of the transfer, value and
 * integrations services into `execute` and states what whole calls do.
 */
module Orchestrator {
  import opened Types
  import opened Store
  import opened Balances
  import opened Ledger
  import opened Guards
  import opened Idempotency
  import opened Transfers
  import Value
  import Connectors
  import Integrations

  /** The closures the services hand to `execute`, as data. */
  datatype Handler =
    | TransferHandler(transfer: TransferInput)
    | ReversalHandler(txId: Id, original: Transaction)
    | ValueHandler(op: ValueOp, value: ValueInput)
    | ExternalHandler(flow: Flow, connectors: map<string, Connectors.Connector>, external: ExternalInput)

  /** What running a handler does to the store, before the coordinator commits or rolls back. */
  function HandlerBody(h: Handler, s: DbState, key: string, env: Env): Outcome<Response> {
    match h
    case TransferHandler(input) => TransferBody(s, key, input, env)
    case ReversalHandler(txId, original) => ReversalBody(s, key, txId, original, env)
    case ValueHandler(op, input) =>
      if op == IssueOp then Value.IssueBody(s, key, input, env) else Value.RedeemBody(s, key, input, env)
    case ExternalHandler(flow, connectors, input) => Integrations.ExternalBody(flow, s, connectors, key, input, env)
  }

  /** The handler as the function of the store the coordinator runs. */
  function Runner(h: Handler, key: string, env: Env): DbState -> Outcome<Response> {
    s => HandlerBody(h, s, key, env)
  }

  method RunHandler(db: Db, h: Handler, key: string, env: Env) returns (r: Result<Response>)
    modifies db
    ensures Outcome(r, db.State()) == HandlerBody(h, old(db.State()), key, env)
  {
    match h {
      case TransferHandler(input) =>
        r := Transfer(db, key, input, env);
      case ReversalHandler(txId, original) =>
        r := Reversal(db, key, txId, original, env);
      case ValueHandler(op, input) =>
        if op == IssueOp {
          r := Value.Issue(db, key, input, env);
        } else {
          r := Value.Redeem(db, key, input, env);
        }
      case ExternalHandler(flow, connectors, input) =>
        if flow == CashIn {
          r := Integrations.CashInHandler(db, connectors, key, input, env);
        } else {
          r := Integrations.CashOutHandler(db, connectors, key, input, env);
        }
    }
  }

  /**
   * `execute`: hash the payload, read the (tenant, key) row, then replay,
   * reject, or run the handler and record its response; a failing handler
   * rolls the transaction back.
   */
  method Execute(db: Db, tenant: Id, key: string, payload: Payload, h: Handler, env: Env) returns (r: Result<Response>)
    modifies db
    ensures Outcome(r, db.State()) == ExecuteStep(old(db.State()), tenant, key, payload, Runner(h, key, env))
  {
    var hash := HashPayload(payload);
    var decision := Lookup(db, tenant, key, hash);
    match decision {
      case Replay(response) =>
        r := Success(response);
      case Conflict =>
        r := Failure(IdempotencyConflict);
      case Run =>
        var snapshot := db.State();
        var result := RunHandler(db, h, key, env);
        match result {
          case Failure(e) =>
            db.Rollback(snapshot);
            r := Failure(e);
          case Success(response) =>
            db.InsertRecord(tenant, key, IdempotencyRecord(hash, response));
            r := Success(response);
        }
    }
  }

  // ------------------------------------------------------------ payloads

  /** The request body of a transfer, as `execute` hashes it. */
  function TransferPayload(input: TransferInput): Payload {
    [("tenant_id", JStr(input.tenant)), ("from_wallet_id", JStr(input.fromWallet)), ("to_wallet_id", JStr(input.toWallet)),
     ("amount", JInt(input.amount)), ("currency", JStr(input.currency))]
  }

  function ReversalPayload(txId: Id): Payload {
    [("original_transaction_id", JStr(txId))]
  }

  function OpName(op: ValueOp): string {
    if op == IssueOp then "issue" else "redeem"
  }

  /** `{ ...input, op }` of the value service. */
  function ValuePayload(op: ValueOp, input: ValueInput): Payload {
    [("tenant_id", JStr(input.tenant)), ("wallet_id", JStr(input.wallet)), ("amount", JInt(input.amount)),
     ("currency", JStr(input.currency)), ("op", JStr(OpName(op)))]
  }

  function FlowName(flow: Flow): string {
    if flow == CashIn then "cash_in" else "cash_out"
  }

  /** `{ ...input, op }` of the integrations service. */
  function ExternalPayload(flow: Flow, input: ExternalInput): Payload {
    [("tenant_id", JStr(input.tenant)), ("wallet_id", JStr(input.wallet)), ("amount", JInt(input.amount)),
     ("currency", JStr(input.currency)), ("provider", JStr(input.provider)),
     ("external_reference", JStr(input.externalReference)), ("op", JStr(FlowName(flow)))]
  }

  // ------------------------------------------------------------ the public operations

  function CreateTransferStep(s: DbState, key: string, input: TransferInput, env: Env): Outcome<Response> {
    ExecuteStep(s, input.tenant, key, TransferPayload(input), Runner(TransferHandler(input), key, env))
  }

  /**
   * `reverseTransaction`: the original is read and checked before the
   * coordinator runs, and the coordinator is keyed by the original's tenant.
   */
  function ReverseStep(s: DbState, key: string, txId: Id, env: Env): Outcome<Response> {
    match OriginalRow(s, txId)
    case Failure(e) => Outcome(Failure(e), s)
    case Success(original) =>
      ExecuteStep(s, original.tenant, key, ReversalPayload(txId), Runner(ReversalHandler(txId, original), key, env))
  }

  /** `issue` and `redeem`. */
  function ValueStep(s: DbState, op: ValueOp, key: string, input: ValueInput, env: Env): Outcome<Response> {
    ExecuteStep(s, input.tenant, key, ValuePayload(op, input), Runner(ValueHandler(op, input), key, env))
  }

  /** `cashIn` and `cashOut`, with the service's registered connectors. */
  function ExternalStep(s: DbState, flow: Flow, connectors: map<string, Connectors.Connector>, key: string, input: ExternalInput, env: Env): Outcome<Response> {
    ExecuteStep(s, input.tenant, key, ExternalPayload(flow, input), Runner(ExternalHandler(flow, connectors, input), key, env))
  }

  method CreateTransfer(db: Db, key: string, input: TransferInput, env: Env) returns (r: Result<Response>)
    modifies db
    ensures Outcome(r, db.State()) == CreateTransferStep(old(db.State()), key, input, env)
  {
    r := Execute(db, input.tenant, key, TransferPayload(input), TransferHandler(input), env);
  }

  method ReverseTransaction(db: Db, key: string, txId: Id, env: Env) returns (r: Result<Response>)
    modifies db
    ensures Outcome(r, db.State()) == ReverseStep(old(db.State()), key, txId, env)
  {
    var original := OriginalRow(db.State(), txId);
    match original {
      case Failure(e) =>
        r := Failure(e);
      case Success(row) =>
        r := Execute(db, row.tenant, key, ReversalPayload(txId), ReversalHandler(txId, row), env);
    }
  }

  method Issue(db: Db, key: string, input: ValueInput, env: Env) returns (r: Result<Response>)
    modifies db
    ensures Outcome(r, db.State()) == ValueStep(old(db.State()), IssueOp, key, input, env)
  {
    r := Execute(db, input.tenant, key, ValuePayload(IssueOp, input), ValueHandler(IssueOp, input), env);
  }

  method Redeem(db: Db, key: string, input: ValueInput, env: Env) returns (r: Result<Response>)
    modifies db
    ensures Outcome(r, db.State()) == ValueStep(old(db.State()), RedeemOp, key, input, env)
  {
    r := Execute(db, input.tenant, key, ValuePayload(RedeemOp, input), ValueHandler(RedeemOp, input), env);
  }

  method CashInFunds(db: Db, registry: Connectors.Registry, key: string, input: ExternalInput, env: Env) returns (r: Result<Response>)
    modifies db
    ensures Outcome(r, db.State()) == ExternalStep(old(db.State()), CashIn, registry.connectors, key, input, env)
  {
    r := Execute(db, input.tenant, key, ExternalPayload(CashIn, input), ExternalHandler(CashIn, registry.connectors, input), env);
  }

  method CashOutFunds(db: Db, registry: Connectors.Registry, key: string, input: ExternalInput, env: Env) returns (r: Result<Response>)
    modifies db
    ensures Outcome(r, db.State()) == ExternalStep(old(db.State()), CashOut, registry.connectors, key, input, env)
  {
    r := Execute(db, input.tenant, key, ExternalPayload(CashOut, input), ExternalHandler(CashOut, registry.connectors, input), env);
  }

  // ------------------------------------------------------------ whole calls

  /**
   * A committed transfer: the response names the new transaction, which is
   * `posted` and whose entries are exactly the two posted lines, so that a
   * reversal of it would pass validation; each balance moved by what those
   * entries say, and one idempotency record was added.
   */
  lemma {:induction false} TransferCommitted(s: DbState, key: string, input: TransferInput, env: Env)
    requires Consistent(s) && env.txId !in s.transactions && env.batchId !in s.batches
    requires (input.tenant, key) !in s.idempotencyKeys
    requires CreateTransferStep(s, key, input, env).result.Success?
    ensures var t := CreateTransferStep(s, key, input, env);
      var entries := TxEntries(t.state, env.txId);
      && t.result.value.transactionId == env.txId
      && OriginalRow(t.state, env.txId) == Success(TransferRow(key, input).(status := Posted))
      && t.state.idempotencyKeys.Keys == s.idempotencyKeys.Keys + {(input.tenant, key)}
      && |entries| > 0 && Balanced(ReversalLines(entries))
      && (forall a :: Balance(t.state.entries, a) == Balance(s.entries, a) + Balance(entries, a))
  {
    TransferCommittedRow(s, key, input, env);
    TransferCommittedEntries(s, key, input, env);
  }

  /** A committed transfer is the handler's outcome plus the idempotency record of its response. */
  lemma {:induction false} TransferCommits(s: DbState, key: string, input: TransferInput, env: Env)
    requires (input.tenant, key) !in s.idempotencyKeys
    requires CreateTransferStep(s, key, input, env).result.Success?
    ensures TransferBody(s, key, input, env).result.Success?
    ensures CreateTransferStep(s, key, input, env)
         == Outcome(TransferBody(s, key, input, env).result,
                    WithRecord(TransferBody(s, key, input, env).state, input.tenant, key,
                               IdempotencyRecord(HashPayload(TransferPayload(input)), TransferBody(s, key, input, env).result.value)))
  {
    var run := Runner(TransferHandler(input), key, env);
    ExecuteRuns(s, input.tenant, key, TransferPayload(input), run);
    assert run(s) == TransferBody(s, key, input, env);
  }

  /** A committed transfer names its new transaction, which reads back `posted`, and records its key. */
  lemma {:induction false} TransferCommittedRow(s: DbState, key: string, input: TransferInput, env: Env)
    requires Consistent(s) && env.txId !in s.transactions && env.batchId !in s.batches
    requires (input.tenant, key) !in s.idempotencyKeys
    requires CreateTransferStep(s, key, input, env).result.Success?
    ensures var t := CreateTransferStep(s, key, input, env);
      && t.result.value.transactionId == env.txId
      && OriginalRow(t.state, env.txId) == Success(TransferRow(key, input).(status := Posted))
      && t.state.idempotencyKeys.Keys == s.idempotencyKeys.Keys + {(input.tenant, key)}
  {
    TransferCommits(s, key, input, env);
    var (from, to) := TransferGuards(s, input, env.today).value;
    assert input.amount > 0;
    assert TransferBody(s, key, input, env) == TransferWrites(s, key, input, env, from.accountId, to.accountId);
    WritesPost(s, key, input, env, from.accountId, to.accountId);
    WritesRows(s, key, input, env, from.accountId, to.accountId);
    TransferKeepsKeys(s, key, input, env);
  }

  /** The entries of a committed transfer are non-empty, reversible, and account for every balance change. */
  lemma {:induction false} TransferCommittedEntries(s: DbState, key: string, input: TransferInput, env: Env)
    requires Consistent(s) && env.txId !in s.transactions && env.batchId !in s.batches
    requires (input.tenant, key) !in s.idempotencyKeys
    requires CreateTransferStep(s, key, input, env).result.Success?
    ensures var t := CreateTransferStep(s, key, input, env);
      var entries := TxEntries(t.state, env.txId);
      && |entries| > 0 && Balanced(ReversalLines(entries))
      && (forall a :: Balance(t.state.entries, a) == Balance(s.entries, a) + Balance(entries, a))
  {
    TransferCommits(s, key, input, env);
    TransferEntriesReversible(s, key, input, env);
    var b := TransferBody(s, key, input, env).state;
    var t := CreateTransferStep(s, key, input, env).state;
    assert t.entries == b.entries && t.batches == b.batches;
    assert TxEntries(t, env.txId) == TxEntries(b, env.txId);
  }

  /**
   * A reversal through the public operation, of a `posted` transaction
   * whose entries can be flipped: it commits, undoes on every account what
   * the original's entries did, and leaves the original `reversed`, so any
   * later reversal of it, under any key, the same key included, fails with
   * "Only posted transactions can be reversed" and writes nothing.
   */
  lemma {:induction false} ReversalAtMostOnce(s: DbState, key: string, txId: Id, env: Env, laterKey: string, laterEnv: Env)
    requires OriginalRow(s, txId).Success?
    requires (s.transactions[txId].tenant, key) !in s.idempotencyKeys
    requires |TxEntries(s, txId)| > 0 && Balanced(ReversalLines(TxEntries(s, txId)))
    requires env.txId != txId
    ensures var r := ReverseStep(s, key, txId, env);
      && r.result.Success?
      && (forall a :: Balance(r.state.entries, a) == Balance(s.entries, a) - Balance(TxEntries(s, txId), a))
      && txId in r.state.transactions && r.state.transactions[txId].status == Reversed
      && ReverseStep(r.state, laterKey, txId, laterEnv) == Outcome(Failure(OnlyPostedReversible), r.state)
  {
    var original := s.transactions[txId];
    var run := Runner(ReversalHandler(txId, original), key, env);
    ExecuteRuns(s, original.tenant, key, ReversalPayload(txId), run);
    var body := ReversalBody(s, key, txId, original, env);
    assert run(s) == body;
    ReversalContract(s, key, txId, original, env);
    ReversalRestores(s, key, txId, original, env);
    ReversalStatuses(s, key, txId, original, env);
    var r := ReverseStep(s, key, txId, env);
    assert r.state.entries == body.state.entries && r.state.transactions == body.state.transactions;
  }

  /**
   * Transfer, then reverse: every account, both wallets included, is back
   * at its balance from before the transfer, the transfer is `reversed`, and
   * reversing it again fails whatever key is used.
   */
  lemma {:induction false} TransferThenReverse(s: DbState, key1: string, key2: string, key3: string, input: TransferInput, env1: Env, env2: Env, env3: Env)
    requires Consistent(s) && env1.txId !in s.transactions && env1.batchId !in s.batches && env2.txId != env1.txId
    requires (input.tenant, key1) !in s.idempotencyKeys && (input.tenant, key2) !in s.idempotencyKeys && key2 != key1
    requires CreateTransferStep(s, key1, input, env1).result.Success?
    ensures var t := CreateTransferStep(s, key1, input, env1);
      var txId := t.result.value.transactionId;
      var r := ReverseStep(t.state, key2, txId, env2);
      && r.result.Success?
      && (forall a :: Balance(r.state.entries, a) == Balance(s.entries, a))
      && txId in r.state.transactions && r.state.transactions[txId].status == Reversed
      && ReverseStep(r.state, key3, txId, env3) == Outcome(Failure(OnlyPostedReversible), r.state)
  {
    TransferCommitted(s, key1, input, env1);
    var t := CreateTransferStep(s, key1, input, env1);
    ReversalAtMostOnce(t.state, key2, env1.txId, env2, key3, env3);
  }

  /**
   * A retried transfer (same tenant, key and request) returns the first
   * response and moves no money, whatever ids the retry would draw.
   */
  lemma {:induction false} TransferRetryReplays(s: DbState, key: string, input: TransferInput, env: Env, retryEnv: Env)
    requires CreateTransferStep(s, key, input, env).result.Success?
    ensures var first := CreateTransferStep(s, key, input, env);
      CreateTransferStep(first.state, key, input, retryEnv) == first
  {
    ExecuteTwice(s, input.tenant, key, TransferPayload(input), TransferPayload(input),
                 Runner(TransferHandler(input), key, env), Runner(TransferHandler(input), key, retryEnv));
  }

  /** The `op` tag is the last key of the value payload, so the object it describes maps `op` to it. */
  lemma {:induction false} ValuePayloadOp(op: ValueOp, input: ValueInput)
    ensures "op" in ToMap(ValuePayload(op, input)) && ToMap(ValuePayload(op, input))["op"] == JStr(OpName(op))
  {
    var p := ValuePayload(op, input);
    assert p[|p| - 1] == ("op", JStr(OpName(op)));
  }

  /**
   * An idempotency key that served a successful `issue` cannot serve a
   * `redeem` of the same wallet, amount and currency: the `op` tag makes the
   * payloads hash differently, so the redeem is a conflict and writes nothing.
   */
  lemma {:induction false} IssueKeyConflictsWithRedeem(s: DbState, key: string, input: ValueInput, env1: Env, env2: Env)
    requires ValueStep(s, IssueOp, key, input, env1).result.Success?
    ensures var t := ValueStep(s, IssueOp, key, input, env1);
      ValueStep(t.state, RedeemOp, key, input, env2) == Outcome(Failure(IdempotencyConflict), t.state)
  {
    var issue, redeem := ValuePayload(IssueOp, input), ValuePayload(RedeemOp, input);
    ValuePayloadOp(IssueOp, input);
    ValuePayloadOp(RedeemOp, input);
    HashMeaning(issue, redeem);
    var t := ValueStep(s, IssueOp, key, input, env1);
    assert (input.tenant, key) in t.state.idempotencyKeys && t.state.idempotencyKeys[(input.tenant, key)].requestHash == HashPayload(issue);
    ExecuteConflicts(t.state, input.tenant, key, redeem, Runner(ValueHandler(RedeemOp, input), key, env2));
  }

  /** The amount a money-moving handler was asked to move. */
  function RequestedAmount(h: Handler): int
    requires !h.ReversalHandler?
  {
    match h
    case TransferHandler(input) => input.amount
    case ValueHandler(_, input) => input.amount
    case ExternalHandler(_, _, input) => input.amount
  }

  /**
   * A first request to move a zero or negative amount fails with "Amount
   * must be positive" before any lock, read or write, whichever operation it is.
   */
  lemma {:induction false} NonPositiveRejected(s: DbState, tenant: Id, key: string, payload: Payload, h: Handler, env: Env)
    requires !h.ReversalHandler? && RequestedAmount(h) <= 0
    requires (tenant, key) !in s.idempotencyKeys
    ensures HandlerBody(h, s, key, env) == Outcome(Failure(NonPositiveAmount), s)
    ensures ExecuteStep(s, tenant, key, payload, Runner(h, key, env)) == Outcome(Failure(NonPositiveAmount), s)
  {
    match h {
      case TransferHandler(input) =>
        assert TransferGuards(s, input, env.today) == Failure(NonPositiveAmount);
      case ValueHandler(op, input) =>
        assert Value.IssueGuards(s, input, env.today) == Failure(NonPositiveAmount);
        assert Value.RedeemGuards(s, input, env.today) == Failure(NonPositiveAmount);
      case ExternalHandler(flow, connectors, input) =>
        assert Integrations.ExternalGuards(flow, s, connectors, input, env.today) == Failure(NonPositiveAmount);
    }
    ExecuteRuns(s, tenant, key, payload, Runner(h, key, env));
  }

  /** Every handler that succeeds appends one balanced batch under its fresh batch id, so every batch stays balanced. */
  lemma {:induction false} HandlerKeepsLedgerBalanced(h: Handler, s: DbState, key: string, env: Env)
    requires LedgerBalanced(s) && env.batchId !in s.batches
    requires HandlerBody(h, s, key, env).result.Success?
    ensures LedgerBalanced(HandlerBody(h, s, key, env).state)
  {
    match h {
      case TransferHandler(input) =>
        TransferKeepsLedgerBalanced(s, key, input, env);
      case ReversalHandler(txId, original) =>
        ReversalKeepsLedgerBalanced(s, key, txId, original, env);
      case ValueHandler(op, input) =>
        var wallet := if op == IssueOp then Value.IssueGuards(s, input, env.today) else Value.RedeemGuards(s, input, env.today);
        assert wallet.Success? && input.amount > 0;
        assert HandlerBody(h, s, key, env) == Value.ValueWrites(op, s, wallet.value.accountId, key, input, env);
        Value.WritesKeepLedgerBalanced(op, s, wallet.value.accountId, key, input, env);
      case ExternalHandler(flow, connectors, input) =>
        Integrations.GuardsPassed(flow, s, connectors, input, env.today);
        Integrations.BodyAfterGuards(flow, s, connectors, key, input, env);
        Integrations.RecordKeepsLedgerBalanced(flow, s, Integrations.ExternalGuards(flow, s, connectors, input, env.today).value, key, input, env);
    }
  }

  /**
   * Every public call, whatever its outcome, leaves every batch of the
   * ledger balanced, provided the id it draws for a new batch is unused.
   */
  lemma {:induction false} ExecuteKeepsLedgerBalanced(s: DbState, tenant: Id, key: string, payload: Payload, h: Handler, env: Env)
    requires LedgerBalanced(s) && env.batchId !in s.batches
    ensures LedgerBalanced(ExecuteStep(s, tenant, key, payload, Runner(h, key, env)).state)
  {
    var o := ExecuteStep(s, tenant, key, payload, Runner(h, key, env));
    if (tenant, key) !in s.idempotencyKeys {
      ExecuteRuns(s, tenant, key, payload, Runner(h, key, env));
      if o.result.Success? {
        HandlerKeepsLedgerBalanced(h, s, key, env);
        var b := HandlerBody(h, s, key, env).state;
        assert o.state.entries == b.entries && o.state.batches == b.batches;
      }
    }
  }
}
