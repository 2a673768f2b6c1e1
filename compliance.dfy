/**
 * The compliance gate: per (tenant, currency) policies that cap a single
 * debit, the debits of one day and the resulting wallet balance, and that
 * may demand a KYC-verified wallet. `checkDebit` and `checkCredit` only read
 * the store; `upsertPolicy` overwrites one policy row.
 */
module Compliance {
  import opened Types
  import opened Store

  /** `getPolicy` / `fetchPolicy`: the policy row of (tenant, currency), if any. */
  function FetchPolicy(s: DbState, tenant: Id, currency: Currency): Option<Policy> {
    if (tenant, currency) in s.policies then Some(s.policies[(tenant, currency)]) else None
  }

  /** `select kyc_verified from wallets where id = $1`: no tenant filter; a missing wallet is not verified. */
  predicate KycVerified(s: DbState, walletId: Id) {
    walletId in s.wallets && s.wallets[walletId].kycVerified
  }

  function AssertKycVerified(s: DbState, walletId: Id): (r: Result<()>)
    ensures r.Success? <==> walletId in s.wallets && s.wallets[walletId].kycVerified
    ensures r.Failure? ==> r.error == KycRequired
  {
    Require(KycVerified(s, walletId), KycRequired)
  }

  /**
   * Does entry `e` count towards today's debits of `account`? It must debit
   * the account, belong to a batch posted today or later whose transaction
   * exists and is `posted` (the inner joins and the where clause).
   */
  predicate CountsAsDailyDebit(s: DbState, e: Entry, account: Id, today: Day) {
    e.account == account && e.direction == Debit
    && e.batchId in s.batches && s.batches[e.batchId].postedOn >= today
    && s.batches[e.batchId].transactionId in s.transactions
    && s.transactions[s.batches[e.batchId].transactionId].status == Posted
  }

  /** The `coalesce(sum(le.amount), 0)` of the daily-limit query, over a prefix of the log. */
  function DailyDebitsOf(s: DbState, entries: seq<Entry>, account: Id, today: Day): int
    decreases |entries|
  {
    if |entries| == 0 then 0
    else
      var last := entries[|entries| - 1];
      DailyDebitsOf(s, entries[..|entries| - 1], account, today)
        + (if CountsAsDailyDebit(s, last, account, today) then last.amount else 0)
  }

  function DailyDebits(s: DbState, account: Id, today: Day): int {
    DailyDebitsOf(s, s.entries, account, today)
  }

  /** `checkDebit`: KYC, then the single-amount cap, then the daily cap. */
  function CheckDebit(s: DbState, tenant: Id, walletId: Id, accountId: Id, amount: int, currency: Currency, today: Day): Result<()> {
    match FetchPolicy(s, tenant, currency)
    case None => Success(())
    case Some(p) =>
      if p.requiresKyc && !KycVerified(s, walletId) then Failure(KycRequired)
      else if p.maxSingle.Some? && amount > p.maxSingle.value then Failure(SingleLimitExceeded(p.maxSingle.value, currency))
      else if p.maxDailyDebit.Some? && DailyDebits(s, accountId, today) + amount > p.maxDailyDebit.value
      then Failure(DailyLimitExceeded(p.maxDailyDebit.value, currency))
      else Success(())
  }

  /** `checkCredit`: KYC, then the cap on the balance the credit would produce. */
  function CheckCredit(s: DbState, tenant: Id, walletId: Id, amount: int, currency: Currency, currentBalance: int): Result<()> {
    match FetchPolicy(s, tenant, currency)
    case None => Success(())
    case Some(p) =>
      if p.requiresKyc && !KycVerified(s, walletId) then Failure(KycRequired)
      else if p.maxBalance.Some? && currentBalance + amount > p.maxBalance.value
      then Failure(MaxBalanceExceeded(p.maxBalance.value, currency))
      else Success(())
  }

  /** A debit passes exactly when there is no policy, or each of its three rules passes. */
  lemma {:induction false} CheckDebitMeaning(s: DbState, tenant: Id, walletId: Id, accountId: Id, amount: int, currency: Currency, today: Day)
    ensures CheckDebit(s, tenant, walletId, accountId, amount, currency, today).Success?
      <==> (tenant, currency) !in s.policies
           || (var p := s.policies[(tenant, currency)];
               && (p.requiresKyc ==> walletId in s.wallets && s.wallets[walletId].kycVerified)
               && (p.maxSingle.Some? ==> amount <= p.maxSingle.value)
               && (p.maxDailyDebit.Some? ==> DailyDebits(s, accountId, today) + amount <= p.maxDailyDebit.value))
  {
  }

  /** A credit passes exactly when there is no policy, or KYC and the balance cap pass. */
  lemma {:induction false} CheckCreditMeaning(s: DbState, tenant: Id, walletId: Id, amount: int, currency: Currency, balance: int)
    ensures CheckCredit(s, tenant, walletId, amount, currency, balance).Success?
      <==> (tenant, currency) !in s.policies
           || (var p := s.policies[(tenant, currency)];
               && (p.requiresKyc ==> walletId in s.wallets && s.wallets[walletId].kycVerified)
               && (p.maxBalance.Some? ==> balance + amount <= p.maxBalance.value))
  {
  }

  /** Both gates fail with the KYC error on an unverified or missing wallet when the policy demands it. */
  lemma {:induction false} KycGate(s: DbState, tenant: Id, walletId: Id, accountId: Id, amount: int, currency: Currency, today: Day, balance: int)
    requires (tenant, currency) in s.policies && s.policies[(tenant, currency)].requiresKyc
    requires walletId !in s.wallets || !s.wallets[walletId].kycVerified
    ensures CheckDebit(s, tenant, walletId, accountId, amount, currency, today) == Failure(KycRequired)
    ensures CheckCredit(s, tenant, walletId, amount, currency, balance) == Failure(KycRequired)
  {
  }

  /** Lowering the amount never turns a passing debit into a failing one. */
  lemma {:induction false} CheckDebitMonotone(s: DbState, tenant: Id, walletId: Id, accountId: Id, amount: int, smaller: int, currency: Currency, today: Day)
    requires smaller <= amount
    requires CheckDebit(s, tenant, walletId, accountId, amount, currency, today).Success?
    ensures CheckDebit(s, tenant, walletId, accountId, smaller, currency, today).Success?
  {
  }

  /** `checkCredit` consults neither the single-amount cap nor the daily debit cap. */
  lemma {:induction false} CheckCreditIgnoresDebitCaps(s: DbState, tenant: Id, walletId: Id, amount: int, currency: Currency, balance: int, single: Option<int>, daily: Option<int>)
    requires (tenant, currency) in s.policies
    ensures var p := s.policies[(tenant, currency)];
      CheckCredit(WithPolicy(s, tenant, currency, p.(maxSingle := single, maxDailyDebit := daily)), tenant, walletId, amount, currency, balance)
      == CheckCredit(s, tenant, walletId, amount, currency, balance)
  {
  }

  /** Only entries of today's posted debits on the account count towards the daily cap. */
  lemma {:induction false} DailyDebitsAppend(s: DbState, xs: seq<Entry>, ys: seq<Entry>, account: Id, today: Day)
    ensures DailyDebitsOf(s, xs + ys, account, today) == DailyDebitsOf(s, xs, account, today) + DailyDebitsOf(s, ys, account, today)
    decreases |ys|
  {
    if |ys| > 0 {
      assert (xs + ys)[..|xs + ys| - 1] == xs + ys[..|ys| - 1];
      DailyDebitsAppend(s, xs, ys[..|ys| - 1], account, today);
    } else {
      assert xs + ys == xs;
    }
  }

  /** The daily total never counts credits or entries of other accounts, so it is at most the account's debits. */
  lemma {:induction false} DailyDebitsNonNegative(s: DbState, entries: seq<Entry>, account: Id, today: Day)
    requires forall i :: 0 <= i < |entries| ==> entries[i].amount > 0
    ensures DailyDebitsOf(s, entries, account, today) >= 0
    decreases |entries|
  {
    if |entries| > 0 { DailyDebitsNonNegative(s, entries[..|entries| - 1], account, today); }
  }

  // ------------------------------------------------------------ upsertPolicy

  /** The optional fields of an upsert request; `None` is both an absent field and an explicit null. */
  datatype PolicyInput = PolicyInput(maxSingle: Option<int>, maxDailyDebit: Option<int>, maxBalance: Option<int>, requiresKyc: Option<bool>)

  /** The row the upsert writes: missing caps become null, a missing KYC flag becomes false. */
  function PolicyOf(input: PolicyInput): (p: Policy)
    ensures p.maxSingle == input.maxSingle && p.maxDailyDebit == input.maxDailyDebit && p.maxBalance == input.maxBalance
    ensures p.requiresKyc <==> input.requiresKyc == Some(true)
  {
    Policy(input.maxSingle, input.maxDailyDebit, input.maxBalance,
           match input.requiresKyc case Some(b) => b case None => false)
  }

  /** `upsertPolicy`: insert or overwrite the whole row, then read it back. */
  function UpsertPolicyStep(s: DbState, tenant: Id, currency: Currency, input: PolicyInput): Outcome<Option<Policy>> {
    var s' := WithPolicy(s, tenant, currency, PolicyOf(input));
    Outcome(Success(FetchPolicy(s', tenant, currency)), s')
  }

  /**
   * After an upsert, `getPolicy` returns exactly the requested values, whatever
   * was stored before; no other policy and no other table changes.
   */
  lemma {:induction false} UpsertThenGet(s: DbState, tenant: Id, currency: Currency, input: PolicyInput, otherTenant: Id, otherCurrency: Currency)
    requires (otherTenant, otherCurrency) != (tenant, currency)
    ensures var o := UpsertPolicyStep(s, tenant, currency, input);
      && o.result == Success(Some(PolicyOf(input)))
      && FetchPolicy(o.state, tenant, currency) == Some(PolicyOf(input))
      && FetchPolicy(o.state, otherTenant, otherCurrency) == FetchPolicy(s, otherTenant, otherCurrency)
      && o.state.(policies := s.policies) == s
  {
  }

  /** The upsert overwrites: the previous row, if any, leaves no trace. */
  lemma {:induction false} UpsertOverwrites(s: DbState, tenant: Id, currency: Currency, input: PolicyInput, previous: Policy)
    ensures UpsertPolicyStep(WithPolicy(s, tenant, currency, previous), tenant, currency, input)
         == UpsertPolicyStep(s, tenant, currency, input)
  {
    assert WithPolicy(WithPolicy(s, tenant, currency, previous), tenant, currency, PolicyOf(input))
        == WithPolicy(s, tenant, currency, PolicyOf(input));
  }

  method UpsertPolicy(db: Db, tenant: Id, currency: Currency, input: PolicyInput) returns (r: Option<Policy>)
    modifies db`policies
    ensures Outcome(Success(r), db.State()) == UpsertPolicyStep(old(db.State()), tenant, currency, input)
  {
    db.PutPolicy(tenant, currency, PolicyOf(input));
    r := FetchPolicy(db.State(), tenant, currency);
  }
}
