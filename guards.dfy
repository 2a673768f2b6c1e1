/**
 * The guard steps every orchestrator repeats before it writes: the amount
 * check, the wallet row locks, the principal-account lookup with its
 * balance, the lazily created internal account, and the two posting lines.
 */
module Guards {
  import opened Types
  import opened Store
  import opened Ordering
  import opened Balances
  import opened Ledger

  /** `mustBePositive`: the parsed amount, or "Amount must be positive". */
  function MustBePositive(amount: int): (r: Result<int>)
    ensures r.Success? <==> amount > 0
    ensures r.Success? ==> r.value == amount
    ensures r.Failure? ==> r.error == NonPositiveAmount
  {
    if amount <= 0 then Failure(NonPositiveAmount) else Success(amount)
  }

  /** A wallet row of this tenant exists (the `where tenant_id = $1 and id = ...` of the locks). */
  predicate InTenant(s: DbState, tenant: Id, walletId: Id) {
    walletId in s.wallets && s.wallets[walletId].tenant == tenant
  }

  /** The `rowCount` of the locking select over a list of ids. */
  function LockedCount(s: DbState, tenant: Id, ids: seq<Id>): nat
    decreases |ids|
  {
    if |ids| == 0 then 0 else LockedCount(s, tenant, ids[1..]) + (if InTenant(s, tenant, ids[0]) then 1 else 0)
  }

  lemma {:induction false} LockedCountAll(s: DbState, tenant: Id, ids: seq<Id>)
    ensures LockedCount(s, tenant, ids) <= |ids|
    ensures LockedCount(s, tenant, ids) == |ids| <==> forall i :: 0 <= i < |ids| ==> InTenant(s, tenant, ids[i])
    decreases |ids|
  {
    if |ids| > 0 {
      LockedCountAll(s, tenant, ids[1..]);
      assert forall i :: 0 < i < |ids| ==> ids[i] == ids[1..][i - 1];
    }
  }

  /**
   * `lockWalletRows`: the ids are deduplicated and sorted ascending before
   * they are locked, and the lock fails unless every one of them is a
   * wallet of the tenant.
   */
  function LockWalletRows(s: DbState, tenant: Id, walletIds: seq<Id>): (r: Result<seq<Id>>)
    ensures r.Success? <==> forall id :: id in walletIds ==> InTenant(s, tenant, id)
    ensures r.Success? ==> StrictlySorted(r.value) && Elems(r.value) == Elems(walletIds)
    ensures r.Failure? ==> r.error == WalletLockFailed
  {
    var ids := SortedUnique(walletIds);
    LockedCountAll(s, tenant, ids);
    assert forall id :: id in walletIds <==> id in ids by {
      forall id ensures id in walletIds <==> id in ids {
        assert id in walletIds <==> id in Elems(walletIds);
        assert id in ids <==> id in Elems(ids);
      }
    }
    if LockedCount(s, tenant, ids) != |ids| then Failure(WalletLockFailed) else Success(ids)
  }

  /** Two calls that name the same wallets, in any order and with repeats, lock the same list. */
  lemma {:induction false} LockOrderCanonical(s: DbState, tenant: Id, a: Id, b: Id)
    ensures LockWalletRows(s, tenant, [a, b]) == LockWalletRows(s, tenant, [b, a])
  {
    assert Elems([a, b]) == Elems([b, a]);
    SortedUniqueCanonical([a, b], [b, a]);
  }

  /** `lockWalletRow`: "Wallet lock failed" unless the wallet is a row of this tenant. */
  function LockWalletRow(s: DbState, tenant: Id, walletId: Id): (r: Result<()>)
    ensures r.Success? <==> walletId in s.wallets && s.wallets[walletId].tenant == tenant
    ensures r.Failure? ==> r.error == WalletLockFailed
  {
    Require(InTenant(s, tenant, walletId), WalletLockFailed)
  }

  /** The principal account of a wallet, the wallet's currency and the account's balance. */
  datatype WalletAccount = WalletAccount(accountId: Id, currency: Currency, balance: int)

  /**
   * `getWalletAccount`: the wallet must be an `active` wallet of the tenant
   * with a principal account; its balance is the projection over that
   * account's entries.
   */
  function GetWalletAccount(s: DbState, tenant: Id, walletId: Id): (r: Result<WalletAccount>)
    ensures r.Success? <==>
      walletId in s.wallets && s.wallets[walletId].tenant == tenant
      && s.wallets[walletId].status == Active && walletId in s.principal
    ensures r.Success? ==>
      r.value.accountId == s.principal[walletId] && r.value.currency == s.wallets[walletId].currency
      && r.value.balance == Balance(s.entries, s.principal[walletId])
    ensures r.Failure? ==> r.error == WalletAccountNotFound
  {
    if walletId in s.wallets && s.wallets[walletId].tenant == tenant
       && s.wallets[walletId].status == Active && walletId in s.principal
    then
      var account := s.principal[walletId];
      Success(WalletAccount(account, s.wallets[walletId].currency, Balance(s.entries, account)))
    else Failure(WalletAccountNotFound)
  }

  /** A wallet the account lookup accepts is one the lock accepts: `active` is the stricter test. */
  lemma {:induction false} AccountImpliesLock(s: DbState, tenant: Id, walletId: Id)
    requires GetWalletAccount(s, tenant, walletId).Success?
    ensures LockWalletRow(s, tenant, walletId).Success?
    ensures LockWalletRows(s, tenant, [walletId]).Success?
  {
  }

  // ------------------------------------------------------------ internal accounts

  /**
   * `ensureTreasuryAccount` / `ensureClearingAccount`: the tenant's account
   * with this code if there is one, otherwise a new asset account under the
   * fresh id `newId`.
   */
  function EnsureAccountStep(s: DbState, tenant: Id, code: string, currency: Currency, newId: Id): (Id, DbState) {
    if (tenant, code) in s.accountCodes then (s.accountCodes[(tenant, code)], s)
    else (newId, WithAccount(s, newId, Account(tenant, code, Asset, currency)))
  }

  /**
   * Looking the account up again finds the same account and changes nothing;
   * the first call creates at most one account, an asset account carrying the
   * code, and the returned id names an account of the tenant with that code.
   */
  lemma {:induction false} EnsureAccountIdempotent(s: DbState, tenant: Id, code: string, currency: Currency, id1: Id, id2: Id)
    requires Consistent(s)
    ensures var (a, s1) := EnsureAccountStep(s, tenant, code, currency, id1);
      && EnsureAccountStep(s1, tenant, code, currency, id2) == (a, s1)
      && a in s1.accounts && s1.accounts[a].tenant == tenant && s1.accounts[a].code == code
      && (s1 == s || (a == id1 && s1 == WithAccount(s, id1, Account(tenant, code, Asset, currency))))
  {
    if (tenant, code) in s.accountCodes {
      assert s.accountCodes[(tenant, code)] in s.accounts;
    } else {
      var s1 := WithAccount(s, id1, Account(tenant, code, Asset, currency));
      assert s1.accountCodes[(tenant, code)] == id1;
    }
  }

  /** Once the get-or-create has run, a later one over the same code index finds the same account. */
  lemma {:induction false} EnsureAccountStable(s: DbState, t: DbState, tenant: Id, code: string, currency: Currency, id1: Id, id2: Id)
    requires t.accountCodes == EnsureAccountStep(s, tenant, code, currency, id1).1.accountCodes
    ensures EnsureAccountStep(t, tenant, code, currency, id2).0 == EnsureAccountStep(s, tenant, code, currency, id1).0
  {
  }

  /** The get-or-create writes the account table and its code index and nothing else. */
  lemma {:induction false} EnsureAccountFrame(s: DbState, tenant: Id, code: string, currency: Currency, newId: Id)
    ensures EnsureAccountStep(s, tenant, code, currency, newId).1.(accounts := s.accounts, accountCodes := s.accountCodes) == s
  {
    if (tenant, code) !in s.accountCodes {
      assert WithAccount(s, newId, Account(tenant, code, Asset, currency)).(accounts := s.accounts, accountCodes := s.accountCodes) == s;
    }
  }

  method EnsureAccount(db: Db, tenant: Id, code: string, currency: Currency, newId: Id) returns (id: Id)
    modifies db`accounts, db`accountCodes
    ensures (id, db.State()) == EnsureAccountStep(old(db.State()), tenant, code, currency, newId)
  {
    if (tenant, code) in db.accountCodes {
      id := db.accountCodes[(tenant, code)];
    } else {
      db.InsertAccount(newId, Account(tenant, code, Asset, currency));
      id := newId;
    }
  }

  // ------------------------------------------------------------ the two posting lines

  /** Debit `from`, credit `to`, both for `amount` in `currency`. */
  function TwoLegLines(from: Id, to: Id, amount: int, currency: Currency): seq<Line> {
    [Line(from, Debit, amount, currency), Line(to, Credit, amount, currency)]
  }

  /** The two lines of every orchestrator pass the ledger's validation exactly when the amount is positive. */
  lemma {:induction false} TwoLegValid(from: Id, to: Id, amount: int, currency: Currency)
    ensures Validation(TwoLegLines(from, to, amount, currency)).Success? <==> amount > 0
  {
    var lines := TwoLegLines(from, to, amount, currency);
    ValidationMeaning(lines);
    assert lines[..|lines| - 1] == [lines[0]];
    assert [lines[0]][..0] == [];
    assert DebitTotal([lines[0]]) == amount && CreditTotal([lines[0]]) == 0;
    assert DebitTotal(lines) == amount && CreditTotal(lines) == amount;
  }

  /** Posting the two lines lowers `from` and raises `to` by `amount` and leaves every other account alone. */
  lemma {:induction false} TwoLegEffect(entries: seq<Entry>, batchId: Id, from: Id, to: Id, amount: int, currency: Currency, account: Id)
    ensures Balance(entries + Posting(batchId, TwoLegLines(from, to, amount, currency)), account)
         == Balance(entries, account) - (if account == from then amount else 0) + (if account == to then amount else 0)
  {
    var lines := TwoLegLines(from, to, amount, currency);
    var p := Posting(batchId, lines);
    BalanceAppend(entries, p, account);
    PostingAt(batchId, lines);
    assert p[..|p| - 1] == [p[0]];
    assert [p[0]][..0] == [];
    assert Balance([p[0]], account) == if account == from then -amount else 0;
  }
}
