/**
 * Wallet creation and the two wallet reads. A wallet is created together
 * with its liability account and the principal mapping between them, in one
 * database transaction.
 */
module Wallets {
  import opened Types
  import opened Store
  import opened Balances
  import opened Guards

  /** `replaceAll('-', '')`. */
  function StripDashes(s: string): (r: string)
    ensures '-' !in r
    ensures |r| <= |s|
    decreases |s|
  {
    if |s| == 0 then "" else (if s[0] == '-' then "" else [s[0]]) + StripDashes(s[1..])
  }

  /** `slice(0, 20)`: at most the first twenty characters. */
  function Take20(s: string): string {
    if |s| <= 20 then s else s[..20]
  }

  /** The code of a wallet's principal account. */
  function AccountCode(walletId: Id): string {
    "WALLET_" + Take20(StripDashes(walletId))
  }

  lemma {:induction false} StripDashesAppend(a: string, b: string)
    ensures StripDashes(a + b) == StripDashes(a) + StripDashes(b)
    decreases |a|
  {
    if |a| > 0 {
      assert (a + b)[1..] == a[1..] + b;
      StripDashesAppend(a[1..], b);
    } else {
      assert a + b == b;
    }
  }

  lemma {:induction false} StripDashesNone(a: string)
    requires '-' !in a
    ensures StripDashes(a) == a
    decreases |a|
  {
    if |a| > 0 { StripDashesNone(a[1..]); }
  }

  /** The 8-4-4-4-12 shape of `randomUUID()`: dashes exactly at positions 8, 13, 18 and 23. */
  predicate UuidShaped(id: string) {
    |id| == 36 && forall i :: 0 <= i < 36 ==> (id[i] == '-' <==> i == 8 || i == 13 || i == 18 || i == 23)
  }

  /** Stripping a dash-free group followed by a dash and a rest keeps the group. */
  lemma {:induction false} StripGroup(a: string, b: string)
    requires '-' !in a
    ensures StripDashes(a + "-" + b) == a + StripDashes(b)
  {
    assert a + "-" + b == a + ("-" + b);
    StripDashesAppend(a, "-" + b);
    StripDashesNone(a);
    assert ("-" + b)[1..] == b;
  }

  /** A string splits around a dash at position `k`. */
  lemma SplitAtDash(s: string, k: nat)
    requires k < |s| && s[k] == '-'
    ensures s == s[..k] + "-" + s[k + 1..]
  {
  }

  /** A slice of positions that hold no dash contains no dash. */
  lemma NoDashSlice(s: string, lo: nat, hi: nat)
    requires lo <= hi <= |s| && forall i :: lo <= i < hi ==> s[i] != '-'
    ensures '-' !in s[lo..hi]
  {
    assert forall j :: 0 <= j < hi - lo ==> s[lo..hi][j] == s[lo + j];
  }

  /** Stripping a string whose first dash is at `k` keeps the `k` characters before it. */
  lemma {:induction false} Peel(s: string, k: nat)
    requires k < |s| && s[k] == '-' && forall i :: 0 <= i < k ==> s[i] != '-'
    ensures StripDashes(s) == s[..k] + StripDashes(s[k + 1..])
  {
    SplitAtDash(s, k);
    NoDashSlice(s, 0, k);
    assert s[0..k] == s[..k];
    StripGroup(s[..k], s[k + 1..]);
  }

  /** `Peel` on the suffix of `s` from `lo`, stated in positions of `s`. */
  lemma {:induction false} PeelAt(s: string, lo: nat, k: nat)
    requires lo + k < |s| && s[lo + k] == '-' && forall i :: lo <= i < lo + k ==> s[i] != '-'
    ensures StripDashes(s[lo..]) == s[lo..lo + k] + StripDashes(s[lo + k + 1..])
  {
    var t := s[lo..];
    assert forall i :: 0 <= i < k ==> t[i] == s[lo + i];
    Peel(t, k);
    assert t[..k] == s[lo..lo + k];
    assert t[k + 1..] == s[lo + k + 1..];
  }

  /** Removing the dashes of a UUID leaves its five hex groups side by side. */
  lemma {:induction false} UuidDigits(id: string)
    requires UuidShaped(id)
    ensures StripDashes(id) == id[..8] + (id[9..13] + (id[14..18] + (id[19..23] + id[24..])))
  {
    assert id[0..] == id;
    UuidGroup(id, 0, 8);
    UuidGroup(id, 9, 4);
    UuidGroup(id, 14, 4);
    UuidGroup(id, 19, 4);
    UuidTail(id);
  }

  /** Each of the first four groups of a UUID is followed by a dash. */
  lemma {:induction false} UuidGroup(id: string, lo: nat, k: nat)
    requires UuidShaped(id)
    requires (lo, k) == (0, 8) || (lo, k) == (9, 4) || (lo, k) == (14, 4) || (lo, k) == (19, 4)
    ensures StripDashes(id[lo..]) == id[lo..lo + k] + StripDashes(id[lo + k + 1..])
  {
    PeelAt(id, lo, k);
  }

  /** The last group of a UUID holds no dash. */
  lemma {:induction false} UuidTail(id: string)
    requires UuidShaped(id)
    ensures StripDashes(id[24..]) == id[24..]
  {
    NoDashSlice(id, 24, 36);
    assert id[24..36] == id[24..];
    StripDashesNone(id[24..]);
  }

  /**
   * For a UUID the code keeps the first twenty hex digits, i.e. the first
   * four groups, and drops the last twelve digits.
   */
  lemma {:induction false} UuidAccountCode(id: string)
    requires UuidShaped(id)
    ensures AccountCode(id) == "WALLET_" + id[..8] + id[9..13] + id[14..18] + id[19..23]
    ensures |AccountCode(id)| == 27
  {
    UuidDigits(id);
    var digits := id[..8] + (id[9..13] + (id[14..18] + (id[19..23] + id[24..])));
    assert |digits| == 32;
    assert digits[..20] == id[..8] + id[9..13] + id[14..18] + id[19..23];
  }

  // ------------------------------------------------------------ createWallet

  datatype WalletInput = WalletInput(tenant: Id, owner: Id, currency: Currency)

  /** The body `createWallet` returns. */
  datatype WalletView = WalletView(walletId: Id, tenant: Id, owner: Id, currency: Currency, status: WalletStatus)

  /**
   * `createWallet`: insert the `active` wallet, its `liability` account and
   * the principal mapping; if the account code is already taken in the
   * tenant the unique index rejects the account and the whole transaction
   * rolls back.
   */
  function CreateWalletStep(s: DbState, input: WalletInput, env: Env): Outcome<WalletView> {
    var code := AccountCode(env.walletId);
    var s1 := WithWallet(s, env.walletId, Wallet(input.tenant, input.owner, input.currency, Active, false));
    if (input.tenant, code) in s1.accountCodes then Outcome(Failure(DuplicateAccountCode), s)
    else
      var s2 := WithAccount(s1, env.accountId, Account(input.tenant, code, Liability, input.currency));
      var s3 := WithPrincipal(s2, env.walletId, env.accountId);
      Outcome(Success(WalletView(env.walletId, input.tenant, input.owner, input.currency, Active)), s3)
  }

  method CreateWallet(db: Db, input: WalletInput, env: Env) returns (r: Result<WalletView>)
    modifies db
    ensures Outcome(r, db.State()) == CreateWalletStep(old(db.State()), input, env)
  {
    var snapshot := db.State();
    var code := AccountCode(env.walletId);
    db.InsertWallet(env.walletId, Wallet(input.tenant, input.owner, input.currency, Active, false));
    if (input.tenant, code) in db.accountCodes {
      db.Rollback(snapshot);
      r := Failure(DuplicateAccountCode);
      return;
    }
    db.InsertAccount(env.accountId, Account(input.tenant, code, Liability, input.currency));
    db.InsertPrincipal(env.walletId, env.accountId);
    r := Success(WalletView(env.walletId, input.tenant, input.owner, input.currency, Active));
  }

  // ------------------------------------------------------------ reads

  /** `getWallet`: the row, or "Wallet not found". */
  function GetWallet(s: DbState, walletId: Id): (r: Result<Wallet>)
    ensures r.Success? <==> walletId in s.wallets
    ensures r.Success? ==> r.value == s.wallets[walletId]
    ensures r.Failure? ==> r.error == WalletNotFound
  {
    if walletId in s.wallets then Success(s.wallets[walletId]) else Failure(WalletNotFound)
  }

  datatype BalanceView = BalanceView(walletId: Id, available: int, ledger: int, currency: Currency)

  /**
   * `getBalance`: a wallet with a principal account (in any tenant and any
   * status) reports the projection of that account as both its available
   * and its ledger balance.
   */
  function GetBalance(s: DbState, walletId: Id): Result<BalanceView> {
    if walletId in s.wallets && walletId in s.principal then
      var b := Balance(s.entries, s.principal[walletId]);
      Success(BalanceView(walletId, b, b, s.wallets[walletId].currency))
    else Failure(WalletNotFound)
  }

  /**
   * The balance read fails only for an unknown wallet (or one without a
   * principal account); otherwise available equals ledger, both are credits
   * minus debits of the principal account, and they are 0 when no entry
   * touches it.
   */
  lemma {:induction false} GetBalanceMeaning(s: DbState, walletId: Id)
    ensures GetBalance(s, walletId).Failure? <==> walletId !in s.wallets || walletId !in s.principal
    ensures GetBalance(s, walletId).Failure? ==> GetBalance(s, walletId).error == WalletNotFound
    ensures GetBalance(s, walletId).Success? ==>
      var v := GetBalance(s, walletId).value;
      v.available == v.ledger == Balance(s.entries, s.principal[walletId])
      && ((forall i :: 0 <= i < |s.entries| ==> s.entries[i].account != s.principal[walletId]) ==> v.available == 0)
  {
    if walletId in s.wallets && walletId in s.principal {
      if forall i :: 0 <= i < |s.entries| ==> s.entries[i].account != s.principal[walletId] {
        BalanceUntouched(s.entries, s.principal[walletId]);
      }
    }
  }

  /**
   * A created wallet is immediately readable, active, usable by the
   * orchestrators, and has balance 0 on a liability account of its own
   * currency; failure leaves the store unchanged.
   */
  lemma {:induction false} CreateWalletContract(s: DbState, input: WalletInput, env: Env)
    requires Consistent(s) && FreshFor(s, env)
    ensures var o := CreateWalletStep(s, input, env);
      && (o.result.Failure? <==> (input.tenant, AccountCode(env.walletId)) in s.accountCodes)
      && (o.result.Failure? ==> o.state == s)
      && (o.result.Success? ==>
            && GetWallet(o.state, env.walletId) == Success(Wallet(input.tenant, input.owner, input.currency, Active, false))
            && GetBalance(o.state, env.walletId) == Success(BalanceView(env.walletId, 0, 0, input.currency))
            && GetWalletAccount(o.state, input.tenant, env.walletId)
               == Success(WalletAccount(env.accountId, input.currency, 0))
            && o.state.accounts[env.accountId] == Account(input.tenant, AccountCode(env.walletId), Liability, input.currency)
            && o.state.entries == s.entries && o.state.transactions == s.transactions)
  {
    var o := CreateWalletStep(s, input, env);
    if o.result.Success? {
      forall i | 0 <= i < |s.entries| ensures s.entries[i].account != env.accountId {
        assert s.entries[i].account in s.accounts;
      }
      BalanceUntouched(s.entries, env.accountId);
    }
  }

  /** Creating a wallet keeps the foreign keys and the unique code index intact. */
  lemma {:induction false} CreateWalletConsistent(s: DbState, input: WalletInput, env: Env)
    requires Consistent(s) && FreshFor(s, env)
    ensures Consistent(CreateWalletStep(s, input, env).state)
  {
    var code := AccountCode(env.walletId);
    var s1 := WithWallet(s, env.walletId, Wallet(input.tenant, input.owner, input.currency, Active, false));
    if (input.tenant, code) !in s1.accountCodes {
      WalletKeepsConsistent(s, env.walletId, Wallet(input.tenant, input.owner, input.currency, Active, false));
      var s2 := WithAccount(s1, env.accountId, Account(input.tenant, code, Liability, input.currency));
      AccountKeepsConsistent(s1, env.accountId, Account(input.tenant, code, Liability, input.currency));
      PrincipalKeepsConsistent(s2, env.walletId, env.accountId);
    }
  }
}
