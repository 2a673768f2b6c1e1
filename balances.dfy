/**
 * The balance projection: an account's balance is the sum of its credit
 * entries minus the sum of its debit entries, and 0 when it has none.
 */
module Balances {
  import opened Types

  /** An entry's contribution to its account: `case direction when 'credit' then amount else -amount`. */
  function Signed(e: Entry): int {
    if e.direction == Credit then e.amount else -e.amount
  }

  /** `coalesce(sum(...), 0)` over the entries of `account`. */
  function Balance(entries: seq<Entry>, account: Id): int
    decreases |entries|
  {
    if |entries| == 0 then 0
    else
      var last := entries[|entries| - 1];
      Balance(entries[..|entries| - 1], account) + (if last.account == account then Signed(last) else 0)
  }

  /** The signed sum over every entry, whatever its account. */
  function NetTotal(entries: seq<Entry>): int
    decreases |entries|
  {
    if |entries| == 0 then 0 else NetTotal(entries[..|entries| - 1]) + Signed(entries[|entries| - 1])
  }

  /** Appending entries adds their balance: the projection is a fold over an append-only log. */
  lemma {:induction false} BalanceAppend(xs: seq<Entry>, ys: seq<Entry>, account: Id)
    ensures Balance(xs + ys, account) == Balance(xs, account) + Balance(ys, account)
    decreases |ys|
  {
    if |ys| > 0 {
      assert (xs + ys)[..|xs + ys| - 1] == xs + ys[..|ys| - 1];
      BalanceAppend(xs, ys[..|ys| - 1], account);
    } else {
      assert xs + ys == xs;
    }
  }

  lemma {:induction false} NetTotalAppend(xs: seq<Entry>, ys: seq<Entry>)
    ensures NetTotal(xs + ys) == NetTotal(xs) + NetTotal(ys)
    decreases |ys|
  {
    if |ys| > 0 {
      assert (xs + ys)[..|xs + ys| - 1] == xs + ys[..|ys| - 1];
      NetTotalAppend(xs, ys[..|ys| - 1]);
    } else {
      assert xs + ys == xs;
    }
  }

  /** An account no entry mentions has balance 0 (the `coalesce`). */
  lemma {:induction false} BalanceUntouched(entries: seq<Entry>, account: Id)
    requires forall i :: 0 <= i < |entries| ==> entries[i].account != account
    ensures Balance(entries, account) == 0
    decreases |entries|
  {
    if |entries| > 0 { BalanceUntouched(entries[..|entries| - 1], account); }
  }

  /** Moving an amount from one account to another and then back leaves every balance as it was. */
  lemma {:induction false} MoveAndBack(e0: seq<Entry>, e1: seq<Entry>, e2: seq<Entry>, from: Id, to: Id, amount: int)
    requires forall a :: Balance(e1, a) == Balance(e0, a) - (if a == from then amount else 0) + (if a == to then amount else 0)
    requires forall a :: Balance(e2, a) == Balance(e1, a) - (if a == to then amount else 0) + (if a == from then amount else 0)
    ensures forall a :: Balance(e2, a) == Balance(e0, a)
  {
  }

  /** The sum of the balances of the accounts in `accounts`. */
  function SumBalances(entries: seq<Entry>, accounts: seq<Id>): int
    decreases |accounts|
  {
    if |accounts| == 0 then 0 else SumBalances(entries, accounts[1..]) + Balance(entries, accounts[0])
  }

  predicate Distinct(xs: seq<Id>) {
    forall i, j :: 0 <= i < j < |xs| ==> xs[i] != xs[j]
  }

  /** Summing one more entry over a list of distinct accounts that holds its account adds its signed amount once. */
  lemma {:induction false} SumBalancesStep(entries: seq<Entry>, e: Entry, accounts: seq<Id>)
    requires Distinct(accounts)
    ensures SumBalances(entries + [e], accounts)
         == SumBalances(entries, accounts) + (if e.account in accounts then Signed(e) else 0)
    decreases |accounts|
  {
    if |accounts| > 0 {
      assert (entries + [e])[..|entries + [e]| - 1] == entries;
      assert Distinct(accounts[1..]);
      SumBalancesStep(entries, e, accounts[1..]);
      assert e.account in accounts <==> e.account == accounts[0] || e.account in accounts[1..] by {
        assert accounts == [accounts[0]] + accounts[1..];
      }
      assert e.account == accounts[0] ==> e.account !in accounts[1..];
    }
  }

  /**
   * Double-entry bookkeeping: over distinct accounts that include every
   * account the entries mention, the balances add up to the net total.
   */
  lemma {:induction false} SumOfBalances(entries: seq<Entry>, accounts: seq<Id>)
    requires Distinct(accounts)
    requires forall i :: 0 <= i < |entries| ==> entries[i].account in accounts
    ensures SumBalances(entries, accounts) == NetTotal(entries)
    decreases |entries|
  {
    if |entries| == 0 {
      SumOfNothing(accounts);
    } else {
      var init := entries[..|entries| - 1];
      SumOfBalances(init, accounts);
      SumBalancesStep(init, entries[|entries| - 1], accounts);
      assert init + [entries[|entries| - 1]] == entries;
    }
  }

  lemma {:induction false} SumOfNothing(accounts: seq<Id>)
    ensures SumBalances([], accounts) == 0
    decreases |accounts|
  {
    if |accounts| > 0 { SumOfNothing(accounts[1..]); }
  }

  /** The balances of a list of accounts add up over an append, account by account. */
  lemma {:induction false} SumBalancesAppend(xs: seq<Entry>, ys: seq<Entry>, accounts: seq<Id>)
    ensures SumBalances(xs + ys, accounts) == SumBalances(xs, accounts) + SumBalances(ys, accounts)
    decreases |accounts|
  {
    if |accounts| > 0 {
      SumBalancesAppend(xs, ys, accounts[1..]);
      BalanceAppend(xs, ys, accounts[0]);
    }
  }
}
