/**
 * The Postgres tables the services read and write, as an in-memory store.
 * `DbState` is the value of all tables at one moment; `Db` is the mutable
 * store whose methods are the individual INSERT and UPDATE statements.
 */
module Store {
  import opened Types

  datatype DbState = DbState(
    wallets: map<Id, Wallet>,
    accounts: map<Id, Account>,
    /** The unique index on `accounts (tenant_id, code)`. */
    accountCodes: map<(Id, string), Id>,
    /** `wallet_accounts` rows with role 'principal': wallet id to account id. */
    principal: map<Id, Id>,
    transactions: map<Id, Transaction>,
    batches: map<Id, Batch>,
    /** `ledger_entries`, append-only, in insertion order. */
    entries: seq<Entry>,
    externalTransfers: map<Id, ExternalTransfer>,
    /** `idempotency_keys`, unique on (tenant_id, key). */
    idempotencyKeys: map<(Id, string), IdempotencyRecord>,
    /** `compliance_policies`, unique on (tenant_id, currency). */
    policies: map<(Id, Currency), Policy>)

  /** What an operation returns together with the tables it leaves behind. */
  datatype Outcome<T> = Outcome(result: Result<T>, state: DbState)

  function EmptyState(): DbState {
    DbState(map[], map[], map[], map[], map[], map[], [], map[], map[], map[])
  }

  // ------------------------------------------------------------ single statements

  function WithWallet(s: DbState, id: Id, w: Wallet): DbState {
    s.(wallets := s.wallets[id := w])
  }

  /** INSERT INTO accounts; the unique index gains the row's (tenant, code). */
  function WithAccount(s: DbState, id: Id, a: Account): DbState {
    s.(accounts := s.accounts[id := a], accountCodes := s.accountCodes[(a.tenant, a.code) := id])
  }

  function WithPrincipal(s: DbState, wallet: Id, account: Id): DbState {
    s.(principal := s.principal[wallet := account])
  }

  function WithTransaction(s: DbState, id: Id, t: Transaction): DbState {
    s.(transactions := s.transactions[id := t])
  }

  /** `update transactions set status = ... where id = ...`: no row, no change. */
  function WithStatus(s: DbState, id: Id, status: TxStatus): DbState {
    if id in s.transactions then s.(transactions := s.transactions[id := s.transactions[id].(status := status)]) else s
  }

  function WithBatch(s: DbState, id: Id, b: Batch): DbState {
    s.(batches := s.batches[id := b])
  }

  function WithEntry(s: DbState, e: Entry): DbState {
    s.(entries := s.entries + [e])
  }

  function WithExternal(s: DbState, id: Id, x: ExternalTransfer): DbState {
    s.(externalTransfers := s.externalTransfers[id := x])
  }

  function WithExternalStatus(s: DbState, id: Id, status: TxStatus): DbState {
    if id in s.externalTransfers then s.(externalTransfers := s.externalTransfers[id := s.externalTransfers[id].(status := status)]) else s
  }

  /** Writing a key twice keeps only the second value. */
  lemma UpdateTwice<K, V>(m: map<K, V>, k: K, v: V, w: V)
    ensures m[k := v][k := w] == m[k := w]
  {
  }

  /** Marking a present transaction and a present external transfer changes exactly those two rows. */
  lemma {:induction false} StatusesPosted(s: DbState, txId: Id, externalId: Id)
    requires txId in s.transactions && externalId in s.externalTransfers
    ensures WithExternalStatus(WithStatus(s, txId, Posted), externalId, Posted).transactions
         == s.transactions[txId := s.transactions[txId].(status := Posted)]
    ensures WithExternalStatus(WithStatus(s, txId, Posted), externalId, Posted).externalTransfers
         == s.externalTransfers[externalId := s.externalTransfers[externalId].(status := Posted)]
  {
  }

  /** A status update writes the transaction table and nothing else. */
  lemma {:induction false} StatusFrame(s: DbState, id: Id, status: TxStatus)
    ensures WithStatus(s, id, status).(transactions := s.transactions) == s
  {
  }

  /** An external status update writes the external transfer table and nothing else. */
  lemma {:induction false} ExternalStatusFrame(s: DbState, id: Id, status: TxStatus)
    ensures WithExternalStatus(s, id, status).(externalTransfers := s.externalTransfers) == s
  {
  }

  function WithRecord(s: DbState, tenant: Id, key: string, r: IdempotencyRecord): DbState {
    s.(idempotencyKeys := s.idempotencyKeys[(tenant, key) := r])
  }

  function WithPolicy(s: DbState, tenant: Id, currency: Currency, p: Policy): DbState {
    s.(policies := s.policies[(tenant, currency) := p])
  }

  // ------------------------------------------------------------ integrity

  /** The foreign keys and the unique code index of the schema. */
  ghost predicate Consistent(s: DbState) {
    (forall i :: 0 <= i < |s.entries| ==> s.entries[i].batchId in s.batches && s.entries[i].account in s.accounts)
    && (forall b :: b in s.batches ==> s.batches[b].transactionId in s.transactions)
    && (forall w :: w in s.principal ==> w in s.wallets && s.principal[w] in s.accounts)
    && (forall x :: x in s.externalTransfers ==> s.externalTransfers[x].transactionId in s.transactions)
    && (forall k :: k in s.accountCodes ==>
          s.accountCodes[k] in s.accounts && s.accounts[s.accountCodes[k]].tenant == k.0
          && s.accounts[s.accountCodes[k]].code == k.1)
    && (forall a :: a in s.accounts ==>
          (s.accounts[a].tenant, s.accounts[a].code) in s.accountCodes
          && s.accountCodes[(s.accounts[a].tenant, s.accounts[a].code)] == a)
  }

  lemma {:induction false} WalletKeepsConsistent(s: DbState, id: Id, w: Wallet)
    requires Consistent(s)
    ensures Consistent(WithWallet(s, id, w))
  {
    var t := WithWallet(s, id, w);
    assert t.(wallets := s.wallets) == s;
  }

  /** A new account whose (tenant, code) is free keeps the unique code index a bijection. */
  lemma {:induction false} AccountKeepsConsistent(s: DbState, id: Id, a: Account)
    requires Consistent(s) && id !in s.accounts && (a.tenant, a.code) !in s.accountCodes
    ensures Consistent(WithAccount(s, id, a))
  {
    var t := WithAccount(s, id, a);
    forall k | k in t.accountCodes
      ensures t.accountCodes[k] in t.accounts && t.accounts[t.accountCodes[k]].tenant == k.0
              && t.accounts[t.accountCodes[k]].code == k.1
    {
      if k != (a.tenant, a.code) {
        assert s.accountCodes[k] in s.accounts && s.accountCodes[k] != id;
      }
    }
    forall b | b in t.accounts
      ensures (t.accounts[b].tenant, t.accounts[b].code) in t.accountCodes
              && t.accountCodes[(t.accounts[b].tenant, t.accounts[b].code)] == b
    {
      if b != id {
        assert (s.accounts[b].tenant, s.accounts[b].code) in s.accountCodes;
      }
    }
  }

  lemma {:induction false} PrincipalKeepsConsistent(s: DbState, wallet: Id, account: Id)
    requires Consistent(s) && wallet in s.wallets && account in s.accounts
    ensures Consistent(WithPrincipal(s, wallet, account))
  {
    var t := WithPrincipal(s, wallet, account);
    assert t.(principal := s.principal) == s;
  }

  /** The ids `randomUUID()` hands out are not yet used anywhere in the store. */
  ghost predicate FreshFor(s: DbState, env: Env) {
    env.txId !in s.transactions && env.batchId !in s.batches && env.accountId !in s.accounts
    && env.externalId !in s.externalTransfers && env.walletId !in s.wallets && env.walletId !in s.principal
  }

  // ------------------------------------------------------------ the mutable store

  class Db {
    var wallets: map<Id, Wallet>
    var accounts: map<Id, Account>
    var accountCodes: map<(Id, string), Id>
    var principal: map<Id, Id>
    var transactions: map<Id, Transaction>
    var batches: map<Id, Batch>
    var entries: seq<Entry>
    var externalTransfers: map<Id, ExternalTransfer>
    var idempotencyKeys: map<(Id, string), IdempotencyRecord>
    var policies: map<(Id, Currency), Policy>

    /** The current contents of every table. */
    function State(): DbState
      reads this
    {
      DbState(wallets, accounts, accountCodes, principal, transactions, batches, entries,
              externalTransfers, idempotencyKeys, policies)
    }

    constructor ()
      ensures State() == EmptyState()
    {
      wallets, accounts, accountCodes, principal := map[], map[], map[], map[];
      transactions, batches, entries := map[], map[], [];
      externalTransfers, idempotencyKeys, policies := map[], map[], map[];
    }

    /** `rollback`: every table returns to the snapshot taken at `begin`. */
    method Rollback(snapshot: DbState)
      modifies this
      ensures State() == snapshot
    {
      wallets, accounts, accountCodes, principal := snapshot.wallets, snapshot.accounts, snapshot.accountCodes, snapshot.principal;
      transactions, batches, entries := snapshot.transactions, snapshot.batches, snapshot.entries;
      externalTransfers, idempotencyKeys, policies := snapshot.externalTransfers, snapshot.idempotencyKeys, snapshot.policies;
    }

    method InsertWallet(id: Id, w: Wallet)
      modifies this`wallets
      ensures State() == WithWallet(old(State()), id, w)
    {
      wallets := wallets[id := w];
    }

    method InsertAccount(id: Id, a: Account)
      modifies this`accounts, this`accountCodes
      ensures State() == WithAccount(old(State()), id, a)
    {
      accounts := accounts[id := a];
      accountCodes := accountCodes[(a.tenant, a.code) := id];
    }

    method InsertPrincipal(wallet: Id, account: Id)
      modifies this`principal
      ensures State() == WithPrincipal(old(State()), wallet, account)
    {
      principal := principal[wallet := account];
    }

    method InsertTransaction(id: Id, t: Transaction)
      modifies this`transactions
      ensures State() == WithTransaction(old(State()), id, t)
    {
      transactions := transactions[id := t];
    }

    method UpdateStatus(id: Id, status: TxStatus)
      modifies this`transactions
      ensures State() == WithStatus(old(State()), id, status)
    {
      if id in transactions {
        transactions := transactions[id := transactions[id].(status := status)];
      }
    }

    method InsertBatch(id: Id, b: Batch)
      modifies this`batches
      ensures State() == WithBatch(old(State()), id, b)
    {
      batches := batches[id := b];
    }

    method InsertEntry(e: Entry)
      modifies this`entries
      ensures State() == WithEntry(old(State()), e)
    {
      entries := entries + [e];
    }

    method InsertExternal(id: Id, x: ExternalTransfer)
      modifies this`externalTransfers
      ensures State() == WithExternal(old(State()), id, x)
    {
      externalTransfers := externalTransfers[id := x];
    }

    method UpdateExternalStatus(id: Id, status: TxStatus)
      modifies this`externalTransfers
      ensures State() == WithExternalStatus(old(State()), id, status)
    {
      if id in externalTransfers {
        externalTransfers := externalTransfers[id := externalTransfers[id].(status := status)];
      }
    }

    method InsertRecord(tenant: Id, key: string, r: IdempotencyRecord)
      modifies this`idempotencyKeys
      ensures State() == WithRecord(old(State()), tenant, key, r)
    {
      idempotencyKeys := idempotencyKeys[(tenant, key) := r];
    }

    method PutPolicy(tenant: Id, currency: Currency, p: Policy)
      modifies this`policies
      ensures State() == WithPolicy(old(State()), tenant, currency, p)
    {
      policies := policies[(tenant, currency) := p];
    }
  }
}
