/**
 * The ledger engine: `validateBalanced` accepts a batch of posting lines only
 * if it is non-empty, every amount is positive, all lines share one currency
 * and the debits equal the credits; `post` then appends one batch row and one
 * entry row per line.
 */
module Ledger {
  import opened Types
  import opened Store
  import opened Balances

  // ------------------------------------------------------------ totals

  function DebitTotal(lines: seq<Line>): int
    decreases |lines|
  {
    if |lines| == 0 then 0
    else
      var last := lines[|lines| - 1];
      DebitTotal(lines[..|lines| - 1]) + (if last.direction == Debit then last.amount else 0)
  }

  function CreditTotal(lines: seq<Line>): int
    decreases |lines|
  {
    if |lines| == 0 then 0
    else
      var last := lines[|lines| - 1];
      CreditTotal(lines[..|lines| - 1]) + (if last.direction == Credit then last.amount else 0)
  }

  /** The `currencies` set the validator accumulates. */
  function Currencies(lines: seq<Line>): set<Currency>
    decreases |lines|
  {
    if |lines| == 0 then {} else Currencies(lines[..|lines| - 1]) + {lines[|lines| - 1].currency}
  }

  // ------------------------------------------------------------ validation

  /** The outcome of `validateBalanced`, its checks in the order the source makes them. */
  function Validation(lines: seq<Line>): Result<()> {
    if |lines| == 0 then Failure(LinesRequired)
    else if exists i :: 0 <= i < |lines| && lines[i].amount <= 0 then Failure(NonPositiveLineAmount)
    else if |Currencies(lines)| != 1 then Failure(MixedCurrencies)
    else if DebitTotal(lines) != CreditTotal(lines) then Failure(UnbalancedBatch)
    else Success(())
  }

  /** A batch the ledger may hold: non-empty, positive, one currency, debits equal credits. */
  predicate Balanced(lines: seq<Line>) {
    |lines| > 0
    && (forall i :: 0 <= i < |lines| ==> lines[i].amount > 0)
    && (forall i :: 0 <= i < |lines| ==> lines[i].currency == lines[0].currency)
    && DebitTotal(lines) == CreditTotal(lines)
  }

  lemma {:induction false} CurrenciesMembers(lines: seq<Line>, c: Currency)
    ensures c in Currencies(lines) <==> exists i :: 0 <= i < |lines| && lines[i].currency == c
    decreases |lines|
  {
    if |lines| > 0 {
      var init := lines[..|lines| - 1];
      CurrenciesMembers(init, c);
      if c in Currencies(init) {
        var i :| 0 <= i < |init| && init[i].currency == c;
        assert lines[i].currency == c;
      }
      if exists i :: 0 <= i < |lines| && lines[i].currency == c {
        var i :| 0 <= i < |lines| && lines[i].currency == c;
        if i < |init| { assert init[i].currency == c; }
      }
    }
  }

  /** The currency set has exactly one element iff every line carries the first line's currency. */
  lemma {:induction false} SingleCurrency(lines: seq<Line>)
    requires |lines| > 0
    ensures |Currencies(lines)| == 1 <==> forall i :: 0 <= i < |lines| ==> lines[i].currency == lines[0].currency
  {
    var c0 := lines[0].currency;
    CurrenciesMembers(lines, c0);
    if forall i :: 0 <= i < |lines| ==> lines[i].currency == c0 {
      forall c | c in Currencies(lines) ensures c == c0 {
        CurrenciesMembers(lines, c);
      }
      assert Currencies(lines) == {c0};
    }
    if |Currencies(lines)| == 1 {
      forall i | 0 <= i < |lines| ensures lines[i].currency == c0 {
        CurrenciesMembers(lines, lines[i].currency);
        SingletonMembers(Currencies(lines), c0, lines[i].currency);
      }
    }
  }

  /** A set of one element holds nothing else. */
  lemma SingletonMembers<T>(s: set<T>, a: T, b: T)
    requires |s| == 1 && a in s && b in s
    ensures a == b
  {
    var rest := s - {a};
    assert s == rest + {a};
    assert |rest| == 0;
    assert b !in rest;
  }

  /** `validateBalanced` returns normally exactly on balanced batches. */
  lemma {:induction false} ValidationMeaning(lines: seq<Line>)
    ensures Validation(lines).Success? <==> Balanced(lines)
  {
    if |lines| > 0 { SingleCurrency(lines); }
  }

  /** Extending a prefix by one line adds that line to the totals and to the currency set. */
  lemma {:induction false} TotalsStep(lines: seq<Line>, i: nat)
    requires i < |lines|
    ensures DebitTotal(lines[..i + 1]) == DebitTotal(lines[..i]) + (if lines[i].direction == Debit then lines[i].amount else 0)
    ensures CreditTotal(lines[..i + 1]) == CreditTotal(lines[..i]) + (if lines[i].direction == Credit then lines[i].amount else 0)
    ensures Currencies(lines[..i + 1]) == Currencies(lines[..i]) + {lines[i].currency}
  {
    assert lines[..i + 1][..i] == lines[..i];
  }

  /** The loop of `validateBalanced`: totals and currency set are accumulated line by line. */
  method ValidateBalanced(lines: seq<Line>) returns (r: Result<()>)
    ensures r == Validation(lines)
  {
    if |lines| == 0 {
      return Failure(LinesRequired);
    }
    var debitTotal, creditTotal := 0, 0;
    var currencies: set<Currency> := {};
    var i := 0;
    while i < |lines|
      invariant 0 <= i <= |lines|
      invariant forall j :: 0 <= j < i ==> lines[j].amount > 0
      invariant debitTotal == DebitTotal(lines[..i])
      invariant creditTotal == CreditTotal(lines[..i])
      invariant currencies == Currencies(lines[..i])
    {
      var line := lines[i];
      if line.amount <= 0 {
        return Failure(NonPositiveLineAmount);
      }
      currencies := currencies + {line.currency};
      if line.direction == Debit {
        debitTotal := debitTotal + line.amount;
      } else {
        creditTotal := creditTotal + line.amount;
      }
      TotalsStep(lines, i);
      i := i + 1;
    }
    assert lines[..i] == lines;
    if |currencies| != 1 {
      return Failure(MixedCurrencies);
    }
    if debitTotal != creditTotal {
      return Failure(UnbalancedBatch);
    }
    return Success(());
  }

  // ------------------------------------------------------------ posting

  /** The entry row written for one line of batch `batchId`. */
  function EntryOf(batchId: Id, l: Line): Entry {
    Entry(batchId, l.account, l.direction, l.amount, l.currency)
  }

  /** The posting line an entry row was written from. */
  function LineOf(e: Entry): Line {
    Line(e.account, e.direction, e.amount, e.currency)
  }

  function LinesOf(entries: seq<Entry>): seq<Line>
    decreases |entries|
  {
    if |entries| == 0 then [] else LinesOf(entries[..|entries| - 1]) + [LineOf(entries[|entries| - 1])]
  }

  /** The entries `post` appends for `lines`, in order. */
  function Posting(batchId: Id, lines: seq<Line>): seq<Entry>
    decreases |lines|
  {
    if |lines| == 0 then [] else Posting(batchId, lines[..|lines| - 1]) + [EntryOf(batchId, lines[|lines| - 1])]
  }

  /** One entry per line, in the same position, copying account, direction, amount and currency. */
  lemma {:induction false} PostingAt(batchId: Id, lines: seq<Line>)
    ensures |Posting(batchId, lines)| == |lines|
    ensures forall i :: 0 <= i < |lines| ==> Posting(batchId, lines)[i] == EntryOf(batchId, lines[i])
    decreases |lines|
  {
    if |lines| > 0 { PostingAt(batchId, lines[..|lines| - 1]); }
  }

  /** Reading the entries of a posting back as lines gives the lines posted. */
  lemma {:induction false} LinesOfPosting(batchId: Id, lines: seq<Line>)
    ensures LinesOf(Posting(batchId, lines)) == lines
    decreases |lines|
  {
    if |lines| > 0 {
      var init := lines[..|lines| - 1];
      LinesOfPosting(batchId, init);
      assert Posting(batchId, lines)[..|Posting(batchId, lines)| - 1] == Posting(batchId, init);
      assert init + [lines[|lines| - 1]] == lines;
    }
  }

  /** A posting moves credits minus debits in total. */
  lemma {:induction false} PostingNetTotal(batchId: Id, lines: seq<Line>)
    ensures NetTotal(Posting(batchId, lines)) == CreditTotal(lines) - DebitTotal(lines)
    decreases |lines|
  {
    if |lines| > 0 {
      var init := lines[..|lines| - 1];
      PostingNetTotal(batchId, init);
      assert Posting(batchId, lines)[..|Posting(batchId, lines)| - 1] == Posting(batchId, init);
    }
  }

  /** `post`: validate, then insert the batch row and one entry row per line. */
  function PostStep(s: DbState, txId: Id, lines: seq<Line>, batchId: Id, today: Day): Outcome<Id> {
    match Validation(lines)
    case Failure(e) => Outcome(Failure(e), s)
    case Success(_) =>
      Outcome(Success(batchId), s.(batches := s.batches[batchId := Batch(txId, today)],
                                   entries := s.entries + Posting(batchId, lines)))
  }

  /**
   * What `post` promises: it writes only when the batch is balanced; then it
   * returns the new batch id, adds exactly that batch, tied to `txId`, and
   * appends one entry per line, in order, leaving every earlier entry and
   * every other table as it was.
   */
  lemma {:induction false} PostContract(s: DbState, txId: Id, lines: seq<Line>, batchId: Id, today: Day)
    ensures var o := PostStep(s, txId, lines, batchId, today);
      && (o.result.Success? <==> Balanced(lines))
      && (o.result.Failure? ==> o.state == s)
      && (o.result.Success? ==>
            && o.result.value == batchId
            && o.state.batches == s.batches[batchId := Batch(txId, today)]
            && |o.state.entries| == |s.entries| + |lines|
            && o.state.entries[..|s.entries|] == s.entries
            && (forall i :: 0 <= i < |lines| ==> o.state.entries[|s.entries| + i] == EntryOf(batchId, lines[i]))
            && o.state == s.(batches := o.state.batches, entries := o.state.entries))
  {
    ValidationMeaning(lines);
    PostingAt(batchId, lines);
  }

  /** A valid batch is posted under the given batch id. */
  lemma {:induction false} PostSucceeds(s: DbState, txId: Id, lines: seq<Line>, batchId: Id, today: Day)
    requires Validation(lines).Success?
    ensures PostStep(s, txId, lines, batchId, today)
         == Outcome(Success(batchId), s.(batches := s.batches[batchId := Batch(txId, today)], entries := s.entries + Posting(batchId, lines)))
  {
  }

  /** Whether or not it succeeds, `post` writes nothing outside the batches and the entries. */
  lemma {:induction false} PostFrame(s: DbState, txId: Id, lines: seq<Line>, batchId: Id, today: Day)
    ensures PostStep(s, txId, lines, batchId, today).state.(batches := s.batches, entries := s.entries) == s
  {
    match Validation(lines) {
      case Failure(_) =>
      case Success(_) =>
    }
  }

  /**
   * Conservation: a successful posting changes the sum of the balances of
   * any distinct accounts covering its lines by zero.
   */
  lemma {:induction false} PostConserves(s: DbState, txId: Id, lines: seq<Line>, batchId: Id, today: Day, accounts: seq<Id>)
    requires Distinct(accounts)
    requires forall i :: 0 <= i < |lines| ==> lines[i].account in accounts
    ensures var o := PostStep(s, txId, lines, batchId, today);
      SumBalances(o.state.entries, accounts) == SumBalances(s.entries, accounts)
  {
    var o := PostStep(s, txId, lines, batchId, today);
    if o.result.Success? {
      var p := Posting(batchId, lines);
      PostingAt(batchId, lines);
      SumBalancesAppend(s.entries, p, accounts);
      SumOfBalances(p, accounts);
      PostingNetTotal(batchId, lines);
    }
  }

  // ------------------------------------------------------------ the ledger invariant

  /** The entries of batch `batchId`, in log order. */
  function BatchEntries(entries: seq<Entry>, batchId: Id): seq<Entry>
    decreases |entries|
  {
    if |entries| == 0 then []
    else
      var last := entries[|entries| - 1];
      BatchEntries(entries[..|entries| - 1], batchId) + (if last.batchId == batchId then [last] else [])
  }

  lemma {:induction false} BatchEntriesAppend(xs: seq<Entry>, ys: seq<Entry>, batchId: Id)
    ensures BatchEntries(xs + ys, batchId) == BatchEntries(xs, batchId) + BatchEntries(ys, batchId)
    decreases |ys|
  {
    if |ys| > 0 {
      assert (xs + ys)[..|xs + ys| - 1] == xs + ys[..|ys| - 1];
      BatchEntriesAppend(xs, ys[..|ys| - 1], batchId);
    } else {
      assert xs + ys == xs;
    }
  }

  lemma {:induction false} BatchEntriesNone(entries: seq<Entry>, batchId: Id)
    requires forall i :: 0 <= i < |entries| ==> entries[i].batchId != batchId
    ensures BatchEntries(entries, batchId) == []
    decreases |entries|
  {
    if |entries| > 0 { BatchEntriesNone(entries[..|entries| - 1], batchId); }
  }

  lemma {:induction false} BatchEntriesOfPosting(batchId: Id, lines: seq<Line>, other: Id)
    ensures BatchEntries(Posting(batchId, lines), other) == if other == batchId then Posting(batchId, lines) else []
    decreases |lines|
  {
    if |lines| > 0 {
      BatchEntriesOfPosting(batchId, lines[..|lines| - 1], other);
      assert Posting(batchId, lines)[..|Posting(batchId, lines)| - 1] == Posting(batchId, lines[..|lines| - 1]);
    }
  }

  /** Every entry belongs to a batch, and every batch's entries form a balanced batch. */
  ghost predicate LedgerBalanced(s: DbState) {
    (forall i :: 0 <= i < |s.entries| ==> s.entries[i].batchId in s.batches)
    && (forall b :: b in s.batches ==> Balanced(LinesOf(BatchEntries(s.entries, b))))
  }

  /** After appending the posting of a new batch, that batch holds exactly the posting and every other batch is as before. */
  lemma {:induction false} BatchEntriesAfterPosting(entries: seq<Entry>, batchId: Id, lines: seq<Line>, b: Id)
    requires forall i :: 0 <= i < |entries| ==> entries[i].batchId != batchId
    ensures BatchEntries(entries + Posting(batchId, lines), b)
         == if b == batchId then Posting(batchId, lines) else BatchEntries(entries, b)
  {
    var p := Posting(batchId, lines);
    BatchEntriesAppend(entries, p, b);
    BatchEntriesOfPosting(batchId, lines, b);
    if b == batchId {
      BatchEntriesNone(entries, batchId);
      assert [] + p == p;
    } else {
      assert BatchEntries(entries, b) + [] == BatchEntries(entries, b);
    }
  }

  /** `post` keeps every batch of the ledger balanced. */
  lemma {:induction false} PostKeepsLedgerBalanced(s: DbState, txId: Id, lines: seq<Line>, batchId: Id, today: Day)
    requires LedgerBalanced(s) && batchId !in s.batches
    ensures LedgerBalanced(PostStep(s, txId, lines, batchId, today).state)
  {
    var o := PostStep(s, txId, lines, batchId, today);
    if o.result.Success? {
      var p := Posting(batchId, lines);
      assert o.state.entries == s.entries + p;
      PostingAt(batchId, lines);
      ValidationMeaning(lines);
      forall b | b in o.state.batches ensures Balanced(LinesOf(BatchEntries(o.state.entries, b))) {
        BatchEntriesAfterPosting(s.entries, batchId, lines, b);
        if b == batchId {
          LinesOfPosting(batchId, lines);
        }
      }
    }
  }

  /**
   * Whatever else an operation changes, if its only change to the ledger is
   * one successful `post` under a new batch id, every batch stays balanced.
   */
  lemma {:induction false} AppendKeepsLedgerBalanced(s: DbState, t: DbState, txId: Id, lines: seq<Line>, batchId: Id, today: Day)
    requires LedgerBalanced(s) && batchId !in s.batches && Balanced(lines)
    requires t.entries == s.entries + Posting(batchId, lines) && t.batches == s.batches[batchId := Batch(txId, today)]
    ensures LedgerBalanced(t)
  {
    PostKeepsLedgerBalanced(s, txId, lines, batchId, today);
    ValidationMeaning(lines);
    var o := PostStep(s, txId, lines, batchId, today);
    assert o.state.entries == t.entries && o.state.batches == t.batches;
  }

  /** The ledger `post` operation on the store. */
  method Post(db: Db, txId: Id, lines: seq<Line>, batchId: Id, today: Day) returns (r: Result<Id>)
    modifies db`batches, db`entries
    ensures Outcome(r, db.State()) == PostStep(old(db.State()), txId, lines, batchId, today)
  {
    var valid := ValidateBalanced(lines);
    match valid {
      case Failure(e) =>
        r := Failure(e);
      case Success(_) =>
        db.InsertBatch(batchId, Batch(txId, today));
        ghost var afterBatch := db.State();
        var i := 0;
        while i < |lines|
          invariant 0 <= i <= |lines|
          invariant db.State() == afterBatch.(entries := afterBatch.entries + Posting(batchId, lines[..i]))
        {
          db.InsertEntry(EntryOf(batchId, lines[i]));
          assert lines[..i + 1][..i] == lines[..i];
          i := i + 1;
        }
        assert lines[..i] == lines;
        r := Success(batchId);
    }
  }
}
