/**
 * The idempotency coordinator: a request is identified by (tenant, key) and
 * fingerprinted by a hash of its payload that ignores key order. A first
 * request runs its handler and records (hash, response); a repeat with the
 * same hash replays the recorded response; a repeat with another hash is
 * rejected. Everything runs in one database transaction, so a failing
 * handler leaves nothing behind, not even the record.
 */
module Idempotency {
  import opened Types
  import opened Store
  import opened Ordering

  // ------------------------------------------------------------ hashPayload

  /** `Object.keys(payload)`. */
  function Keys(p: Payload): (ks: seq<string>)
    ensures |ks| == |p| && forall i :: 0 <= i < |p| ==> ks[i] == p[i].0
  {
    seq(|p|, i requires 0 <= i < |p| => p[i].0)
  }

  /** The object a payload describes: a later assignment to a key overrides an earlier one. */
  function ToMap(p: Payload): map<string, JsonValue>
    decreases |p|
  {
    if |p| == 0 then map[] else ToMap(p[..|p| - 1])[p[|p| - 1].0 := p[|p| - 1].1]
  }

  lemma {:induction false} ToMapKeys(p: Payload)
    ensures ToMap(p).Keys == Elems(Keys(p))
    decreases |p|
  {
    if |p| > 0 {
      var init := p[..|p| - 1];
      ToMapKeys(init);
      assert Keys(p) == Keys(init) + [p[|p| - 1].0];
    }
  }

  lemma {:induction false} ToMapAppend(p: Payload, q: Payload)
    ensures ToMap(p + q) == ToMap(p) + ToMap(q)
    decreases |q|
  {
    if |q| > 0 {
      assert (p + q)[..|p + q| - 1] == p + q[..|q| - 1];
      ToMapAppend(p, q[..|q| - 1]);
    } else {
      assert p + q == p;
    }
  }

  /**
   * `sha256(JSON.stringify(payload, Object.keys(payload).sort()))`: the
   * serialisation lists the pairs in ascending key order; the digest is
   * treated as injective, so the hash is that canonical list itself.
   */
  function HashPayload(p: Payload): seq<(string, JsonValue)> {
    var ks := SortedUnique(Keys(p));
    ToMapKeys(p);
    assert forall i :: 0 <= i < |ks| ==> ks[i] in Elems(ks);
    seq(|ks|, i requires 0 <= i < |ks| => (ks[i], ToMap(p)[ks[i]]))
  }

  /** Two payloads hash alike exactly when they describe the same object. */
  lemma {:induction false} HashMeaning(p: Payload, q: Payload)
    ensures HashPayload(p) == HashPayload(q) <==> ToMap(p) == ToMap(q)
  {
    var kp, kq := SortedUnique(Keys(p)), SortedUnique(Keys(q));
    ToMapKeys(p);
    ToMapKeys(q);
    if ToMap(p) == ToMap(q) {
      SortedUniqueCanonical(Keys(p), Keys(q));
    }
    if HashPayload(p) == HashPayload(q) {
      assert |kp| == |kq|;
      forall i | 0 <= i < |kp| ensures kp[i] == kq[i] {
        assert HashPayload(p)[i].0 == kp[i];
        assert HashPayload(q)[i].0 == kq[i];
      }
      assert kp == kq;
      forall k | k in ToMap(p) ensures ToMap(p)[k] == ToMap(q)[k] {
        assert k in Elems(kp);
        var i :| 0 <= i < |kp| && kp[i] == k;
        assert HashPayload(p)[i] == HashPayload(q)[i];
      }
    }
  }

  /** Two assignments to different keys commute. */
  lemma {:induction false} ToMapSwap(x: (string, JsonValue), y: (string, JsonValue))
    requires x.0 != y.0
    ensures ToMap([x, y]) == ToMap([y, x])
  {
    assert [x, y][..1] == [x] && [y, x][..1] == [y];
    assert [x][..0] == [] && [y][..0] == [];
  }

  /** The object a payload describes does not depend on the order of two different keys. */
  lemma {:induction false} ToMapIgnoresKeyOrder(before: Payload, x: (string, JsonValue), y: (string, JsonValue), after: Payload)
    requires x.0 != y.0
    ensures ToMap(before + [x, y] + after) == ToMap(before + [y, x] + after)
  {
    ToMapAppend(before + [x, y], after);
    ToMapAppend(before + [y, x], after);
    ToMapAppend(before, [x, y]);
    ToMapAppend(before, [y, x]);
    ToMapSwap(x, y);
  }

  /** The hash does not depend on the order in which the payload lists two different keys. */
  lemma {:induction false} HashIgnoresKeyOrder(before: Payload, x: (string, JsonValue), y: (string, JsonValue), after: Payload)
    requires x.0 != y.0
    ensures HashPayload(before + [x, y] + after) == HashPayload(before + [y, x] + after)
  {
    ToMapIgnoresKeyOrder(before, x, y, after);
    HashMeaning(before + [x, y] + after, before + [y, x] + after);
  }

  // ------------------------------------------------------------ execute

  /** The three ways `execute` can go once it has read the (tenant, key) row. */
  datatype Decision = Replay(response: Response) | Conflict | Run

  /** `select ... where tenant_id = $1 and key = $2 for update` and the two comparisons after it. */
  function Decide(s: DbState, tenant: Id, key: string, hash: seq<(string, JsonValue)>): Decision {
    if (tenant, key) in s.idempotencyKeys then
      var record := s.idempotencyKeys[(tenant, key)];
      if record.requestHash == hash then Replay(record.response) else Conflict
    else Run
  }

  /**
   * `execute`, with the handler's effect given as a function of the store.
   * A failing handler rolls the whole transaction back.
   */
  function ExecuteStep(s: DbState, tenant: Id, key: string, payload: Payload, run: DbState -> Outcome<Response>): Outcome<Response> {
    var hash := HashPayload(payload);
    match Decide(s, tenant, key, hash)
    case Replay(response) => Outcome(Success(response), s)
    case Conflict => Outcome(Failure(IdempotencyConflict), s)
    case Run =>
      var o := run(s);
      match o.result
      case Failure(e) => Outcome(Failure(e), s)
      case Success(response) => Outcome(Success(response), WithRecord(o.state, tenant, key, IdempotencyRecord(hash, response)))
  }

  /** The row read under lock; the method only reads. */
  method Lookup(db: Db, tenant: Id, key: string, hash: seq<(string, JsonValue)>) returns (d: Decision)
    ensures d == Decide(db.State(), tenant, key, hash)
    ensures d.Run? <==> (tenant, key) !in db.idempotencyKeys
  {
    if (tenant, key) in db.idempotencyKeys {
      var record := db.idempotencyKeys[(tenant, key)];
      if record.requestHash == hash {
        d := Replay(record.response);
      } else {
        d := Conflict;
      }
    } else {
      d := Run;
    }
  }

  /** With a record whose hash matches, the stored response comes back and nothing changes. */
  lemma {:induction false} ExecuteReplays(s: DbState, tenant: Id, key: string, payload: Payload, run: DbState -> Outcome<Response>)
    requires (tenant, key) in s.idempotencyKeys && s.idempotencyKeys[(tenant, key)].requestHash == HashPayload(payload)
    ensures ExecuteStep(s, tenant, key, payload, run) == Outcome(Success(s.idempotencyKeys[(tenant, key)].response), s)
  {
  }

  /** With a record whose hash differs, the call is rejected and nothing changes. */
  lemma {:induction false} ExecuteConflicts(s: DbState, tenant: Id, key: string, payload: Payload, run: DbState -> Outcome<Response>)
    requires (tenant, key) in s.idempotencyKeys && s.idempotencyKeys[(tenant, key)].requestHash != HashPayload(payload)
    ensures ExecuteStep(s, tenant, key, payload, run) == Outcome(Failure(IdempotencyConflict), s)
  {
  }

  /**
   * Without a record the handler runs once: on failure nothing persists,
   * on success its writes persist together with the record of its response.
   */
  lemma {:induction false} ExecuteRuns(s: DbState, tenant: Id, key: string, payload: Payload, run: DbState -> Outcome<Response>)
    requires (tenant, key) !in s.idempotencyKeys
    ensures var o := ExecuteStep(s, tenant, key, payload, run);
      && o.result == run(s).result
      && (o.result.Failure? ==> o.state == s)
      && (o.result.Success? ==>
            o.state == WithRecord(run(s).state, tenant, key, IdempotencyRecord(HashPayload(payload), o.result.value)))
  {
  }

  /** Whatever happens, a failed call leaves the store exactly as it was. */
  lemma {:induction false} ExecuteFailureRollsBack(s: DbState, tenant: Id, key: string, payload: Payload, run: DbState -> Outcome<Response>)
    ensures ExecuteStep(s, tenant, key, payload, run).result.Failure? ==> ExecuteStep(s, tenant, key, payload, run).state == s
  {
  }

  /**
   * Exactly once: after a successful call, repeating it with a payload
   * describing the same object returns the same response and changes
   * nothing, whatever the handler would do now.
   */
  lemma {:induction false} ExecuteTwice(s: DbState, tenant: Id, key: string, payload: Payload, again: Payload,
                                        run: DbState -> Outcome<Response>, runAgain: DbState -> Outcome<Response>)
    requires ToMap(again) == ToMap(payload)
    requires ExecuteStep(s, tenant, key, payload, run).result.Success?
    ensures var first := ExecuteStep(s, tenant, key, payload, run);
      ExecuteStep(first.state, tenant, key, again, runAgain) == first
  {
    HashMeaning(again, payload);
  }

  /** Records are per tenant: another tenant's record under the same key does not affect the decision. */
  lemma {:induction false} DecideTenantScoped(s: DbState, tenant: Id, other: Id, key: string, hash: seq<(string, JsonValue)>, r: IdempotencyRecord)
    requires other != tenant
    ensures Decide(WithRecord(s, other, key, r), tenant, key, hash) == Decide(s, tenant, key, hash)
  {
  }
}
