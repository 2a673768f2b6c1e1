/**
 * The default order of JavaScript's `Array.prototype.sort` on strings
 * (lexicographic by character) and `[...new Set(xs)].sort()`: deduplicate,
 * then sort ascending.
 */
module Ordering {

  /** `a` sorts strictly before `b`. */
  predicate Less(a: string, b: string)
    decreases |a|
  {
    if |a| == 0 then |b| > 0
    else if |b| == 0 then false
    else if a[0] == b[0] then Less(a[1..], b[1..])
    else a[0] < b[0]
  }

  lemma {:induction false} LessIrreflexive(a: string)
    ensures !Less(a, a)
    decreases |a|
  {
    if |a| > 0 { LessIrreflexive(a[1..]); }
  }

  lemma {:induction false} LessTransitive(a: string, b: string, c: string)
    requires Less(a, b) && Less(b, c)
    ensures Less(a, c)
    decreases |a|
  {
    if |a| > 0 && |b| > 0 && |c| > 0 && a[0] == b[0] && b[0] == c[0] {
      LessTransitive(a[1..], b[1..], c[1..]);
    }
  }

  lemma {:induction false} LessTotal(a: string, b: string)
    requires a != b
    ensures Less(a, b) || Less(b, a)
    decreases |a|
  {
    if |a| > 0 && |b| > 0 && a[0] == b[0] {
      assert a == [a[0]] + a[1..] && b == [b[0]] + b[1..];
      LessTotal(a[1..], b[1..]);
    }
  }

  lemma {:induction false} LessAsymmetric(a: string, b: string)
    requires Less(a, b)
    ensures !Less(b, a)
  {
    if Less(b, a) {
      LessTransitive(a, b, a);
      LessIrreflexive(a);
    }
  }

  /** The elements of a list. */
  function Elems(xs: seq<string>): set<string> {
    set x | x in xs
  }

  lemma ElemsCons(xs: seq<string>)
    requires |xs| > 0
    ensures Elems(xs) == {xs[0]} + Elems(xs[1..])
  {
    assert xs == [xs[0]] + xs[1..];
  }

  /** Ascending without repetition. */
  predicate StrictlySorted(xs: seq<string>) {
    forall i, j :: 0 <= i < j < |xs| ==> Less(xs[i], xs[j])
  }

  /** Inserts `x` into a strictly sorted list unless it is already there. */
  function Insert(x: string, xs: seq<string>): (r: seq<string>)
    requires StrictlySorted(xs)
    ensures StrictlySorted(r)
    ensures Elems(r) == Elems(xs) + {x}
    decreases |xs|
  {
    if |xs| == 0 then [x]
    else if x == xs[0] then xs
    else if Less(x, xs[0]) then
      assert forall j :: 0 < j < |xs| ==> Less(x, xs[j]) by {
        forall j | 0 < j < |xs| ensures Less(x, xs[j]) { LessTransitive(x, xs[0], xs[j]); }
      }
      [x] + xs
    else
      LessTotal(x, xs[0]);
      var rest := Insert(x, xs[1..]);
      assert forall y :: y in rest ==> Less(xs[0], y) by {
        forall y | y in rest ensures Less(xs[0], y) {
          assert y in Elems(rest);
          if y != x {
            assert y in Elems(xs[1..]);
            var j :| 0 <= j < |xs[1..]| && xs[1..][j] == y;
            assert xs[j + 1] == y;
          }
        }
      }
      ElemsCons(xs);
      ElemsCons([xs[0]] + rest);
      assert ([xs[0]] + rest)[1..] == rest;
      [xs[0]] + rest
  }

  /** `[...new Set(xs)].sort()`. */
  function SortedUnique(xs: seq<string>): (r: seq<string>)
    ensures StrictlySorted(r)
    ensures Elems(r) == Elems(xs)
    decreases |xs|
  {
    if |xs| == 0 then [] else Insert(xs[|xs| - 1], SortedUnique(xs[..|xs| - 1]))
  }

  /** The head of a strictly sorted list precedes every other element. */
  lemma {:induction false} HeadLeast(xs: seq<string>, y: string)
    requires StrictlySorted(xs) && y in Elems(xs)
    ensures |xs| > 0 && (y == xs[0] || Less(xs[0], y))
  {
    var j :| 0 <= j < |xs| && xs[j] == y;
  }

  lemma {:induction false} NotBoth(a: string, b: string)
    ensures !(Less(a, b) && Less(b, a))
  {
    if Less(a, b) { LessAsymmetric(a, b); }
  }

  /** A strictly sorted list has no repeated element: its head is not in its tail. */
  lemma {:induction false} HeadNotInTail(xs: seq<string>)
    requires StrictlySorted(xs) && |xs| > 0
    ensures xs[0] !in Elems(xs[1..])
  {
    LessIrreflexive(xs[0]);
    forall j | 0 <= j < |xs[1..]| ensures xs[1..][j] != xs[0] {
      assert Less(xs[0], xs[j + 1]);
    }
  }

  /** A strictly sorted list is determined by its elements. */
  lemma {:induction false} SortedUniqueness(xs: seq<string>, ys: seq<string>)
    requires StrictlySorted(xs) && StrictlySorted(ys)
    requires Elems(xs) == Elems(ys)
    ensures xs == ys
    decreases |xs|
  {
    if |xs| > 0 { assert xs[0] in Elems(xs); }
    if |ys| > 0 { assert ys[0] in Elems(ys); }
    if |xs| > 0 && |ys| > 0 {
      // Both heads are the least element of the common set.
      HeadLeast(xs, ys[0]);
      HeadLeast(ys, xs[0]);
      NotBoth(xs[0], ys[0]);
      ElemsCons(xs);
      ElemsCons(ys);
      HeadNotInTail(xs);
      HeadNotInTail(ys);
      assert Elems(xs[1..]) == Elems(ys[1..]);
      SortedUniqueness(xs[1..], ys[1..]);
      assert xs == [xs[0]] + xs[1..] && ys == [ys[0]] + ys[1..];
    }
  }

  /** The lock list does not depend on the order or repetition of the ids given. */
  lemma {:induction false} SortedUniqueCanonical(xs: seq<string>, ys: seq<string>)
    requires Elems(xs) == Elems(ys)
    ensures SortedUnique(xs) == SortedUnique(ys)
  {
    SortedUniqueness(SortedUnique(xs), SortedUnique(ys));
  }
}
