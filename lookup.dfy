/**
 * Python's `next((x for x in xs if p(x)), fallback)`: the first element that
 * satisfies a test, or a fallback when none does.
 */
module Lookup {
  import opened Optional

  /** Index `i` holds the first element of `xs` that satisfies `p`. */
  predicate IsFirstMatch<T>(xs: seq<T>, p: T -> bool, i: int)
  {
    0 <= i < |xs| && p(xs[i]) && forall j | 0 <= j < i :: !p(xs[j])
  }

  /** The index of the first element at or after `from` that satisfies `p`. */
  function FirstMatchFrom<T>(xs: seq<T>, p: T -> bool, from: nat): (r: Option<nat>)
    requires from <= |xs|
    ensures r.Some? ==> from <= r.value < |xs| && p(xs[r.value])
    ensures r.Some? ==> forall j | from <= j < r.value :: !p(xs[j])
    ensures r.None? <==> forall j | from <= j < |xs| :: !p(xs[j])
    decreases |xs| - from
  {
    if from == |xs| then None
    else if p(xs[from]) then Some(from)
    else FirstMatchFrom(xs, p, from + 1)
  }

  /** The first element satisfying `p`, or `fallback` when there is none. */
  function FirstWhere<T>(xs: seq<T>, p: T -> bool, fallback: T): (r: T)
    ensures (exists i :: IsFirstMatch(xs, p, i) && r == xs[i])
      || ((forall j | 0 <= j < |xs| :: !p(xs[j])) && r == fallback)
  {
    match FirstMatchFrom(xs, p, 0)
    case Some(i) => assert IsFirstMatch(xs, p, i); xs[i]
    case None => fallback
  }

  /** The first match is unique: it is what `FirstWhere` returns. */
  lemma FirstMatchUnique<T>(xs: seq<T>, p: T -> bool, fallback: T, i: int)
    requires IsFirstMatch(xs, p, i)
    ensures FirstWhere(xs, p, fallback) == xs[i]
  {
    if k :| IsFirstMatch(xs, p, k) && FirstWhere(xs, p, fallback) == xs[k] {
      assert !(k < i) && !(i < k);
    }
  }

  /** Two tests that agree on every element find the same first element. */
  lemma FirstWhereExtensional<T>(xs: seq<T>, p: T -> bool, q: T -> bool, fallback: T)
    requires forall x | x in xs :: p(x) == q(x)
    ensures FirstWhere(xs, p, fallback) == FirstWhere(xs, q, fallback)
  {
    if i :| IsFirstMatch(xs, p, i) {
      assert IsFirstMatch(xs, q, i) by {
        forall j | 0 <= j <= i ensures p(xs[j]) == q(xs[j]) {
          assert xs[j] in xs;
        }
      }
      FirstMatchUnique(xs, p, fallback, i);
      FirstMatchUnique(xs, q, fallback, i);
    } else {
      forall j | 0 <= j < |xs| ensures !p(xs[j]) && !q(xs[j]) {
        assert xs[j] in xs;
        if p(xs[j]) {
          var k := FirstMatchFrom(xs, p, 0).value;
          assert IsFirstMatch(xs, p, k);
        }
      }
    }
  }
}
