/**
 * Order-preserving selection from a list: the list comprehension
 * `[x for x in xs if p(x)]` and what it means to be a subsequence.
 */
module Filtering {

  /** `idx` picks the elements of `xs` out of `ys`, at strictly increasing positions. */
  ghost predicate Embeds<T>(idx: seq<nat>, xs: seq<T>, ys: seq<T>)
  {
    |idx| == |xs|
    && (forall k | 0 <= k < |idx| :: idx[k] < |ys| && ys[idx[k]] == xs[k])
    && (forall k, l | 0 <= k < l < |idx| :: idx[k] < idx[l])
  }

  /** `xs` is `ys` with some elements deleted and the rest kept in order. */
  ghost predicate IsSubsequence<T>(xs: seq<T>, ys: seq<T>)
  {
    exists idx :: Embeds(idx, xs, ys)
  }

  /** The elements of `xs` that satisfy `p`, in their order in `xs`. */
  function Filter<T>(xs: seq<T>, p: T -> bool): (r: seq<T>)
    ensures |r| <= |xs|
    ensures forall k | 0 <= k < |r| :: p(r[k]) && r[k] in xs
  {
    if xs == [] then []
    else Filter(xs[..|xs| - 1], p) + (if p(xs[|xs| - 1]) then [xs[|xs| - 1]] else [])
  }

  /** The selection is a subsequence of the input. */
  lemma {:induction false} FilterIsSubsequence<T>(xs: seq<T>, p: T -> bool) returns (idx: seq<nat>)
    ensures Embeds(idx, Filter(xs, p), xs)
    ensures IsSubsequence(Filter(xs, p), xs)
  {
    if xs == [] {
      idx := [];
    } else {
      var init, last := xs[..|xs| - 1], xs[|xs| - 1];
      var prev := FilterIsSubsequence(init, p);
      var r0 := Filter(init, p);
      if p(last) {
        idx := prev + [|xs| - 1];
        assert Filter(xs, p) == r0 + [last];
      } else {
        idx := prev;
        assert Filter(xs, p) == r0;
      }
      var r := Filter(xs, p);
      forall k | 0 <= k < |idx| ensures idx[k] < |xs| && xs[idx[k]] == r[k] {
        if k < |prev| {
          assert xs[prev[k]] == init[prev[k]];
        }
      }
    }
    assert Embeds(idx, Filter(xs, p), xs);
  }

  /** The selection keeps every element satisfying `p` as often as it occurs, and no other. */
  lemma {:induction false} FilterMultiset<T>(xs: seq<T>, p: T -> bool, x: T)
    ensures multiset(Filter(xs, p))[x] == if p(x) then multiset(xs)[x] else 0
  {
    if xs != [] {
      var init, last := xs[..|xs| - 1], xs[|xs| - 1];
      FilterMultiset(init, p, x);
      assert xs == init + [last];
      assert multiset(xs) == multiset(init) + multiset{last};
    }
  }

  /** Selecting from two lists one after the other is selecting from their concatenation. */
  lemma {:induction false} FilterAppend<T>(a: seq<T>, b: seq<T>, p: T -> bool)
    ensures Filter(a + b, p) == Filter(a, p) + Filter(b, p)
    decreases |b|
  {
    if b == [] {
      assert a + b == a;
    } else {
      var init, last := b[..|b| - 1], b[|b| - 1];
      assert (a + b)[..|a + b| - 1] == a + init;
      FilterAppend(a, init, p);
    }
  }

  /** Nothing is selected from a list none of whose elements qualifies. */
  lemma {:induction false} FilterNone<T>(xs: seq<T>, p: T -> bool)
    requires forall k | 0 <= k < |xs| :: !p(xs[k])
    ensures Filter(xs, p) == []
    decreases |xs|
  {
    if xs != [] {
      FilterNone(xs[..|xs| - 1], p);
    }
  }

  /** Everything is selected from a list all of whose elements qualify. */
  lemma {:induction false} FilterAll<T>(xs: seq<T>, p: T -> bool)
    requires forall k | 0 <= k < |xs| :: p(xs[k])
    ensures Filter(xs, p) == xs
    decreases |xs|
  {
    if xs != [] {
      FilterAll(xs[..|xs| - 1], p);
      assert xs[..|xs| - 1] + [xs[|xs| - 1]] == xs;
    }
  }

  lemma FilterStep<T>(xs: seq<T>, p: T -> bool, i: nat)
    requires i < |xs|
    ensures Filter(xs[..i + 1], p) == Filter(xs[..i], p) + (if p(xs[i]) then [xs[i]] else [])
  {
    assert xs[..i + 1][..i] == xs[..i];
  }
}
