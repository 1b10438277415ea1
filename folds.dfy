/**
 * The array built-ins the app chains together: `filter`, and `reduce`
 * used as a sum. Both walk the sequence front to back, as JS does; they are
 * defined here by peeling off the last element, so that a loop that pushes
 * or adds one element at a time matches one unfolding.
 */
module Folds {

  /** `xs.filter(p)`: the elements satisfying `p`, in their original order. */
  function Filter<T(!new)>(xs: seq<T>, p: T -> bool): (r: seq<T>)
    ensures |r| <= |xs|
    ensures forall x :: x in r <==> x in xs && p(x)
    decreases |xs|
  {
    if xs == [] then []
    else Filter(xs[..|xs| - 1], p) + (if p(xs[|xs| - 1]) then [xs[|xs| - 1]] else [])
  }

  /** `xs.reduce((sum, x) => sum + f(x), 0)`. */
  function Sum<T>(xs: seq<T>, f: T -> real): real
    decreases |xs|
  {
    if xs == [] then 0.0 else Sum(xs[..|xs| - 1], f) + f(xs[|xs| - 1])
  }

  lemma {:induction false} FilterAppend<T(!new)>(xs: seq<T>, ys: seq<T>, p: T -> bool)
    ensures Filter(xs + ys, p) == Filter(xs, p) + Filter(ys, p)
    decreases |ys|
  {
    if ys == [] {
      assert xs + ys == xs;
    } else {
      var n := |ys| - 1;
      var last := if p(ys[n]) then [ys[n]] else [];
      assert (xs + ys)[..|xs + ys| - 1] == xs + ys[..n];
      FilterAppend(xs, ys[..n], p);
      Associative(Filter(xs, p), Filter(ys[..n], p), last);
    }
  }

  /** One more element of a prefix. */
  lemma PrefixStep<T>(xs: seq<T>, i: nat)
    requires i < |xs|
    ensures xs[..i + 1] == xs[..i] + [xs[i]]
  {
  }

  lemma Associative<T>(a: seq<T>, b: seq<T>, c: seq<T>)
    ensures (a + b) + c == a + (b + c)
  {
  }

  /** Adding up a concatenation adds up the parts. */
  lemma {:induction false} SumAppend<T>(xs: seq<T>, ys: seq<T>, f: T -> real)
    ensures Sum(xs + ys, f) == Sum(xs, f) + Sum(ys, f)
    decreases |ys|
  {
    if ys == [] {
      assert xs + ys == xs;
    } else {
      var n := |ys| - 1;
      assert (xs + ys)[..|xs + ys| - 1] == xs + ys[..n];
      SumAppend(xs, ys[..n], f);
    }
  }

  /** A sum splits into the part a filter keeps and the part it drops. */
  lemma {:induction false} SumSplit<T(!new)>(xs: seq<T>, p: T -> bool, q: T -> bool, f: T -> real)
    requires forall x {:trigger q(x)} :: q(x) == !p(x)
    ensures Sum(xs, f) == Sum(Filter(xs, p), f) + Sum(Filter(xs, q), f)
    decreases |xs|
  {
    if xs != [] {
      var n := |xs| - 1;
      var front, x := xs[..n], xs[n];
      SumSplit(front, p, q, f);
      var kept, dropped := Filter(front, p), Filter(front, q);
      assert xs == front + [x];
      SumSnoc(front, x, f);
      FilterSnoc(front, x, p);
      FilterSnoc(front, x, q);
      if p(x) {
        SumSnoc(kept, x, f);
      } else {
        SumSnoc(dropped, x, f);
      }
    }
  }

  lemma FilterSnoc<T(!new)>(xs: seq<T>, x: T, p: T -> bool)
    ensures Filter(xs + [x], p) == if p(x) then Filter(xs, p) + [x] else Filter(xs, p)
  {
    assert (xs + [x])[..|xs|] == xs;
  }

  lemma SumSnoc<T>(xs: seq<T>, x: T, f: T -> real)
    ensures Sum(xs + [x], f) == Sum(xs, f) + f(x)
  {
    assert (xs + [x])[..|xs|] == xs;
  }

  /** Filtering twice with the same predicate changes nothing. */
  lemma {:induction false} FilterIdempotent<T(!new)>(xs: seq<T>, p: T -> bool)
    ensures Filter(Filter(xs, p), p) == Filter(xs, p)
    decreases |xs|
  {
    if xs != [] {
      var n := |xs| - 1;
      FilterIdempotent(xs[..n], p);
      FilterAppend(Filter(xs[..n], p), if p(xs[n]) then [xs[n]] else [], p);
    }
  }

  /** A filter whose predicate holds throughout keeps everything. */
  lemma FilterAll<T(!new)>(xs: seq<T>, p: T -> bool)
    requires forall x :: x in xs ==> p(x)
    ensures Filter(xs, p) == xs
  {
    assert forall i :: 0 <= i < |xs| ==> p(xs[i]) by {
      forall i | 0 <= i < |xs| ensures p(xs[i]) {
        assert xs[i] in xs;
      }
    }
    FilterEvery(xs, p);
  }

  /** `FilterAll`, with the predicate given position by position. */
  lemma {:induction false} FilterEvery<T(!new)>(xs: seq<T>, p: T -> bool)
    requires forall i :: 0 <= i < |xs| ==> p(xs[i])
    ensures Filter(xs, p) == xs
    decreases |xs|
  {
    if xs != [] {
      var n := |xs| - 1;
      FilterEvery(xs[..n], p);
      assert xs[..n] + [xs[n]] == xs;
    }
  }
}
