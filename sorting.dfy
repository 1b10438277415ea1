/**
 * Descending order by a numeric key, as `sort((a, b) => key(b) - key(a))`
 * and Mongo's `sort({ field: -1 })` produce it, and the top-N slice taken
 * from such a list.
 */
module Sorting {

  predicate SortedDesc<T>(s: seq<T>, key: T -> real)
  {
    forall i, j :: 0 <= i < j < |s| ==> key(s[i]) >= key(s[j])
  }

  /** `x` placed after every element whose key is at least its own. */
  function InsertDesc<T>(s: seq<T>, x: T, key: T -> real): (r: seq<T>)
    ensures multiset(r) == multiset(s) + multiset{x}
    ensures |r| == |s| + 1
    decreases |s|
  {
    if s == [] then [x]
    else if key(s[0]) >= key(x) then
      assert s == [s[0]] + s[1..];
      [s[0]] + InsertDesc(s[1..], x, key)
    else [x] + s
  }

  /** Insertion adds only `x`: every element of the result is `x` or was in `s`. */
  lemma InsertDescMembers<T>(s: seq<T>, x: T, key: T -> real)
    ensures forall y :: y in InsertDesc(s, x, key) ==> y == x || y in s
  {
    var r := InsertDesc(s, x, key);
    forall y | y in r ensures y == x || y in s {
      assert y in multiset(r);
    }
  }

  lemma {:induction false} InsertDescSorted<T>(s: seq<T>, x: T, key: T -> real)
    requires SortedDesc(s, key)
    ensures SortedDesc(InsertDesc(s, x, key), key)
    ensures forall y :: y in InsertDesc(s, x, key) ==> y == x || y in s
    decreases |s|
  {
    InsertDescMembers(s, x, key);
    var r := InsertDesc(s, x, key);
    if s != [] {
      if key(s[0]) >= key(x) {
        var tail := s[1..];
        var rest := InsertDesc(tail, x, key);
        assert SortedDesc(tail, key);
        InsertDescSorted(tail, x, key);
        assert r == [s[0]] + rest;
        assert forall y :: y in rest ==> key(s[0]) >= key(y) by {
          forall y | y in rest ensures key(s[0]) >= key(y) {
            if y != x {
              var k :| 0 <= k < |tail| && tail[k] == y;
              assert s[k + 1] == y;
            }
          }
        }
        forall i, j | 0 <= i < j < |r| ensures key(r[i]) >= key(r[j]) {
          assert r[j] == rest[j - 1];
          if i > 0 {
            assert r[i] == rest[i - 1];
          } else {
            assert rest[j - 1] in rest;
          }
        }
      } else {
        assert r == [x] + s;
        forall i, j | 0 <= i < j < |r| ensures key(r[i]) >= key(r[j]) {
          if i > 0 {
            assert r[i] == s[i - 1] && r[j] == s[j - 1];
          } else {
            assert r[j] == s[j - 1];
          }
        }
      }
    }
  }

  /**
   * Insertion sort, taking elements front to back: equal keys keep their
   * input order, as JS's stable `sort` keeps them.
   */
  function SortDesc<T>(xs: seq<T>, key: T -> real): (r: seq<T>)
    ensures multiset(r) == multiset(xs)
    ensures |r| == |xs|
    decreases |xs|
  {
    if xs == [] then []
    else
      var n := |xs| - 1;
      assert xs == xs[..n] + [xs[n]];
      InsertDesc(SortDesc(xs[..n], key), xs[n], key)
  }

  lemma {:induction false} SortDescSorted<T>(xs: seq<T>, key: T -> real)
    ensures SortedDesc(SortDesc(xs, key), key)
    decreases |xs|
  {
    if xs != [] {
      var n := |xs| - 1;
      SortDescSorted(xs[..n], key);
      InsertDescSorted(SortDesc(xs[..n], key), xs[n], key);
    }
  }

  /** `xs.slice(0, n)`. */
  function Take<T>(xs: seq<T>, n: nat): (r: seq<T>)
    ensures |r| == if n < |xs| then n else |xs|
    ensures r <= xs
  {
    if n < |xs| then xs[..n] else xs
  }

  /**
   * The first `n` of a descending list: at most `n` of them, and none of
   * the omitted ones ranks above any one shown.
   */
  lemma TopN<T>(s: seq<T>, n: nat, key: T -> real)
    requires SortedDesc(s, key)
    ensures |Take(s, n)| <= n
    ensures forall i, j :: 0 <= i < |Take(s, n)| <= j < |s| ==> key(s[i]) >= key(s[j])
  {
  }
}
