/**
 * The category breakdown the app builds with
 * `reduce((acc, x) => { acc[k] = (acc[k] || 0) + v; return acc }, {})`.
 *
 * The accumulator object is an association list in key-insertion order,
 * which is the order `Object.entries` reports for non-numeric keys.
 */
module Grouping {
  import opened Folds

  datatype Entry = Entry(key: string, value: real)

  function EntryValue(e: Entry): real { e.value }

  function Keys(es: seq<Entry>): (ks: seq<string>)
    ensures |ks| == |es|
    ensures forall i :: 0 <= i < |es| ==> ks[i] == es[i].key
  {
    seq(|es|, i requires 0 <= i < |es| => es[i].key)
  }

  predicate DistinctKeys(es: seq<Entry>)
  {
    forall i, j :: 0 <= i < |es| && 0 <= j < |es| && es[i].key == es[j].key ==> i == j
  }

  /** `acc[k] || 0`: the value under `k`, 0 when absent. */
  function Get(es: seq<Entry>, k: string): real
    decreases |es|
  {
    if es == [] then 0.0 else if es[0].key == k then es[0].value else Get(es[1..], k)
  }

  /** `acc[k] = (acc[k] || 0) + v`: a new key goes last, a known key keeps its place. */
  function AddTo(acc: seq<Entry>, k: string, v: real): (r: seq<Entry>)
    decreases |acc|
  {
    if acc == [] then [Entry(k, v)]
    else if acc[0].key == k then [Entry(k, acc[0].value + v)] + acc[1..]
    else [acc[0]] + AddTo(acc[1..], k, v)
  }

  /** The breakdown of `xs` by `key`, adding up `val`. */
  function GroupBy<T>(xs: seq<T>, key: T -> string, val: T -> real): seq<Entry>
    decreases |xs|
  {
    if xs == [] then []
    else
      var n := |xs| - 1;
      AddTo(GroupBy(xs[..n], key, val), key(xs[n]), val(xs[n]))
  }

  function KeyIs<T>(key: T -> string, k: string): T -> bool
  {
    x => key(x) == k
  }

  /** The keys of `ks` in order of first appearance. */
  function FirstAppearances(ks: seq<string>): seq<string>
    decreases |ks|
  {
    if ks == [] then []
    else
      var n := |ks| - 1;
      var d := FirstAppearances(ks[..n]);
      if ks[n] in d then d else d + [ks[n]]
  }

  function KeysOf<T>(xs: seq<T>, key: T -> string): (ks: seq<string>)
    ensures |ks| == |xs|
    ensures forall i :: 0 <= i < |xs| ==> ks[i] == key(xs[i])
  {
    seq(|xs|, i requires 0 <= i < |xs| => key(xs[i]))
  }

  // ---------------------------------------------------------------------
  // One step of the reduce
  // ---------------------------------------------------------------------

  lemma {:induction false} AddToKeys(acc: seq<Entry>, k: string, v: real)
    ensures Keys(AddTo(acc, k, v)) == if k in Keys(acc) then Keys(acc) else Keys(acc) + [k]
    decreases |acc|
  {
    if acc != [] {
      AddToKeys(acc[1..], k, v);
      assert Keys(acc) == [acc[0].key] + Keys(acc[1..]);
      if acc[0].key != k {
        assert Keys(AddTo(acc, k, v)) == [acc[0].key] + Keys(AddTo(acc[1..], k, v));
      } else {
        assert Keys(AddTo(acc, k, v)) == [k] + Keys(acc[1..]);
      }
    }
  }

  lemma {:induction false} AddToGet(acc: seq<Entry>, k: string, v: real, j: string)
    ensures Get(AddTo(acc, k, v), j) == Get(acc, j) + (if j == k then v else 0.0)
    decreases |acc|
  {
    if acc != [] && acc[0].key != k {
      AddToGet(acc[1..], k, v, j);
      assert AddTo(acc, k, v)[1..] == AddTo(acc[1..], k, v);
    } else if acc != [] {
      assert AddTo(acc, k, v)[1..] == acc[1..];
    }
  }

  lemma {:induction false} AddToSum(acc: seq<Entry>, k: string, v: real)
    ensures Sum(AddTo(acc, k, v), EntryValue) == Sum(acc, EntryValue) + v
    decreases |acc|
  {
    if acc == [] {
      assert [Entry(k, v)][..0] == [];
    } else {
      var head := [acc[0]];
      assert Sum(head, EntryValue) == acc[0].value by {
        assert head[..0] == [];
      }
      assert acc == head + acc[1..];
      SumAppend(head, acc[1..], EntryValue);
      if acc[0].key == k {
        var h2 := [Entry(k, acc[0].value + v)];
        assert Sum(h2, EntryValue) == acc[0].value + v by {
          assert h2[..0] == [];
        }
        SumAppend(h2, acc[1..], EntryValue);
      } else {
        AddToSum(acc[1..], k, v);
        SumAppend(head, AddTo(acc[1..], k, v), EntryValue);
      }
    }
  }

  lemma {:induction false} KeysDistinct(es: seq<Entry>)
    requires forall i, j :: 0 <= i < j < |Keys(es)| ==> Keys(es)[i] != Keys(es)[j]
    ensures DistinctKeys(es)
  {
    forall i, j | 0 <= i < |es| && 0 <= j < |es| && es[i].key == es[j].key ensures i == j {
      assert Keys(es)[i] == es[i].key && Keys(es)[j] == es[j].key;
    }
  }

  // ---------------------------------------------------------------------
  // The whole reduce
  // ---------------------------------------------------------------------

  /** The breakdown's keys are the input's keys, once each, in order of first appearance. */
  lemma {:induction false} GroupByKeys<T>(xs: seq<T>, key: T -> string, val: T -> real)
    ensures Keys(GroupBy(xs, key, val)) == FirstAppearances(KeysOf(xs, key))
    decreases |xs|
  {
    if xs != [] {
      var n := |xs| - 1;
      GroupByKeys(xs[..n], key, val);
      AddToKeys(GroupBy(xs[..n], key, val), key(xs[n]), val(xs[n]));
      assert KeysOf(xs, key)[..n] == KeysOf(xs[..n], key);
    }
  }

  /** First appearances hold every key once, and exactly the keys that occur. */
  lemma {:induction false} FirstAppearancesSpec(ks: seq<string>)
    ensures forall k :: k in FirstAppearances(ks) <==> k in ks
    ensures forall i, j :: 0 <= i < j < |FirstAppearances(ks)| ==> FirstAppearances(ks)[i] != FirstAppearances(ks)[j]
    decreases |ks|
  {
    if ks != [] {
      var n := |ks| - 1;
      FirstAppearancesSpec(ks[..n]);
      assert ks == ks[..n] + [ks[n]];
    }
  }

  /** Each key's value is the sum of `val` over the input elements with that key. */
  lemma {:induction false} GroupByGet<T(!new)>(xs: seq<T>, key: T -> string, val: T -> real, k: string)
    ensures Get(GroupBy(xs, key, val), k) == Sum(Filter(xs, KeyIs(key, k)), val)
    decreases |xs|
  {
    if xs != [] {
      var n := |xs| - 1;
      var p := KeyIs(key, k);
      GroupByGet(xs[..n], key, val, k);
      AddToGet(GroupBy(xs[..n], key, val), key(xs[n]), val(xs[n]), k);
      if key(xs[n]) == k {
        assert p(xs[n]);
        assert Filter(xs, p) == Filter(xs[..n], p) + [xs[n]];
        SumAppend(Filter(xs[..n], p), [xs[n]], val);
        assert [xs[n]][..0] == [];
      } else {
        assert !p(xs[n]);
        assert Filter(xs, p) == Filter(xs[..n], p);
      }
    }
  }

  /** The breakdown's values add up to the total of the input. */
  lemma {:induction false} GroupByTotal<T>(xs: seq<T>, key: T -> string, val: T -> real)
    ensures Sum(GroupBy(xs, key, val), EntryValue) == Sum(xs, val)
    decreases |xs|
  {
    if xs != [] {
      var n := |xs| - 1;
      GroupByTotal(xs[..n], key, val);
      AddToSum(GroupBy(xs[..n], key, val), key(xs[n]), val(xs[n]));
    }
  }

  /** In a list with distinct keys, each entry's value is what `Get` finds for its key. */
  lemma {:induction false} GetEntry(es: seq<Entry>, i: nat)
    requires DistinctKeys(es) && i < |es|
    ensures Get(es, es[i].key) == es[i].value
    decreases |es|
  {
    if i > 0 {
      assert es[0].key != es[i].key;
      var rest := es[1..];
      assert DistinctKeys(rest) by {
        forall a, b | 0 <= a < |rest| && 0 <= b < |rest| && rest[a].key == rest[b].key ensures a == b {
          assert es[a + 1].key == es[b + 1].key;
        }
      }
      assert rest[i - 1] == es[i];
      GetEntry(rest, i - 1);
    }
  }

  /**
   * The breakdown of `xs` by `key`: one entry per distinct key, in order of
   * first appearance, each holding the sum of `val` over its elements.
   */
  lemma GroupBySpec<T(!new)>(xs: seq<T>, key: T -> string, val: T -> real)
    ensures var g := GroupBy(xs, key, val);
            DistinctKeys(g)
            && (forall k :: k in Keys(g) <==> exists x :: x in xs && key(x) == k)
            && (forall i :: 0 <= i < |g| ==> g[i].value == Sum(Filter(xs, KeyIs(key, g[i].key)), val))
            && Sum(g, EntryValue) == Sum(xs, val)
  {
    var g := GroupBy(xs, key, val);
    GroupByKeys(xs, key, val);
    FirstAppearancesSpec(KeysOf(xs, key));
    KeysDistinct(g);
    forall k ensures k in Keys(g) <==> exists x :: x in xs && key(x) == k {
      if k in KeysOf(xs, key) {
        var i :| 0 <= i < |xs| && KeysOf(xs, key)[i] == k;
        assert xs[i] in xs;
      }
      if exists x :: x in xs && key(x) == k {
        var x :| x in xs && key(x) == k;
        var i :| 0 <= i < |xs| && xs[i] == x;
        assert KeysOf(xs, key)[i] == k;
      }
    }
    forall i | 0 <= i < |g| ensures g[i].value == Sum(Filter(xs, KeyIs(key, g[i].key)), val) {
      GetEntry(g, i);
      GroupByGet(xs, key, val, g[i].key);
    }
    GroupByTotal(xs, key, val);
  }
}
