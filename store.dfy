/**
 * An in-memory stand-in for a Mongoose collection: a sequence of documents
 * in insertion order, each carrying a string id that no other document in
 * the collection shares. `IndexOf` plays `findById`; `Without` plays
 * `deleteOne` on the document found.
 */
module Store {
  import opened Js
  import opened Folds

  /** No two documents of `xs` carry the same id. */
  predicate UniqueKeys<T>(xs: seq<T>, key: T -> string)
  {
    forall i, j :: 0 <= i < |xs| && 0 <= j < |xs| && key(xs[i]) == key(xs[j]) ==> i == j
  }

  predicate HasKey<T>(xs: seq<T>, key: T -> string, id: string)
  {
    exists i :: 0 <= i < |xs| && key(xs[i]) == id
  }

  /** `findById`: the position of the document with id `id`, if any. */
  function IndexOf<T>(xs: seq<T>, key: T -> string, id: string): (r: Option<nat>)
    ensures r.Some? ==> r.value < |xs| && key(xs[r.value]) == id
    ensures r.None? <==> !HasKey(xs, key, id)
    decreases |xs|
  {
    if xs == [] then None
    else if key(xs[0]) == id then Some(0)
    else
      match IndexOf(xs[1..], key, id)
      case None =>
        assert forall i :: 0 < i < |xs| ==> xs[i] == xs[1..][i - 1];
        None
      case Some(k) => Some(k + 1)
  }

  /** In a collection with unique ids, the document found is the only one with that id. */
  lemma IndexOfUnique<T>(xs: seq<T>, key: T -> string, id: string, i: nat)
    requires UniqueKeys(xs, key)
    requires i < |xs| && key(xs[i]) == id
    ensures IndexOf(xs, key, id) == Some(i)
  {
  }

  function KeyIsNot<T>(key: T -> string, id: string): T -> bool
  {
    x => key(x) != id
  }

  /** The collection after deleting the document with id `id`. */
  function Without<T(!new)>(xs: seq<T>, key: T -> string, id: string): (r: seq<T>)
    ensures forall x :: x in r <==> x in xs && key(x) != id
  {
    Filter(xs, KeyIsNot(key, id))
  }

  /** Every subsequence that `Filter` keeps of a collection with unique ids has unique ids. */
  lemma {:induction false} FilterUnique<T(!new)>(xs: seq<T>, key: T -> string, p: T -> bool)
    requires UniqueKeys(xs, key)
    ensures UniqueKeys(Filter(xs, p), key)
    decreases |xs|
  {
    if xs != [] {
      var n := |xs| - 1;
      var front := xs[..n];
      assert UniqueKeys(front, key) by {
        forall i, j | 0 <= i < |front| && 0 <= j < |front| && key(front[i]) == key(front[j])
          ensures i == j
        {
          assert front[i] == xs[i] && front[j] == xs[j];
        }
      }
      FilterUnique(front, key, p);
      var f := Filter(front, p);
      if p(xs[n]) {
        var r := f + [xs[n]];
        forall i | 0 <= i < |f| ensures key(f[i]) != key(xs[n]) {
          assert f[i] in front;
          var k :| 0 <= k < |front| && front[k] == f[i];
          assert xs[k] == f[i];
        }
        assert forall k :: 0 <= k < |f| ==> r[k] == f[k];
        assert r[|f|] == xs[n];
      }
    }
  }

  /** Deleting an id that is present removes exactly one document. */
  lemma WithoutRemovesOne<T(!new)>(xs: seq<T>, key: T -> string, i: nat)
    requires UniqueKeys(xs, key)
    requires i < |xs|
    ensures Without(xs, key, key(xs[i])) == xs[..i] + xs[i + 1..]
  {
    WithoutOnlyAt(xs, key, i);
  }

  lemma WithoutOnlyAt<T(!new)>(xs: seq<T>, key: T -> string, i: nat)
    requires i < |xs|
    requires forall k :: 0 <= k < |xs| && k != i ==> key(xs[k]) != key(xs[i])
    ensures Filter(xs, KeyIsNot(key, key(xs[i]))) == xs[..i] + xs[i + 1..]
  {
    var p := KeyIsNot(key, key(xs[i]));
    OthersPass(xs, key, i);
    FilterDropsOne(xs[..i], xs[i], xs[i + 1..], p);
    Around(xs, i);
  }

  /** The elements before and after position `i` all pass the filter that drops `xs[i]`'s key. */
  lemma OthersPass<T(!new)>(xs: seq<T>, key: T -> string, i: nat)
    requires i < |xs|
    requires forall k :: 0 <= k < |xs| && k != i ==> key(xs[k]) != key(xs[i])
    ensures Filter(xs[..i], KeyIsNot(key, key(xs[i]))) == xs[..i]
    ensures Filter(xs[i + 1..], KeyIsNot(key, key(xs[i]))) == xs[i + 1..]
  {
    var p := KeyIsNot(key, key(xs[i]));
    var front, back := xs[..i], xs[i + 1..];
    assert forall k :: 0 <= k < |front| ==> p(front[k]) by {
      forall k | 0 <= k < |front| ensures p(front[k]) {
        assert front[k] == xs[k];
      }
    }
    assert forall k :: 0 <= k < |back| ==> p(back[k]) by {
      forall k | 0 <= k < |back| ensures p(back[k]) {
        assert back[k] == xs[i + 1 + k];
      }
    }
    FilterEvery(front, p);
    FilterEvery(back, p);
  }

  lemma Around<T>(xs: seq<T>, i: nat)
    requires i < |xs|
    ensures xs[..i] + [xs[i]] + xs[i + 1..] == xs
  {
  }

  /** Filtering around one rejected element that everything else passes removes just it. */
  lemma FilterDropsOne<T(!new)>(front: seq<T>, x: T, back: seq<T>, p: T -> bool)
    requires Filter(front, p) == front && Filter(back, p) == back && !p(x)
    ensures Filter(front + [x] + back, p) == front + back
  {
    assert Filter([x], p) == [] by {
      assert [x][..0] == [];
    }
    FilterAppend(front + [x], back, p);
    FilterAppend(front, [x], p);
    assert Filter(front + [x], p) == front;
  }
}
