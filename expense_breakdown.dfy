/**
 * The expense-breakdown pie chart: this month's expenses grouped by
 * category, each slice coloured by its position in the grouping, then
 * sorted by value, largest first.
 */
module ExpenseBreakdown {
  import opened Calendar
  import opened Folds
  import opened Sorting
  import opened Records
  import opened Grouping

  /** The palette; it repeats its first two colours at positions 6 and 7. */
  const Colors: seq<string> := ["#8b5cf6", "#10b981", "#f59e0b", "#ef4444", "#3b82f6", "#6b7280", "#8b5cf6", "#10b981"]

  datatype Slice = Slice(name: string, value: real, color: string)

  function SliceValue(s: Slice): real { s.value }

  /** This month's expenses: `startOfMonth(now) <= date <= endOfMonth(now)`. */
  function MonthOf(expenses: seq<Expense>, now: Instant): seq<Expense>
  {
    Filter(expenses, InWholeMonth(now.date.year, now.date.month))
  }

  /** `Object.entries(...).map(([name, value], index) => ...)`: colours follow the grouping's order. */
  function Colored(g: seq<Entry>): (r: seq<Slice>)
    ensures |r| == |g|
    ensures forall i :: 0 <= i < |g| ==> r[i] == Slice(g[i].key, g[i].value, Colors[i % |Colors|])
  {
    seq(|g|, i requires 0 <= i < |g| => Slice(g[i].key, g[i].value, Colors[i % |Colors|]))
  }

  /** The chart data: empty without expenses, else the coloured grouping sorted by value. */
  function ChartData(expenses: seq<Expense>, now: Instant): (r: seq<Slice>)
    ensures expenses == [] ==> r == []
    ensures |r| <= |expenses|
  {
    if expenses == [] then []
    else
      var month := MonthOf(expenses, now);
      var g := GroupBy(month, ExpenseCategory, ExpenseAmount);
      GroupBySpec(month, ExpenseCategory, ExpenseAmount);
      GroupByKeys(month, ExpenseCategory, ExpenseAmount);
      DistinctAtMost(KeysOf(month, ExpenseCategory));
      SortDesc(Colored(g), SliceValue)
  }

  // ---------------------------------------------------------------------
  // Helpers on sums and keys
  // ---------------------------------------------------------------------

  lemma {:induction false} SumInsertDesc<T>(s: seq<T>, x: T, key: T -> real, f: T -> real)
    ensures Sum(InsertDesc(s, x, key), f) == Sum(s, f) + f(x)
    decreases |s|
  {
    var one := [x];
    assert Sum(one, f) == f(x) by { assert one[..0] == []; }
    if s == [] {
    } else if key(s[0]) >= key(x) {
      var head := [s[0]];
      SumInsertDesc(s[1..], x, key, f);
      SumAppend(head, InsertDesc(s[1..], x, key), f);
      assert s == head + s[1..];
      SumAppend(head, s[1..], f);
    } else {
      SumAppend(one, s, f);
    }
  }

  lemma {:induction false} SumSortDesc<T>(xs: seq<T>, key: T -> real, f: T -> real)
    ensures Sum(SortDesc(xs, key), f) == Sum(xs, f)
    decreases |xs|
  {
    if xs != [] {
      var n := |xs| - 1;
      SumSortDesc(xs[..n], key, f);
      SumInsertDesc(SortDesc(xs[..n], key), xs[n], key, f);
    }
  }

  lemma {:induction false} SumColored(g: seq<Entry>)
    ensures Sum(Colored(g), SliceValue) == Sum(g, EntryValue)
    decreases |g|
  {
    if g != [] {
      var n := |g| - 1;
      SumColored(g[..n]);
      assert Colored(g)[..n] == Colored(g[..n]);
    }
  }

  /** A list of distinct strings drawn from `ks` is no longer than `ks`. */
  lemma DistinctAtMost(ks: seq<string>)
    ensures |FirstAppearances(ks)| <= |ks|
  {
    FirstAppearancesSpec(ks);
    var d := FirstAppearances(ks);
    assert |d| == |set k | k in d| by { DistinctCard(d); }
    assert (set k | k in d) <= (set k | k in ks);
    CardAtMost(ks);
  }

  lemma {:induction false} DistinctCard(d: seq<string>)
    requires forall i, j :: 0 <= i < j < |d| ==> d[i] != d[j]
    ensures |set k | k in d| == |d|
    decreases |d|
  {
    if d != [] {
      var n := |d| - 1;
      DistinctCard(d[..n]);
      assert (set k | k in d) == (set k | k in d[..n]) + {d[n]};
      assert d[n] !in d[..n];
    }
  }

  lemma {:induction false} CardAtMost(ks: seq<string>)
    ensures |set k | k in ks| <= |ks|
    decreases |ks|
  {
    if ks != [] {
      var n := |ks| - 1;
      CardAtMost(ks[..n]);
      assert (set k | k in ks) == (set k | k in ks[..n]) + {ks[n]};
    }
  }

  // ---------------------------------------------------------------------
  // What the chart shows
  // ---------------------------------------------------------------------

  function Names(r: seq<Slice>): set<string>
  {
    set s | s in r :: s.name
  }

  predicate DistinctNames(r: seq<Slice>)
  {
    forall i, j :: 0 <= i < |r| && 0 <= j < |r| && r[i].name == r[j].name ==> i == j
  }

  lemma CountAtLeastTwo<T>(s: seq<T>, i: int, j: int)
    requires 0 <= i < j < |s| && s[i] == s[j]
    ensures multiset(s)[s[i]] >= 2
  {
    assert s == s[..j] + s[j..];
    assert s[i] in s[..j];
    assert s[j] in s[j..];
  }

  lemma {:induction false} CountAtMostOne(r: seq<Slice>, x: Slice)
    requires DistinctNames(r)
    ensures multiset(r)[x] <= 1
    decreases |r|
  {
    if r != [] {
      var n := |r| - 1;
      assert r == r[..n] + [r[n]];
      assert DistinctNames(r[..n]);
      CountAtMostOne(r[..n], x);
      if x == r[n] {
        assert x !in r[..n];
      }
    }
  }

  /** Reordering slices with distinct names keeps their names distinct. */
  lemma PermutedDistinct(c: seq<Slice>, r: seq<Slice>)
    requires DistinctNames(c) && multiset(r) == multiset(c)
    ensures DistinctNames(r)
  {
    forall i, j | 0 <= i < |r| && 0 <= j < |r| && r[i].name == r[j].name ensures i == j {
      assert r[i] in multiset(c) && r[j] in multiset(c);
      var a :| 0 <= a < |c| && c[a] == r[i];
      var b :| 0 <= b < |c| && c[b] == r[j];
      if i != j {
        if i < j { CountAtLeastTwo(r, i, j); } else { CountAtLeastTwo(r, j, i); }
        CountAtMostOne(c, r[i]);
        assert false;
      }
    }
  }

  /** The chart's slices are those of the coloured grouping, reordered. */
  lemma ChartSlices(expenses: seq<Expense>, now: Instant)
    requires expenses != []
    ensures var month := MonthOf(expenses, now);
            var c := Colored(GroupBy(month, ExpenseCategory, ExpenseAmount));
            ChartData(expenses, now) == SortDesc(c, SliceValue)
            && (forall s :: s in ChartData(expenses, now) <==> s in c)
            && DistinctNames(c)
  {
    var month := MonthOf(expenses, now);
    var g := GroupBy(month, ExpenseCategory, ExpenseAmount);
    var c := Colored(g);
    var r := ChartData(expenses, now);
    GroupBySpec(month, ExpenseCategory, ExpenseAmount);
    forall s: Slice ensures s in r <==> s in c {
      assert s in r <==> s in multiset(r);
      assert s in c <==> s in multiset(c);
    }
  }

  /** The slices are largest first, one per name. */
  lemma ChartDataOrdered(expenses: seq<Expense>, now: Instant)
    requires expenses != []
    ensures SortedDesc(ChartData(expenses, now), SliceValue)
    ensures DistinctNames(ChartData(expenses, now))
  {
    var month := MonthOf(expenses, now);
    var c := Colored(GroupBy(month, ExpenseCategory, ExpenseAmount));
    ChartSlices(expenses, now);
    SortDescSorted(c, SliceValue);
    PermutedDistinct(c, ChartData(expenses, now));
  }

  /** There is a slice for exactly the categories present this month. */
  lemma ChartDataNames(expenses: seq<Expense>, now: Instant)
    requires expenses != []
    ensures Names(ChartData(expenses, now)) == CategoriesOf(MonthOf(expenses, now))
  {
    var month := MonthOf(expenses, now);
    var g := GroupBy(month, ExpenseCategory, ExpenseAmount);
    var c := Colored(g);
    var r := ChartData(expenses, now);
    ChartSlices(expenses, now);
    GroupBySpec(month, ExpenseCategory, ExpenseAmount);
    NamesColored(g);
    forall k ensures k in Names(r) <==> k in CategoriesOf(month) {
      SameNames(r, c, k);
      assert k in Keys(g) <==> exists x :: x in month && ExpenseCategory(x) == k;
    }
  }

  /** The coloured slices are named by the grouping's keys. */
  lemma NamesColored(g: seq<Entry>)
    ensures forall k :: k in Names(Colored(g)) <==> k in Keys(g)
  {
    var c := Colored(g);
    forall k | k in Names(c) ensures k in Keys(g) {
      var s :| s in c && s.name == k;
      var a :| 0 <= a < |c| && c[a] == s;
      assert Keys(g)[a] == k;
    }
    forall k | k in Keys(g) ensures k in Names(c) {
      var a :| 0 <= a < |g| && Keys(g)[a] == k;
      assert c[a] in c;
    }
  }

  /** Slice lists with the same members carry the same names. */
  lemma SameNames(r: seq<Slice>, c: seq<Slice>, k: string)
    requires forall s :: s in r <==> s in c
    ensures k in Names(r) <==> k in Names(c)
  {
    if k in Names(r) {
      var s :| s in r && s.name == k;
      assert s in c;
    }
    if k in Names(c) {
      var s :| s in c && s.name == k;
      assert s in r;
    }
  }

  /** The slices add up to the month total. */
  lemma ChartDataTotal(expenses: seq<Expense>, now: Instant)
    requires expenses != []
    ensures Sum(ChartData(expenses, now), SliceValue) == Sum(MonthOf(expenses, now), ExpenseAmount)
  {
    var month := MonthOf(expenses, now);
    var g := GroupBy(month, ExpenseCategory, ExpenseAmount);
    var c := Colored(g);
    ChartSlices(expenses, now);
    GroupBySpec(month, ExpenseCategory, ExpenseAmount);
    SumSortDesc(c, SliceValue, SliceValue);
    SumColored(g);
  }

  /** Each slice holds the total of this month's expenses in its category. */
  lemma ChartDataValues(expenses: seq<Expense>, now: Instant)
    requires expenses != []
    ensures var month := MonthOf(expenses, now);
            forall s :: s in ChartData(expenses, now) ==>
              s.value == Sum(Filter(month, KeyIs(ExpenseCategory, s.name)), ExpenseAmount)
  {
    var month := MonthOf(expenses, now);
    var g := GroupBy(month, ExpenseCategory, ExpenseAmount);
    var c := Colored(g);
    ChartSlices(expenses, now);
    GroupBySpec(month, ExpenseCategory, ExpenseAmount);
    forall s | s in ChartData(expenses, now) ensures s.value == Sum(Filter(month, KeyIs(ExpenseCategory, s.name)), ExpenseAmount) {
      var a :| 0 <= a < |c| && c[a] == s;
    }
  }

  /**
   * Colours are fixed before sorting: a slice's colour is the palette entry
   * at its category's first-appearance position this month, modulo 8.
   */
  lemma ColorByFirstAppearance(expenses: seq<Expense>, now: Instant)
    requires expenses != []
    ensures var r := ChartData(expenses, now);
            var order := FirstAppearances(KeysOf(MonthOf(expenses, now), ExpenseCategory));
            forall s :: s in r ==> exists i :: 0 <= i < |order| && order[i] == s.name && s.color == Colors[i % 8]
  {
    var month := MonthOf(expenses, now);
    var g := GroupBy(month, ExpenseCategory, ExpenseAmount);
    var c := Colored(g);
    var r := ChartData(expenses, now);
    GroupByKeys(month, ExpenseCategory, ExpenseAmount);
    var order := FirstAppearances(KeysOf(month, ExpenseCategory));
    forall s | s in r ensures exists i :: 0 <= i < |order| && order[i] == s.name && s.color == Colors[i % 8] {
      assert s in multiset(r);
      assert s in multiset(c);
      var a :| 0 <= a < |c| && c[a] == s;
      assert order[a] == Keys(g)[a] == s.name;
    }
  }

  /** The palette repeats: the first and seventh categories share a colour. */
  lemma PaletteRepeats()
    ensures Colors[0 % 8] == Colors[6 % 8] && Colors[1 % 8] == Colors[7 % 8]
  {
  }
}
