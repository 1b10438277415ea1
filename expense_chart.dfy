/**
 * The expense-trends bar chart: one object per month for the last six
 * months, `{ name: <month label>, ...<category totals> }`, and the union of
 * the category keys across those objects.
 *
 * A JS object is a list of fields in key-insertion order; assigning to an
 * existing key overwrites it in place. The month label is kept as the
 * month number `format(monthDate, 'MMM')` prints.
 */
module ExpenseChart {
  import opened Js
  import opened Calendar
  import opened Folds
  import opened Records
  import opened Grouping

  datatype Value = MonthName(month: int) | Amount(value: real)

  datatype Field = Field(key: string, val: Value)

  function FieldKeys(o: seq<Field>): (ks: seq<string>)
    ensures |ks| == |o|
    ensures forall i :: 0 <= i < |o| ==> ks[i] == o[i].key
  {
    seq(|o|, i requires 0 <= i < |o| => o[i].key)
  }

  /** `o[k]`: the value under `k`, `None` for `undefined`. */
  function Lookup(o: seq<Field>, k: string): (r: Option<Value>)
    ensures r.None? <==> k !in FieldKeys(o)
    decreases |o|
  {
    if o == [] then None
    else if o[0].key == k then Some(o[0].val)
    else
      assert FieldKeys(o) == [o[0].key] + FieldKeys(o[1..]);
      Lookup(o[1..], k)
  }

  /** `o[k] = v`: an existing key keeps its place, a new key goes last. */
  function Assign(o: seq<Field>, k: string, v: Value): (r: seq<Field>)
    decreases |o|
  {
    if o == [] then [Field(k, v)]
    else if o[0].key == k then [Field(k, v)] + o[1..]
    else [o[0]] + Assign(o[1..], k, v)
  }

  /** `{ ...o, ...g }`: the entries of `g` assigned onto `o` in order. */
  function Spread(o: seq<Field>, g: seq<Entry>): seq<Field>
    decreases |g|
  {
    if g == [] then o
    else
      var n := |g| - 1;
      Assign(Spread(o, g[..n]), g[n].key, Amount(g[n].value))
  }

  lemma {:induction false} AssignLookup(o: seq<Field>, k: string, v: Value, j: string)
    ensures Lookup(Assign(o, k, v), j) == if j == k then Some(v) else Lookup(o, j)
    decreases |o|
  {
    if o != [] && o[0].key != k {
      AssignLookup(o[1..], k, v, j);
      assert Assign(o, k, v)[1..] == Assign(o[1..], k, v);
    } else if o != [] {
      assert Assign(o, k, v)[1..] == o[1..];
    }
  }

  lemma {:induction false} AssignKeepsFirst(o: seq<Field>, k: string, v: Value)
    requires o != []
    ensures Assign(o, k, v) != [] && Assign(o, k, v)[0].key == o[0].key
  {
  }

  /**
   * After the spread, each key of `g` holds its entry's amount and every
   * other key holds what it held before.
   */
  lemma {:induction false} SpreadLookup(o: seq<Field>, g: seq<Entry>, j: string)
    requires DistinctKeys(g)
    ensures forall i :: 0 <= i < |g| && g[i].key == j ==> Lookup(Spread(o, g), j) == Some(Amount(g[i].value))
    ensures j !in Keys(g) ==> Lookup(Spread(o, g), j) == Lookup(o, j)
    decreases |g|
  {
    if g != [] {
      var n := |g| - 1;
      var front := g[..n];
      assert DistinctKeys(front);
      SpreadLookup(o, front, j);
      AssignLookup(Spread(o, front), g[n].key, Amount(g[n].value), j);
      forall i | 0 <= i < |g| && g[i].key == j ensures Lookup(Spread(o, g), j) == Some(Amount(g[i].value)) {
        if i < n {
          assert front[i] == g[i];
        }
      }
      if j !in Keys(g) {
        assert Keys(front) == Keys(g)[..n];
      }
    }
  }

  lemma {:induction false} SpreadKeepsFirst(o: seq<Field>, g: seq<Entry>)
    requires o != []
    ensures Spread(o, g) != [] && Spread(o, g)[0].key == o[0].key
    decreases |g|
  {
    if g != [] {
      var n := |g| - 1;
      SpreadKeepsFirst(o, g[..n]);
      AssignKeepsFirst(Spread(o, g[..n]), g[n].key, Amount(g[n].value));
    }
  }

  // ---------------------------------------------------------------------
  // One month's bar
  // ---------------------------------------------------------------------

  /** The expenses of the month with running index `k`. */
  function ExpensesInMonth(expenses: seq<Expense>, k: int): seq<Expense>
  {
    var (y, m) := MonthOfIndex(k);
    Filter(expenses, InWholeMonth(y, m))
  }

  /** `{ name: format(monthDate, 'MMM'), ...categorizedExpenses }` for month index `k`. */
  function MonthBar(expenses: seq<Expense>, k: int): seq<Field>
  {
    var month := ExpensesInMonth(expenses, k);
    Spread([Field("name", MonthName(MonthOfIndex(k).1))], GroupBy(month, ExpenseCategory, ExpenseAmount))
  }

  /**
   * A month's bar has `name` as its first key; each category that occurs in
   * the month maps to the month's total in it and no other key is set; a
   * category called "name" replaces the month label.
   */
  lemma MonthBarSpec(expenses: seq<Expense>, k: int, c: string)
    ensures var bar := MonthBar(expenses, k);
            var month := ExpensesInMonth(expenses, k);
            bar[0].key == "name"
            && (c in CategoriesOf(month) ==> Lookup(bar, c) == Some(Amount(Sum(Filter(month, KeyIs(ExpenseCategory, c)), ExpenseAmount))))
            && (c !in CategoriesOf(month) && c != "name" ==> Lookup(bar, c).None?)
            && (c !in CategoriesOf(month) && c == "name" ==> Lookup(bar, c) == Some(MonthName(MonthOfIndex(k).1)))
  {
    var month := ExpensesInMonth(expenses, k);
    var g := GroupBy(month, ExpenseCategory, ExpenseAmount);
    var o := [Field("name", MonthName(MonthOfIndex(k).1))];
    GroupBySpec(month, ExpenseCategory, ExpenseAmount);
    SpreadKeepsFirst(o, g);
    SpreadLookup(o, g, c);
    if c in CategoriesOf(month) {
      var e :| e in month && e.category == c;
      assert c in Keys(g);
      var i :| 0 <= i < |g| && Keys(g)[i] == c;
    } else {
      assert c !in Keys(g);
    }
  }

  /** A month without expenses has only its name. */
  lemma EmptyMonthBar(expenses: seq<Expense>, k: int)
    requires ExpensesInMonth(expenses, k) == []
    ensures MonthBar(expenses, k) == [Field("name", MonthName(MonthOfIndex(k).1))]
  {
  }

  // ---------------------------------------------------------------------
  // The six bars
  // ---------------------------------------------------------------------

  /** The month index of bar `i` of the chart drawn at `now`. */
  function BarMonth(now: Instant, i: int): int
  {
    MonthIndex(now.date.year, now.date.month) - 5 + i
  }

  /**
   * The loop `for (i = 5; i >= 0; i--)` over `subMonths(now, i)`: nothing
   * without expenses, else six bars, oldest first, ending at `now`'s month.
   */
  method ChartData(expenses: seq<Expense>, now: Instant) returns (bars: seq<seq<Field>>)
    ensures expenses == [] ==> bars == []
    ensures expenses != [] ==> |bars| == 6
    ensures expenses != [] ==> forall i :: 0 <= i < 6 ==> bars[i] == MonthBar(expenses, BarMonth(now, i))
  {
    if expenses == [] {
      return [];
    }
    bars := [];
    var i: int := 5;
    while i >= 0
      invariant -1 <= i <= 5
      invariant |bars| == 5 - i
      invariant forall j :: 0 <= j < |bars| ==> bars[j] == MonthBar(expenses, BarMonth(now, j))
    {
      var monthDate := MonthOfIndex(BarMonth(now, 5 - i));
      var monthExpenses := Filter(expenses, InWholeMonth(monthDate.0, monthDate.1));
      var categorized := GroupBy(monthExpenses, ExpenseCategory, ExpenseAmount);
      var bar := Spread([Field("name", MonthName(monthDate.1))], categorized);
      assert bar == MonthBar(expenses, BarMonth(now, |bars|));
      bars := bars + [bar];
      i := i - 1;
    }
  }

  /**
   * The six months are consecutive calendar months, across year
   * boundaries, and the last is the current one.
   */
  lemma ChartMonths(now: Instant)
    requires 0 <= now.date.month < 12
    ensures MonthOfIndex(BarMonth(now, 5)) == (now.date.year, now.date.month)
    ensures forall i :: 0 <= i < 5 ==>
              NextMonth(MonthOfIndex(BarMonth(now, i)).0, MonthOfIndex(BarMonth(now, i)).1) == MonthOfIndex(BarMonth(now, i + 1))
  {
    MonthOfIndexInverse(now.date.year, now.date.month);
    forall i | 0 <= i < 5
      ensures NextMonth(MonthOfIndex(BarMonth(now, i)).0, MonthOfIndex(BarMonth(now, i)).1) == MonthOfIndex(BarMonth(now, i + 1))
    {
      NextMonthOfIndex(BarMonth(now, i));
    }
  }

  // ---------------------------------------------------------------------
  // The bar categories
  // ---------------------------------------------------------------------

  /** The keys other than "name" found in the bars `bars[..n]`. */
  ghost function KeysSoFar(bars: seq<seq<Field>>, n: int): set<string>
    requires 0 <= n <= |bars|
  {
    set i, c | 0 <= i < n && c in FieldKeys(bars[i]) && c != "name" :: c
  }

  /**
   * `forEach` over the bars and their keys, adding every key but "name" to
   * a `Set`; the result lists each such key once. The order the `Set`
   * keeps is not stated.
   */
  method Categories(bars: seq<seq<Field>>) returns (cats: seq<string>)
    ensures forall i, j :: 0 <= i < j < |cats| ==> cats[i] != cats[j]
    ensures forall c :: c in cats <==> c != "name" && exists i :: 0 <= i < |bars| && c in FieldKeys(bars[i])
  {
    cats := [];
    var i := 0;
    while i < |bars|
      invariant 0 <= i <= |bars|
      invariant forall p, q :: 0 <= p < q < |cats| ==> cats[p] != cats[q]
      invariant forall c :: c in cats <==> c in KeysSoFar(bars, i)
    {
      var keys := FieldKeys(bars[i]);
      var j := 0;
      while j < |keys|
        invariant 0 <= j <= |keys|
        invariant forall p, q :: 0 <= p < q < |cats| ==> cats[p] != cats[q]
        invariant forall c :: c in cats <==> c in KeysSoFar(bars, i) || (c in keys[..j] && c != "name")
      {
        if keys[j] != "name" && keys[j] !in cats {
          cats := cats + [keys[j]];
        }
        assert keys[..j + 1] == keys[..j] + [keys[j]];
        j := j + 1;
      }
      assert keys[..j] == keys;
      assert KeysSoFar(bars, i + 1) == KeysSoFar(bars, i) + (set c | c in keys && c != "name");
      i := i + 1;
    }
    forall c ensures c in KeysSoFar(bars, |bars|) <==> c != "name" && exists i :: 0 <= i < |bars| && c in FieldKeys(bars[i]) {
    }
  }
}
