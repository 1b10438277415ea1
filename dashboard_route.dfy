/**
 * The dashboard routes: `/summary` (current-month totals, budget and
 * savings totals, category breakdown, a six-month trend, the ten newest
 * expenses, counts) and `/trends` (a six- or twelve-month series with a
 * per-category breakdown of each month).
 *
 * A month label (`toLocaleString('default', { month: 'short' })`) is kept
 * as the month number it is printed from.
 */
module DashboardRoute {
  import opened Js
  import opened Calendar
  import opened Folds
  import opened Sorting
  import opened Records
  import opened Grouping
  import opened Percent

  // ---------------------------------------------------------------------
  // Month windows
  // ---------------------------------------------------------------------

  /**
   * `date >= new Date(y, m, 1) && date <= new Date(y, m + 1, 0)`: from
   * midnight on the first to midnight on the last day of the month.
   */
  function InMonthWindow(y: int, m: int): Expense -> bool
  {
    (e: Expense) => InTicks(e.date, Midnight(y, m, 1), Midnight(y, m, DaysInMonth(y, m)))
  }

  function MonthExpenses(expenses: seq<Expense>, y: int, m: int): seq<Expense>
  {
    Filter(expenses, InMonthWindow(y, m))
  }

  /**
   * An expense is in a month's window exactly when it falls in that month,
   * and not after midnight on its last day: the rest of that day is left out.
   */
  lemma MonthWindowExcludesLastDay(e: Expense, y: int, m: int)
    requires ValidInstant(e.date) && 0 <= m < 12
    ensures InMonthWindow(y, m)(e)
            <==> e.date.date.year == y && e.date.date.month == m
                 && (e.date.date.day < DaysInMonth(y, m) || e.date.msOfDay == 0)
  {
    MidnightMonthWindow(e.date, y, m);
  }

  // ---------------------------------------------------------------------
  // `/summary`
  // ---------------------------------------------------------------------

  datatype Totals = Totals(
    monthlyExpenses: real,
    totalBudget: real,
    totalSpent: real,
    budgetUsagePercentage: real,
    totalSavingsTarget: real,
    totalSavingsCurrent: real,
    savingsProgressPercentage: real)

  datatype Counts = Counts(expenseCount: nat, budgetCount: nat, savingsGoalCount: nat, totalTransactions: nat)

  datatype TrendPoint = TrendPoint(month: int, year: int, expenses: real)

  datatype Summary = Summary(
    totals: Totals,
    counts: Counts,
    expenseByCategory: seq<Entry>,
    monthlyTrends: seq<TrendPoint>,
    recentTransactions: seq<Expense>)

  /** The trend point of the month with month index `k`. */
  function TrendPointAt(expenses: seq<Expense>, k: int): TrendPoint
  {
    var ym := MonthOfIndex(k);
    TrendPoint(ym.1, ym.0, Sum(MonthExpenses(expenses, ym.0, ym.1), ExpenseAmount))
  }

  /** Six points, oldest first: point `k` is the month `5 - k` months before now, with its total. */
  predicate SixMonthTrend(trends: seq<TrendPoint>, expenses: seq<Expense>, now: Instant)
  {
    |trends| == 6
    && forall k :: 0 <= k < 6 ==>
         trends[k] == TrendPointAt(expenses, MonthIndex(now.date.year, now.date.month) - 5 + k)
  }

  /**
   * The trend loop: for `i` from 5 down to 0, the month `i` months before
   * now, normalised as `new Date(y, m - i, 1)` normalises it.
   */
  method SummaryTrends(expenses: seq<Expense>, now: Instant) returns (trends: seq<TrendPoint>)
    ensures SixMonthTrend(trends, expenses, now)
  {
    var current := MonthIndex(now.date.year, now.date.month);
    trends := [];
    var i := 5;
    while i >= 0
      invariant -1 <= i <= 5
      invariant |trends| == 5 - i
      invariant forall k :: 0 <= k < |trends| ==> trends[k] == TrendPointAt(expenses, current - 5 + k)
    {
      var monthDate := MonthOfIndex(current - i);
      var monthExpenses := MonthExpenses(expenses, monthDate.0, monthDate.1);
      var totalExpenses := Sum(monthExpenses, ExpenseAmount);
      var point := TrendPoint(monthDate.1, monthDate.0, totalExpenses);
      ghost var k := current - i;
      assert point == TrendPointAt(expenses, k);
      assert k == current - 5 + |trends|;
      trends := trends + [point];
      i := i - 1;
    }
  }

  /**
   * The six trend points are consecutive calendar months, across year ends
   * too, ending with the current month.
   */
  lemma SummaryTrendMonths(expenses: seq<Expense>, now: Instant)
    requires 0 <= now.date.month < 12
    ensures var last := TrendPointAt(expenses, MonthIndex(now.date.year, now.date.month));
            last.year == now.date.year && last.month == now.date.month
    ensures forall j :: var p, q := TrendPointAt(expenses, j), TrendPointAt(expenses, j + 1);
                        NextMonth(p.year, p.month) == (q.year, q.month)
  {
    MonthOfIndexInverse(now.date.year, now.date.month);
    forall j
      ensures var p, q := TrendPointAt(expenses, j), TrendPointAt(expenses, j + 1);
              NextMonth(p.year, p.month) == (q.year, q.month)
    {
      NextMonthOfIndex(j);
    }
  }

  /** Each point is the calendar month after the one before it. */
  predicate ConsecutiveMonths(trends: seq<TrendPoint>)
  {
    forall k :: 0 <= k < |trends| - 1 ==>
      NextMonth(trends[k].year, trends[k].month) == (trends[k + 1].year, trends[k + 1].month)
  }

  /** A six-month trend ends with the current month and steps one calendar month at a time. */
  lemma SixMonthTrendMonths(trends: seq<TrendPoint>, expenses: seq<Expense>, now: Instant)
    requires 0 <= now.date.month < 12
    requires SixMonthTrend(trends, expenses, now)
    ensures trends[5].year == now.date.year && trends[5].month == now.date.month
    ensures ConsecutiveMonths(trends)
  {
    var current := MonthIndex(now.date.year, now.date.month);
    SummaryTrendMonths(expenses, now);
    assert trends[5] == TrendPointAt(expenses, current);
    forall k | 0 <= k < 5
      ensures NextMonth(trends[k].year, trends[k].month) == (trends[k + 1].year, trends[k + 1].month)
    {
      assert trends[k] == TrendPointAt(expenses, current - 5 + k);
      assert trends[k + 1] == TrendPointAt(expenses, (current - 5 + k) + 1);
    }
  }

  /** GET `/summary`. */
  method GetSummary(requested: Option<string>, expenseDocs: seq<Expense>, budgetDocs: seq<Budget>,
                    goalDocs: seq<SavingsGoal>, now: Instant)
    returns (s: Summary)
    ensures var user := OwnerOr(requested);
            var expenses := SortDesc(Filter(expenseDocs, ExpenseOwnedBy(user)), ExpenseTime);
            var budgets := Filter(budgetDocs, BudgetOwnedBy(user));
            var goals := Filter(goalDocs, GoalOwnedBy(user));
            var inMonth := MonthExpenses(expenses, now.date.year, now.date.month);
            s.totals.monthlyExpenses == Sum(inMonth, ExpenseAmount)
            && s.counts.expenseCount == |inMonth|
            && s.totals.totalBudget == Sum(budgets, BudgetAmount)
            && s.totals.totalSpent == Sum(budgets, BudgetSpent)
            && s.totals.budgetUsagePercentage == GuardedPercentage(s.totals.totalSpent, s.totals.totalBudget)
            && s.totals.totalSavingsTarget == Sum(goals, GoalTarget)
            && s.totals.totalSavingsCurrent == Sum(goals, GoalCurrent)
            && s.totals.savingsProgressPercentage == GuardedPercentage(s.totals.totalSavingsCurrent, s.totals.totalSavingsTarget)
            && s.counts.budgetCount == |budgets| && s.counts.savingsGoalCount == |goals|
            && s.counts.totalTransactions == |expenses|
            && s.expenseByCategory == GroupBy(inMonth, ExpenseCategory, ExpenseAmount)
            && Sum(s.expenseByCategory, EntryValue) == s.totals.monthlyExpenses
            && |s.monthlyTrends| == 6 && SixMonthTrend(s.monthlyTrends, expenses, now)
            && s.monthlyTrends[5].year == now.date.year && s.monthlyTrends[5].month == now.date.month
            && ConsecutiveMonths(s.monthlyTrends)
            && s.recentTransactions == Take(expenses, 10)
            && SortedDesc(s.recentTransactions, ExpenseTime)
    requires 0 <= now.date.month < 12
  {
    var user := OwnerOr(requested);
    var expenses := SortDesc(Filter(expenseDocs, ExpenseOwnedBy(user)), ExpenseTime);
    var budgets := Filter(budgetDocs, BudgetOwnedBy(user));
    var goals := Filter(goalDocs, GoalOwnedBy(user));
    var y, m := now.date.year, now.date.month;

    var currentMonthExpenses := Filter(expenses, InMonthWindow(y, m));
    var monthlyTotal := Sum(currentMonthExpenses, ExpenseAmount);
    var totalBudget := Sum(budgets, BudgetAmount);
    var totalSpent := Sum(budgets, BudgetSpent);
    var totalSavingsTarget := Sum(goals, GoalTarget);
    var totalSavingsCurrent := Sum(goals, GoalCurrent);
    var expenseByCategory := GroupBy(currentMonthExpenses, ExpenseCategory, ExpenseAmount);
    GroupByTotal(currentMonthExpenses, ExpenseCategory, ExpenseAmount);

    var monthlyTrends := SummaryTrends(expenses, now);
    SixMonthTrendMonths(monthlyTrends, expenses, now);

    var recent := Take(expenses, 10);
    SortDescSorted(Filter(expenseDocs, ExpenseOwnedBy(user)), ExpenseTime);
    assert SortedDesc(recent, ExpenseTime) by {
      assert recent == expenses[..|recent|];
    }

    s := Summary(
      Totals(monthlyTotal, totalBudget, totalSpent, GuardedPercentage(totalSpent, totalBudget),
             totalSavingsTarget, totalSavingsCurrent, GuardedPercentage(totalSavingsCurrent, totalSavingsTarget)),
      Counts(|currentMonthExpenses|, |budgets|, |goals|, |expenses|),
      expenseByCategory,
      monthlyTrends,
      recent);
  }

  // ---------------------------------------------------------------------
  // `/trends`
  // ---------------------------------------------------------------------

  datatype MonthTrend = MonthTrend(month: int, year: int, total: real, categories: seq<Entry>, transactionCount: nat)

  /** `req.query.period || '6months'`: twelve months only for `'1year'`. */
  function MonthsFor(period: Option<string>): (n: nat)
    ensures n == 12 <==> period == Some("1year")
    ensures n == 6 || n == 12
  {
    var p := if period.Some? && period.value != "" then period.value else "6months";
    if p == "1year" then 12 else 6
  }

  function MonthTrendAt(expenses: seq<Expense>, k: int): MonthTrend
  {
    var ym := MonthOfIndex(k);
    var monthExpenses := MonthExpenses(expenses, ym.0, ym.1);
    MonthTrend(ym.1, ym.0, Sum(monthExpenses, ExpenseAmount),
               GroupBy(monthExpenses, ExpenseCategory, ExpenseAmount), |monthExpenses|)
  }

  /** Entry `k` of `trends` is the month with index `first + k`. */
  ghost predicate ListsMonths(trends: seq<MonthTrend>, expenses: seq<Expense>, first: int)
  {
    forall k :: 0 <= k < |trends| ==> trends[k] == MonthTrendAt(expenses, first + k)
  }

  /**
   * `trends` answers `/trends`: `months` entries, oldest first, ending at
   * month index `current`, each with category sums adding up to its total.
   */
  ghost predicate TrendsOf(trends: seq<MonthTrend>, expenses: seq<Expense>, current: int, months: nat)
  {
    |trends| == months
    && ListsMonths(trends, expenses, current - months + 1)
    && (forall k :: 0 <= k < months ==> Sum(trends[k].categories, EntryValue) == trends[k].total)
  }

  /** GET `/trends`. */
  method GetTrends(requested: Option<string>, period: Option<string>, expenseDocs: seq<Expense>, now: Instant)
    returns (trends: seq<MonthTrend>)
    ensures TrendsOf(trends, SortDesc(Filter(expenseDocs, ExpenseOwnedBy(OwnerOr(requested))), ExpenseTime),
                     MonthIndex(now.date.year, now.date.month), MonthsFor(period))
  {
    var expenses := SortDesc(Filter(expenseDocs, ExpenseOwnedBy(OwnerOr(requested))), ExpenseTime);
    var current := MonthIndex(now.date.year, now.date.month);
    var months := MonthsFor(period);
    trends := TrendSeries(expenses, current, months);
  }

  /** The `/trends` loop: `months` entries, oldest first, ending at month index `current`. */
  method TrendSeries(expenses: seq<Expense>, current: int, months: nat) returns (trends: seq<MonthTrend>)
    ensures TrendsOf(trends, expenses, current, months)
  {
    ghost var first := current - months + 1;
    trends := [];
    var i: int := months - 1;
    while i >= 0
      invariant -1 <= i <= months - 1
      invariant |trends| == months - 1 - i
      invariant ListsMonths(trends, expenses, first)
    {
      var monthDate := MonthOfIndex(current - i);
      var monthExpenses := MonthExpenses(expenses, monthDate.0, monthDate.1);
      var totalExpenses := Sum(monthExpenses, ExpenseAmount);
      var categorizedExpenses := GroupBy(monthExpenses, ExpenseCategory, ExpenseAmount);
      var trend := MonthTrend(monthDate.1, monthDate.0, totalExpenses, categorizedExpenses, |monthExpenses|);
      ghost var k := current - i;
      assert trend == MonthTrendAt(expenses, k);
      assert k == first + |trends|;
      ListsMonthsSnoc(trends, trend, expenses, first);
      trends := trends + [trend];
      i := i - 1;
    }
    ListedMonthsBalanced(trends, expenses, first);
  }

  /** The next month at the end of a run of months extends the run. */
  lemma ListsMonthsSnoc(trends: seq<MonthTrend>, next: MonthTrend, expenses: seq<Expense>, first: int)
    requires ListsMonths(trends, expenses, first)
    requires next == MonthTrendAt(expenses, first + |trends|)
    ensures ListsMonths(trends + [next], expenses, first)
  {
    var t := trends + [next];
    forall k | 0 <= k < |t|
      ensures t[k] == MonthTrendAt(expenses, first + k)
    {
      if k < |trends| {
        assert t[k] == trends[k];
      }
    }
  }

  /** Every month of a run has category sums adding up to its total. */
  lemma ListedMonthsBalanced(trends: seq<MonthTrend>, expenses: seq<Expense>, first: int)
    requires ListsMonths(trends, expenses, first)
    ensures forall k :: 0 <= k < |trends| ==> Sum(trends[k].categories, EntryValue) == trends[k].total
  {
    forall k | 0 <= k < |trends|
      ensures Sum(trends[k].categories, EntryValue) == trends[k].total
    {
      MonthTrendBalanced(expenses, first + k);
    }
  }

  /** A month's category sums add up to its total. */
  lemma MonthTrendBalanced(expenses: seq<Expense>, k: int)
    ensures Sum(MonthTrendAt(expenses, k).categories, EntryValue) == MonthTrendAt(expenses, k).total
  {
    var ym := MonthOfIndex(k);
    GroupByTotal(MonthExpenses(expenses, ym.0, ym.1), ExpenseCategory, ExpenseAmount);
  }
}
