/**
 * The three summary cards on the dashboard page: this month's spending, the
 * total budget and the total saved, computed in the browser from the three
 * fetched lists. The figures also hold a count of goals, `activeGoals`,
 * which is computed but shown on no card.
 */
module SummaryCards {
  import opened Calendar
  import opened Folds
  import opened Records
  import opened DashboardRoute

  datatype Cards = Cards(monthlyExpenses: real, totalBudget: real, totalSavings: real, activeGoals: nat)

  /** This month's expenses: `startOfMonth(now) <= date <= endOfMonth(now)`. */
  function CurrentMonth(expenses: seq<Expense>, now: Instant): seq<Expense>
  {
    Filter(expenses, InWholeMonth(now.date.year, now.date.month))
  }

  function CardsFor(expenses: seq<Expense>, budgets: seq<Budget>, goals: seq<SavingsGoal>, now: Instant): (c: Cards)
    ensures c.activeGoals == |goals|
  {
    Cards(Sum(CurrentMonth(expenses, now), ExpenseAmount),
          Sum(budgets, BudgetAmount),
          Sum(goals, GoalCurrent),
          |goals|)
  }

  /** With nothing fetched every figure is 0. */
  lemma EmptyCards(now: Instant)
    ensures CardsFor([], [], [], now) == Cards(0.0, 0.0, 0.0, 0)
  {
  }

  /**
   * The month total counts exactly the expenses dated in the current
   * calendar month: adding one from another month changes nothing, adding
   * one from this month adds its amount.
   */
  lemma MonthTotalStep(expenses: seq<Expense>, e: Expense, budgets: seq<Budget>, goals: seq<SavingsGoal>, now: Instant)
    requires ValidInstant(e.date) && 0 <= now.date.month < 12
    ensures var before := CardsFor(expenses, budgets, goals, now).monthlyExpenses;
            var after := CardsFor(expenses + [e], budgets, goals, now).monthlyExpenses;
            after == before + (if e.date.date.year == now.date.year && e.date.date.month == now.date.month then e.amount else 0.0)
  {
    InWholeMonthMeaning(e, now.date.year, now.date.month);
    var xs := expenses + [e];
    var p := InWholeMonth(now.date.year, now.date.month);
    assert xs[..|xs| - 1] == expenses;
    assert Filter(xs, p) == Filter(expenses, p) + (if p(e) then [e] else []);
    var last := [e];
    assert Sum(last, ExpenseAmount) == e.amount by { assert last[..0] == []; }
    SumAppend(Filter(expenses, p), if p(e) then last else [], ExpenseAmount);
  }

  /**
   * The budget card adds up budget amounts and the savings card adds up the
   * amounts saved so far; neither spending nor savings targets enter them.
   */
  lemma CardTotalsStep(expenses: seq<Expense>, budgets: seq<Budget>, b: Budget,
                       goals: seq<SavingsGoal>, g: SavingsGoal, now: Instant)
    ensures var before := CardsFor(expenses, budgets, goals, now);
            var after := CardsFor(expenses, budgets + [b], goals + [g], now);
            after.totalBudget == before.totalBudget + b.amount
            && after.totalSavings == before.totalSavings + g.currentAmount
            && after.monthlyExpenses == before.monthlyExpenses
            && after.activeGoals == before.activeGoals + 1
  {
    SumSnoc(budgets, b, BudgetAmount);
    SumSnoc(goals, g, GoalCurrent);
  }

  /** The computed (and unrendered) goal count includes every goal, whatever its progress. */
  lemma FundedGoalsStillActive(goals: seq<SavingsGoal>, now: Instant)
    requires forall g :: g in goals ==> g.currentAmount >= g.targetAmount
    ensures CardsFor([], [], goals, now).activeGoals == |goals|
  {
  }

  /** A filter that keeps more never sums to less, for non-negative amounts. */
  lemma {:induction false} SumFilterMonotone(xs: seq<Expense>, p: Expense -> bool, q: Expense -> bool)
    requires forall x :: x in xs ==> x.amount >= 0.0 && (p(x) ==> q(x))
    ensures Sum(Filter(xs, p), ExpenseAmount) <= Sum(Filter(xs, q), ExpenseAmount)
    decreases |xs|
  {
    if xs != [] {
      var n := |xs| - 1;
      SumFilterMonotone(xs[..n], p, q);
      var last := [xs[n]];
      assert Sum(last, ExpenseAmount) == xs[n].amount by { assert last[..0] == []; }
      SumAppend(Filter(xs[..n], p), if p(xs[n]) then last else [], ExpenseAmount);
      SumAppend(Filter(xs[..n], q), if q(xs[n]) then last else [], ExpenseAmount);
    }
  }

  /**
   * The card's month window ends at the last millisecond of the month, the
   * dashboard route's at midnight of the last day: for non-negative amounts
   * the card's total is never smaller.
   */
  lemma CardCoversDashboardWindow(expenses: seq<Expense>, now: Instant)
    requires 0 <= now.date.month < 12
    requires forall e :: e in expenses ==> ValidInstant(e.date) && e.amount >= 0.0
    ensures Sum(MonthExpenses(expenses, now.date.year, now.date.month), ExpenseAmount)
            <= CardsFor(expenses, [], [], now).monthlyExpenses
  {
    var y, m := now.date.year, now.date.month;
    forall e | e in expenses ensures InMonthWindow(y, m)(e) ==> InWholeMonth(y, m)(e) {
      MonthWindowExcludesLastDay(e, y, m);
      InWholeMonthMeaning(e, y, m);
    }
    SumFilterMonotone(expenses, InMonthWindow(y, m), InWholeMonth(y, m));
  }

  /** The two windows differ: an expense at noon on January 31 counts on the card only. */
  lemma LastDayDiffers()
    ensures var e := Expense("e", "Food", 10.0, Instant(Date(2024, 0, 31), 12 * MsPerHour), "", DemoUser);
            var now := Instant(Date(2024, 0, 15), 0);
            CardsFor([e], [], [], now).monthlyExpenses == 10.0
            && Sum(MonthExpenses([e], 2024, 0), ExpenseAmount) == 0.0
  {
    var e := Expense("e", "Food", 10.0, Instant(Date(2024, 0, 31), 12 * MsPerHour), "", DemoUser);
    var now := Instant(Date(2024, 0, 15), 0);
    assert DaysInMonth(2024, 0) == 31;
    assert ValidInstant(e.date);
    InWholeMonthMeaning(e, 2024, 0);
    MonthWindowExcludesLastDay(e, 2024, 0);
    assert InWholeMonth(2024, 0)(e);
    assert !InMonthWindow(2024, 0)(e);
    var one := [e];
    assert one[..0] == [];
    assert Filter(one, InWholeMonth(2024, 0)) == one;
    assert Filter(one, InMonthWindow(2024, 0)) == [];
    assert Sum(one, ExpenseAmount) == 10.0;
  }
}
