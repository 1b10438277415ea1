/**
 * The budget overview: total utilisation across all budgets with an alert
 * above 90%, and per-budget rows with a clamped percentage, severity flags
 * and the remaining amount.
 *
 * The stored `spent` always holds a number (the schema defaults it to 0),
 * so `budget.spent || 0` is the stored value.
 */
module BudgetOverview {
  import opened Js
  import opened Folds
  import opened Records
  import opened Percent

  const NoBudgetsMessage: string := "No budgets found. Create budgets in the \"Manage Budgets\" tab to get started."

  datatype Row = Row(
    category: string,
    spent: real,
    amount: real,
    percentage: Num,
    isOverBudget: bool,
    isNearLimit: bool,
    isWarning: bool,
    remaining: real)

  datatype Totals = Totals(totalBudget: real, totalSpent: real, totalPercentage: int, remaining: real, alert: bool)

  datatype View = NoBudgets(message: string) | Overview(totals: Totals, rows: seq<Row>)

  /** One budget's row: `min(round(spent / amount * 100), 100)` and the flags read from it. */
  function RowFor(b: Budget): (r: Row)
    ensures r.percentage == ClampedPercentage(b.spent, b.amount)
    ensures r.isOverBudget == Greater(r.percentage, 100.0)
    ensures r.isNearLimit == Greater(r.percentage, 90.0)
    ensures r.isWarning == Greater(r.percentage, 75.0)
    ensures r.remaining >= 0.0
    ensures r.remaining == if b.amount - b.spent > 0.0 then b.amount - b.spent else 0.0
  {
    var p := ClampedPercentage(b.spent, b.amount);
    Row(b.category, b.spent, b.amount, p, Greater(p, 100.0), Greater(p, 90.0), Greater(p, 75.0),
        if b.amount - b.spent > 0.0 then b.amount - b.spent else 0.0)
  }

  /** The header figures: the total percentage is rounded but not clamped. */
  function TotalsFor(budgets: seq<Budget>): (t: Totals)
    ensures t.totalBudget == Sum(budgets, BudgetAmount) && t.totalSpent == Sum(budgets, BudgetSpent)
    ensures t.totalBudget > 0.0 ==> t.totalPercentage == Round(t.totalSpent / t.totalBudget * 100.0)
    ensures t.totalBudget <= 0.0 ==> t.totalPercentage == 0
    ensures t.remaining == t.totalBudget - t.totalSpent
    ensures t.alert <==> t.totalPercentage > 90
  {
    var totalBudget := Sum(budgets, BudgetAmount);
    var totalSpent := Sum(budgets, BudgetSpent);
    var totalPercentage := if totalBudget > 0.0 then Round(totalSpent / totalBudget * 100.0) else 0;
    Totals(totalBudget, totalSpent, totalPercentage, totalBudget - totalSpent, totalPercentage > 90)
  }

  function ViewOf(budgets: seq<Budget>): (v: View)
    ensures v.NoBudgets? <==> budgets == []
    ensures v.NoBudgets? ==> v.message == NoBudgetsMessage
    ensures v.Overview? ==> v.totals == TotalsFor(budgets) && |v.rows| == |budgets|
                            && forall i :: 0 <= i < |budgets| ==> v.rows[i] == RowFor(budgets[i])
  {
    if budgets == [] then NoBudgets(NoBudgetsMessage)
    else Overview(TotalsFor(budgets), seq(|budgets|, i requires 0 <= i < |budgets| => RowFor(budgets[i])))
  }

  /**
   * Because the percentage is clamped, no row is ever over budget: the
   * "Over budget by" line cannot appear, however much was spent.
   */
  lemma OverBudgetUnreachable(budgets: seq<Budget>)
    ensures var v := ViewOf(budgets);
            v.Overview? ==> forall i :: 0 <= i < |v.rows| ==> !v.rows[i].isOverBudget
  {
    forall b | b in budgets ensures !RowFor(b).isOverBudget {
      ClampedAtMost100(b.spent, b.amount);
    }
  }

  /** The flags nest: near the limit implies the warning. */
  lemma FlagsNest(b: Budget)
    ensures RowFor(b).isNearLimit ==> RowFor(b).isWarning
    ensures RowFor(b).isOverBudget ==> RowFor(b).isNearLimit
  {
    BandsNest(RowFor(b).percentage);
  }

  /**
   * Overspending shows differently in the rows and in the header: a row
   * stays at 100% with nothing remaining, while the header's percentage
   * goes past 100, its remaining amount turns negative and the alert shows.
   */
  lemma OverspendShown(b: Budget)
    requires b.amount > 0.0 && b.spent > b.amount
    ensures RowFor(b).percentage == Finite(100.0) && RowFor(b).remaining == 0.0
    ensures var t := TotalsFor([b]);
            t.totalPercentage >= 100 && t.remaining < 0.0 && t.alert
  {
    ClampedInRange(b.spent, b.amount);
    var one := [b];
    assert one[..0] == [];
    assert Sum(one, BudgetAmount) == b.amount && Sum(one, BudgetSpent) == b.spent;
    GuardedUnclamped(b.spent, b.amount);
  }
}
