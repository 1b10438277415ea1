/**
 * The budget-progress list: one bar per budget with the clamped
 * percentage spent and a colour band, or a message when there are no
 * budgets.
 */
module BudgetProgress {
  import opened Js
  import opened Records
  import opened Percent

  const NoBudgetsMessage: string := "No budgets found. Create budgets to track your spending."

  datatype Bar = Bar(budget: Budget, percentage: Num, band: Band)

  datatype View = NoBudgets(message: string) | Bars(bars: seq<Bar>)

  /** `calculatePercentage(budget)`. */
  function BarFor(b: Budget): (bar: Bar)
    ensures bar.percentage == ClampedPercentage(b.spent, b.amount)
    ensures bar.band == BandOf(bar.percentage)
    ensures bar.budget == b
  {
    var p := ClampedPercentage(b.spent, b.amount);
    Bar(b, p, BandOf(p))
  }

  function ViewOf(budgets: seq<Budget>): (v: View)
    ensures v.NoBudgets? <==> budgets == []
    ensures v.NoBudgets? ==> v.message == NoBudgetsMessage
    ensures v.Bars? ==> |v.bars| == |budgets| && forall i :: 0 <= i < |budgets| ==> v.bars[i] == BarFor(budgets[i])
  {
    if budgets == [] then NoBudgets(NoBudgetsMessage)
    else Bars(seq(|budgets|, i requires 0 <= i < |budgets| => BarFor(budgets[i])))
  }

  /**
   * A bar never shows more than 100; with a positive amount and a
   * non-negative spend it is a whole number from 0 to 100 that does not
   * drop as the spend grows, and the red band starts above 90.
   */
  lemma BarInRange(b: Budget, more: real)
    requires b.amount > 0.0 && 0.0 <= b.spent <= more
    ensures var p := BarFor(b).percentage;
            p.Finite? && 0.0 <= p.value <= 100.0
            && p.value <= BarFor(b.(spent := more)).percentage.value
            && (BarFor(b).band == Red <==> p.value > 90.0)
  {
    ClampedInRange(b.spent, b.amount);
    ClampedMonotone(b.spent, more, b.amount);
  }

  /** A zero amount gives no number: NaN for nothing spent (green), +Infinity clamped to 100 otherwise (red). */
  lemma ZeroAmountBar(b: Budget)
    requires b.amount == 0.0
    ensures b.spent == 0.0 ==> BarFor(b).percentage == NaN && BarFor(b).band == Green
    ensures b.spent > 0.0 ==> BarFor(b).percentage == Finite(100.0) && BarFor(b).band == Red
  {
  }
}
