/**
 * The compact savings-goals list: each goal's guarded, unclamped
 * percentage, its rounded figure and the green highlight from 50 percent.
 */
module SavingsGoalsList {
  import opened Js
  import opened Records
  import opened Percent
  import GoalCards

  /** One line: the goal, its percentage, the rounded figure and whether it is green. */
  datatype GoalLine = GoalLine(goal: SavingsGoal, percentage: real, shown: int, green: bool)

  datatype View = NoGoals(message: string) | Lines(lines: seq<GoalLine>)

  function LineFor(g: SavingsGoal): (l: GoalLine)
    ensures l.goal == g
    ensures l.green <==> l.percentage >= 50.0
    ensures l.shown as real <= l.percentage + 0.5 < l.shown as real + 1.0
  {
    var p := GuardedPercentage(g.currentAmount, g.targetAmount);
    GoalLine(g, p, Round(p), p >= 50.0)
  }

  /** The list shows the same figure as the goal cards. */
  lemma SameFigureAsCards(g: SavingsGoal)
    ensures LineFor(g).percentage == GoalCards.CardFor(g).percentage
    ensures LineFor(g).shown == GoalCards.CardFor(g).shown
  {
  }

  /**
   * A goal is green exactly when it has a positive target and at least half
   * of it is saved; a goal without a positive target is never green.
   */
  lemma GreenMeaning(g: SavingsGoal)
    ensures LineFor(g).green <==> g.targetAmount > 0.0 && 2.0 * g.currentAmount >= g.targetAmount
  {
    if g.targetAmount > 0.0 {
      GuardedHalf(g.currentAmount, g.targetAmount);
    }
  }

  function ViewOf(goals: seq<SavingsGoal>): (v: View)
    ensures v.NoGoals? <==> goals == []
    ensures v.NoGoals? ==> v.message == GoalCards.NoGoalsMessage
    ensures v.Lines? ==> |v.lines| == |goals| && forall i :: 0 <= i < |goals| ==> v.lines[i] == LineFor(goals[i])
  {
    if goals == [] then NoGoals(GoalCards.NoGoalsMessage)
    else Lines(seq(|goals|, i requires 0 <= i < |goals| => LineFor(goals[i])))
  }
}
