/**
 * The goal cards: each goal's unclamped progress figure, and the
 * contribution dialog's text and selected goal.
 */
module GoalCards {
  import opened Js
  import opened Records
  import opened Percent
  import opened SavingsRoute

  const NoGoalsMessage: string := "No savings goals created yet. Create your first goal to get started."

  /** One card: the goal, its percentage and the rounded figure printed before "% Complete". */
  datatype GoalCard = GoalCard(goal: SavingsGoal, percentage: real, shown: int)

  datatype View = NoGoals(message: string) | Cards(cards: seq<GoalCard>)

  function CardFor(g: SavingsGoal): (c: GoalCard)
    ensures c.goal == g
    ensures g.targetAmount <= 0.0 ==> c.percentage == 0.0 && c.shown == 0
    ensures g.targetAmount > 0.0 ==> c.percentage * g.targetAmount == g.currentAmount * 100.0
    ensures c.shown as real <= c.percentage + 0.5 < c.shown as real + 1.0
  {
    var p := GuardedPercentage(g.currentAmount, g.targetAmount);
    GoalCard(g, p, Round(p))
  }

  function ViewOf(goals: seq<SavingsGoal>): (v: View)
    ensures v.NoGoals? <==> goals == []
    ensures v.NoGoals? ==> v.message == NoGoalsMessage
    ensures v.Cards? ==> |v.cards| == |goals| && forall i :: 0 <= i < |goals| ==> v.cards[i] == CardFor(goals[i])
  {
    if goals == [] then NoGoals(NoGoalsMessage)
    else Cards(seq(|goals|, i requires 0 <= i < |goals| => CardFor(goals[i])))
  }

  /** An over-funded goal shows more than 100 percent: nothing clamps the figure. */
  lemma OverFundedAbove100(g: SavingsGoal)
    requires g.targetAmount > 0.0 && g.currentAmount > g.targetAmount
    ensures CardFor(g).percentage > 100.0 && CardFor(g).shown >= 100
  {
    GuardedUnclamped(g.currentAmount, g.targetAmount);
  }

  /**
   * A contribution the server accepts raises the goal's percentage by the
   * amount's share of the target.
   */
  lemma ContributionRaisesPercentage(g: SavingsGoal, amount: real)
    requires amount > 0.0 && g.targetAmount > 0.0
    ensures var after := CardFor(Contributed(g, amount)).percentage;
            var before := CardFor(g).percentage;
            (after - before) * g.targetAmount == amount * 100.0
            && after > before
  {
    var t := g.targetAmount;
    var before := CardFor(g).percentage;
    var after := CardFor(Contributed(g, amount)).percentage;
    assert after * t == (g.currentAmount + amount) * 100.0;
    assert before * t == g.currentAmount * 100.0;
    assert (after - before) * t == after * t - before * t;
    assert (after - before) * t > 0.0;
  }

  /** The dialog's state: the amount as typed and the selected goal's id ("" for none). */
  class ContributionDialog {
    var contribution: string
    var selectedGoalId: string

    constructor ()
      ensures contribution == "" && selectedGoalId == ""
    {
      contribution := "";
      selectedGoalId := "";
    }

    /** The "Add Contribution" button of a card selects that goal. */
    method SelectGoal(id: string)
      modifies this
      ensures selectedGoalId == id && contribution == old(contribution)
    {
      selectedGoalId := id;
    }

    method TextChanged(value: string)
      modifies this
      ensures contribution == value && selectedGoalId == old(selectedGoalId)
    {
      contribution := value;
    }

    /**
     * `handleContribute`: `parsed` is `parseFloat(contribution)`, `None`
     * for NaN. Returns the id and amount it sends, or `None` when refused.
     */
    method HandleContribute(parsed: Option<real>) returns (sent: Option<(string, real)>)
      ensures sent.None? <==> selectedGoalId == "" || parsed.None? || parsed.value <= 0.0
      ensures sent.Some? ==> sent.value == (selectedGoalId, parsed.value) && sent.value.1 > 0.0
    {
      if selectedGoalId == "" || parsed.None? || parsed.value <= 0.0 {
        return None;
      }
      sent := Some((selectedGoalId, parsed.value));
    }

    /** The mutation's `onSuccess` clears both the text and the selection. */
    method ContributeSucceeded()
      modifies this
      ensures contribution == "" && selectedGoalId == ""
    {
      contribution := "";
      selectedGoalId := "";
    }

    /** Cancel clears the text only; the goal stays selected. */
    method Cancel()
      modifies this
      ensures contribution == "" && selectedGoalId == old(selectedGoalId)
    {
      contribution := "";
    }
  }
}
