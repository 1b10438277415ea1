/**
 * The savings-goals form: the new-goal draft, the pending contribution,
 * their validation and input handlers, the clamped progress figure and
 * the days-remaining message.
 */
module SavingsGoals {
  import opened Js
  import opened Calendar
  import opened Records
  import opened Percent
  import opened SavingsRoute

  /**
   * The new-goal draft. The deadline is the text of a date input,
   * `yyyy-MM-dd`; its default (90 days ahead, formatted) is supplied by the
   * caller, since it comes from the clock.
   */
  datatype GoalDraft = GoalDraft(name: string, targetAmount: real, currentAmount: real, deadline: string)

  /** The contribution being entered: the selected goal's id ("" for none) and the amount. */
  datatype Contribution = Contribution(id: string, amount: real)

  const NoContribution: Contribution := Contribution("", 0.0)

  function EmptyDraft(defaultDeadline: string): GoalDraft
  {
    GoalDraft("", 0.0, 0.0, defaultDeadline)
  }

  class GoalsForm {
    var newGoal: GoalDraft
    var contribution: Contribution

    constructor (defaultDeadline: string)
      ensures newGoal == EmptyDraft(defaultDeadline) && contribution == NoContribution
    {
      newGoal := EmptyDraft(defaultDeadline);
      contribution := NoContribution;
    }

    /** `handleAddGoal`: the draft it posts, or `None` when validation refuses it. */
    method HandleAdd() returns (sent: Option<GoalDraft>)
      ensures sent.None? <==> newGoal.name == "" || newGoal.targetAmount <= 0.0
      ensures sent.Some? ==> sent.value == newGoal
    {
      if newGoal.name == "" || newGoal.targetAmount <= 0.0 {
        return None;
      }
      sent := Some(newGoal);
    }

    /** The add mutation's `onSuccess`: a fresh draft. */
    method AddSucceeded(defaultDeadline: string)
      modifies this
      ensures newGoal == EmptyDraft(defaultDeadline) && contribution == old(contribution)
    {
      newGoal := EmptyDraft(defaultDeadline);
    }

    /**
     * `handleInputChange`: the two amounts become `parseFloat(value) || 0`
     * (`parsed` is `None` for NaN), the other fields store the text.
     */
    method HandleInputChange(name: string, value: string, parsed: Option<real>)
      modifies this
      ensures newGoal == DraftAssigned(old(newGoal), name, value, parsed)
      ensures contribution == old(contribution)
    {
      newGoal := DraftAssigned(newGoal, name, value, parsed);
    }

    /** `handleContributionChange`: only the amount changes. */
    method HandleContributionChange(parsed: Option<real>)
      modifies this
      ensures contribution == Contribution(old(contribution).id, ParsedOrZero(parsed, 0.0))
      ensures newGoal == old(newGoal)
    {
      contribution := contribution.(amount := ParsedOrZero(parsed, 0.0));
    }

    /** `handleSelectGoal`: selecting a goal starts its contribution from 0. */
    method HandleSelectGoal(id: string)
      modifies this
      ensures contribution == Contribution(id, 0.0) && newGoal == old(newGoal)
    {
      contribution := Contribution(id, 0.0);
    }

    /** `handleContribute`: the contribution it sends, or `None` when validation refuses it. */
    method HandleContribute() returns (sent: Option<Contribution>)
      ensures sent.None? <==> contribution.id == "" || contribution.amount <= 0.0
      ensures sent.Some? ==> sent.value == contribution
    {
      if contribution.id == "" || contribution.amount <= 0.0 {
        return None;
      }
      sent := Some(contribution);
    }

    /** The contribute mutation's `onSuccess`: the selection and amount are cleared. */
    method ContributeSucceeded()
      modifies this
      ensures contribution == NoContribution && newGoal == old(newGoal)
    {
      contribution := NoContribution;
    }
  }

  /** `{ ...newGoal, [name]: ... }` on the draft's fields; an unknown name changes none of them. */
  function DraftAssigned(d: GoalDraft, name: string, value: string, parsed: Option<real>): (r: GoalDraft)
    ensures name == "targetAmount" ==> r == d.(targetAmount := ParsedOrZero(parsed, 0.0))
    ensures name == "currentAmount" ==> r == d.(currentAmount := ParsedOrZero(parsed, 0.0))
    ensures name == "name" ==> r == d.(name := value)
    ensures name == "deadline" ==> r == d.(deadline := value)
    ensures name !in ["targetAmount", "currentAmount", "name", "deadline"] ==> r == d
  {
    if name in ["targetAmount", "currentAmount"] then
      if name == "targetAmount" then d.(targetAmount := ParsedOrZero(parsed, 0.0))
      else d.(currentAmount := ParsedOrZero(parsed, 0.0))
    else if name == "name" then d.(name := value)
    else if name == "deadline" then d.(deadline := value)
    else d
  }

  /**
   * A draft the form sends is one the server stores, with the draft's
   * name, amounts and (parsed) deadline.
   */
  lemma SentDraftStored(d: GoalDraft, deadline: Instant, id: string)
    requires d.name != "" && d.targetAmount > 0.0
    ensures var r := NewGoal(GoalBody(Some(d.name), Some(d.targetAmount), Some(d.currentAmount), Some(deadline), None), id);
            r.Some? && r.value.name == d.name && r.value.targetAmount == d.targetAmount
            && r.value.currentAmount == d.currentAmount && r.value.deadline == deadline
  {
  }

  // ---------------------------------------------------------------------
  // Progress and deadline
  // ---------------------------------------------------------------------

  /** `calculatePercentage(current, target)`: never above 100. */
  function CalculatePercentage(current: real, target: real): (p: Num)
    ensures !Greater(p, 100.0)
    ensures target > 0.0 && current >= target ==> p == Finite(100.0)
  {
    ClampedAtMost100(current, target);
    if target > 0.0 && current >= target then
      ClampedInRange(current, target);
      ClampedPercentage(current, target)
    else
      ClampedPercentage(current, target)
  }

  /** `Math.ceil((deadline - today) / 86400000)`. */
  function DaysRemaining(deadline: Instant, today: Instant): int
  {
    CeilDiv(Ticks(deadline) - Ticks(today), MsPerDay)
  }

  /** `calculateTimeRemaining(deadline)`. */
  function TimeRemaining(deadline: Instant, today: Instant): (s: string)
    ensures var d := DaysRemaining(deadline, today);
            (d < 0 ==> s == "Deadline passed")
            && (d == 0 ==> s == "Due today")
            && (d == 1 ==> s == "1 day remaining")
            && (d > 1 ==> s == NatToString(d) + " days remaining")
  {
    var d := DaysRemaining(deadline, today);
    if d < 0 then "Deadline passed"
    else if d == 0 then "Due today"
    else if d == 1 then "1 day remaining"
    else NatToString(d) + " days remaining"
  }

  /**
   * The message in terms of the time left: "Deadline passed" only a full
   * day after the deadline, "Due today" from then until the deadline itself,
   * and a day count rounded up for any time still to go.
   */
  lemma TimeRemainingThresholds(deadline: Instant, today: Instant)
    ensures var left := Ticks(deadline) - Ticks(today);
            (TimeRemaining(deadline, today) == "Deadline passed" <==> left <= -MsPerDay)
            && (TimeRemaining(deadline, today) == "Due today" <==> -MsPerDay < left <= 0)
            && (TimeRemaining(deadline, today) == "1 day remaining" <==> 0 < left <= MsPerDay)
  {
    var left := Ticks(deadline) - Ticks(today);
    var d := DaysRemaining(deadline, today);
    assert (d - 1) * MsPerDay < left <= d * MsPerDay;
    var s := TimeRemaining(deadline, today);
    if d > 1 {
      var t := NatToString(d);
      assert s == t + " days remaining";
      assert s[|t|] == ' ';
      assert s != "Deadline passed" && s != "Due today" && s != "1 day remaining" by {
        assert |s| == |t| + 15;
        assert '0' <= s[0] <= '9';
      }
    }
  }
}
