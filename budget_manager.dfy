/**
 * The budget manager form: the draft of a new budget, the budget being
 * edited, the add/update validation, the input handlers, and the status
 * line under each budget.
 */
module BudgetManager {
  import opened Js
  import opened Records
  import opened Percent
  import opened BudgetsRoute

  /** The new-budget draft: a budget without id and `spent`. */
  datatype Draft = Draft(category: string, amount: real, period: string)

  const EmptyDraft: Draft := Draft("", 0.0, "Monthly")

  /** The body `budgetApi.add({ ...budgetData, spent: 0 })` posts. */
  function AddRequest(d: Draft): (body: BudgetBody)
    ensures body.spent == Some(0.0) && body.userId.None?
    ensures body.category == Some(d.category) && body.amount == Some(d.amount) && body.period == Some(d.period)
  {
    BudgetBody(Some(d.category), Some(d.amount), Some(d.period), Some(0.0), None)
  }

  /**
   * A draft the form accepts, with a period from the select, is also
   * accepted by the server, which stores it with nothing spent.
   */
  lemma AcceptedDraftIsStored(d: Draft, id: string)
    requires d.category != "" && d.amount > 0.0 && d.period in Periods
    ensures var r := NewBudget(AddRequest(d), id);
            r.Some? && r.value.spent == 0.0 && r.value.category == d.category
            && r.value.amount == d.amount && r.value.period == d.period && r.value.userId == DemoUser
  {
  }

  class BudgetForm {
    var newBudget: Draft
    var editingBudget: Option<Budget>
    var isEditing: bool

    constructor ()
      ensures newBudget == EmptyDraft && editingBudget.None? && !isEditing
    {
      newBudget := EmptyDraft;
      editingBudget := None;
      isEditing := false;
    }

    /** `resetForm`: an empty draft and nothing being edited. */
    method ResetForm()
      modifies this
      ensures newBudget == EmptyDraft && editingBudget.None? && isEditing == old(isEditing)
    {
      newBudget := EmptyDraft;
      editingBudget := None;
    }

    /** `handleAddBudget`: the body it posts, or `None` when validation refuses the draft. */
    method HandleAdd() returns (sent: Option<BudgetBody>)
      ensures sent.None? <==> newBudget.category == "" || newBudget.amount <= 0.0
      ensures sent.Some? ==> sent.value == AddRequest(newBudget)
    {
      if newBudget.category == "" || newBudget.amount <= 0.0 {
        return None;
      }
      sent := Some(AddRequest(newBudget));
    }

    /** The add mutation's `onSuccess`. */
    method AddSucceeded()
      modifies this
      ensures newBudget == EmptyDraft && editingBudget.None? && isEditing == old(isEditing)
    {
      ResetForm();
    }

    /** `handleUpdateBudget`: the budget it sends, or `None` when validation refuses it. */
    method HandleUpdate() returns (sent: Option<Budget>)
      ensures sent.None? <==> editingBudget.None? || editingBudget.value.category == "" || editingBudget.value.amount <= 0.0
      ensures sent.Some? ==> sent == editingBudget
    {
      if editingBudget.None? || editingBudget.value.category == "" || editingBudget.value.amount <= 0.0 {
        return None;
      }
      sent := editingBudget;
    }

    /** The update mutation's `onSuccess`: the form is reset and editing ends. */
    method UpdateSucceeded()
      modifies this
      ensures newBudget == EmptyDraft && editingBudget.None? && !isEditing
    {
      ResetForm();
      isEditing := false;
    }

    /** `handleEditBudget`: a copy of the budget goes into the edit form. */
    method HandleEdit(b: Budget)
      modifies this
      ensures editingBudget == Some(b) && isEditing && newBudget == old(newBudget)
    {
      editingBudget := Some(b);
      isEditing := true;
    }

    /** `handleCancelEdit`: editing ends and the new-budget draft is left as it was. */
    method HandleCancelEdit()
      modifies this
      ensures editingBudget.None? && !isEditing && newBudget == old(newBudget)
    {
      editingBudget := None;
      isEditing := false;
    }

    /**
     * `handleInputChange`: the amount becomes `parseFloat(value) || 0`
     * (`parsed` is `None` for NaN); category and period store the text. The
     * edit form is written only while a budget is being edited.
     */
    method HandleInputChange(name: string, value: string, parsed: Option<real>, isEditForm: bool)
      modifies this
      ensures isEditing == old(isEditing)
      ensures isEditForm && old(editingBudget).Some? ==>
                newBudget == old(newBudget) && editingBudget.Some?
                && editingBudget.value == Assigned(old(editingBudget).value, name, value, parsed)
      ensures !(isEditForm && old(editingBudget).Some?) ==>
                editingBudget == old(editingBudget) && newBudget == DraftAssigned(old(newBudget), name, value, parsed)
    {
      if isEditForm && editingBudget.Some? {
        editingBudget := Some(Assigned(editingBudget.value, name, value, parsed));
      } else {
        newBudget := DraftAssigned(newBudget, name, value, parsed);
      }
    }

    /** `handleCategoryChange`. */
    method HandleCategoryChange(value: string, isEditForm: bool)
      modifies this
      ensures isEditing == old(isEditing)
      ensures isEditForm && old(editingBudget).Some? ==>
                newBudget == old(newBudget) && editingBudget == Some(old(editingBudget).value.(category := value))
      ensures !(isEditForm && old(editingBudget).Some?) ==>
                editingBudget == old(editingBudget) && newBudget == old(newBudget).(category := value)
    {
      if isEditForm && editingBudget.Some? {
        editingBudget := Some(editingBudget.value.(category := value));
      } else {
        newBudget := newBudget.(category := value);
      }
    }

    /** `handlePeriodChange`; the select offers the four periods only. */
    method HandlePeriodChange(value: string, isEditForm: bool)
      requires value in Periods
      modifies this
      ensures isEditing == old(isEditing)
      ensures isEditForm && old(editingBudget).Some? ==>
                newBudget == old(newBudget) && editingBudget == Some(old(editingBudget).value.(period := value))
      ensures !(isEditForm && old(editingBudget).Some?) ==>
                editingBudget == old(editingBudget) && newBudget == old(newBudget).(period := value)
    {
      if isEditForm && editingBudget.Some? {
        editingBudget := Some(editingBudget.value.(period := value));
      } else {
        newBudget := newBudget.(period := value);
      }
    }
  }

  /** `{ ...draft, [name]: name === 'amount' ? parseFloat(value) || 0 : value }` on the draft's fields. */
  function DraftAssigned(d: Draft, name: string, value: string, parsed: Option<real>): (r: Draft)
    ensures name == "amount" ==> r == d.(amount := ParsedOrZero(parsed, 0.0))
    ensures name == "category" ==> r == d.(category := value)
    ensures name == "period" ==> r == d.(period := value)
    ensures name != "amount" && name != "category" && name != "period" ==> r == d
  {
    if name == "amount" then d.(amount := ParsedOrZero(parsed, 0.0))
    else if name == "category" then d.(category := value)
    else if name == "period" then d.(period := value)
    else d
  }

  /** The same assignment on the budget being edited. */
  function Assigned(b: Budget, name: string, value: string, parsed: Option<real>): (r: Budget)
    ensures r.id == b.id && r.spent == b.spent && r.userId == b.userId
    ensures name == "amount" ==> r == b.(amount := ParsedOrZero(parsed, 0.0))
    ensures name == "category" ==> r == b.(category := value)
    ensures name == "period" ==> r == b.(period := value)
    ensures name != "amount" && name != "category" && name != "period" ==> r == b
  {
    if name == "amount" then b.(amount := ParsedOrZero(parsed, 0.0))
    else if name == "category" then b.(category := value)
    else if name == "period" then b.(period := value)
    else b
  }

  /** An unparsable amount becomes 0, which the add validation then refuses. */
  lemma UnparsableAmountRefused(d: Draft, value: string)
    ensures DraftAssigned(d, "amount", value, None).amount == 0.0
  {
  }

  // ---------------------------------------------------------------------
  // The status line
  // ---------------------------------------------------------------------

  /** `calculatePercentage(spent, total)`. */
  function CalculatePercentage(spent: real, total: real): (p: Num)
    ensures !Greater(p, 100.0)
  {
    ClampedAtMost100(spent, total);
    ClampedPercentage(spent, total)
  }

  /** What the status line shows: the warning, or `${100 - percentage}% remaining`. */
  datatype Status = LimitApproaching | Remaining(percent: Num)

  /** `100 - p` on a JS number. */
  function HundredMinus(p: Num): Num
  {
    match p
    case Finite(x) => Finite(100.0 - x)
    case PosInf => NegInf
    case NegInf => PosInf
    case NaN => NaN
  }

  function StatusFor(b: Budget): (s: Status)
    ensures s == LimitApproaching <==> AtLeast(CalculatePercentage(b.spent, b.amount), 90.0)
  {
    var p := CalculatePercentage(b.spent, b.amount);
    if AtLeast(p, 90.0) then LimitApproaching else Remaining(HundredMinus(p))
  }

  /**
   * For a positive amount and a non-negative spend, a budget that is not
   * approaching its limit has at least 11% remaining: the percentage is a
   * whole number below 90.
   */
  lemma RemainingAtLeast11(b: Budget)
    requires b.amount > 0.0 && b.spent >= 0.0
    ensures StatusFor(b).Remaining? ==> StatusFor(b).percent.Finite? && StatusFor(b).percent.value >= 11.0
  {
    ClampedInRange(b.spent, b.amount);
    ClampedAtMost100(b.spent, b.amount);
    var p := CalculatePercentage(b.spent, b.amount);
    if p.value < 90.0 {
      assert p.value == p.value.Floor as real;
      assert p.value.Floor <= 89;
    }
  }
}
