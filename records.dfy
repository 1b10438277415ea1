/**
 * The three documents the app stores (Budget, Expense, SavingsGoal), the
 * owner default every route applies, and the outcome of a route handler.
 *
 * Amounts are exact `real`s. A missing request field is `None`; the empty
 * string stands for a falsy user id.
 */
module Records {
  import opened Js
  import opened Calendar

  /** The owner a request falls back to when it names none. */
  const DemoUser: string := "demo-user"

  datatype Expense = Expense(
    id: string,
    category: string,
    amount: real,
    date: Instant,
    description: string,
    userId: string)

  datatype Budget = Budget(
    id: string,
    category: string,
    amount: real,
    spent: real,
    period: string,
    userId: string)

  datatype SavingsGoal = SavingsGoal(
    id: string,
    name: string,
    targetAmount: real,
    currentAmount: real,
    deadline: Instant,
    userId: string)

  function ExpenseId(e: Expense): string { e.id }
  function BudgetId(b: Budget): string { b.id }
  function GoalId(g: SavingsGoal): string { g.id }

  function ExpenseAmount(e: Expense): real { e.amount }
  function ExpenseCategory(e: Expense): string { e.category }
  /** The sort key of `sort({ date: -1 })` and of `getTime()` comparisons. */
  function ExpenseTime(e: Expense): real { Ticks(e.date) as real }
  function BudgetAmount(b: Budget): real { b.amount }
  function BudgetSpent(b: Budget): real { b.spent }
  function GoalCurrent(g: SavingsGoal): real { g.currentAmount }
  function GoalTarget(g: SavingsGoal): real { g.targetAmount }

  /** `requested || 'demo-user'`: an absent or empty user id means the demo user. */
  function OwnerOr(requested: Option<string>): (u: string)
    ensures u != ""
    ensures requested.Some? && requested.value != "" ==> u == requested.value
    ensures requested.None? || requested.value == "" ==> u == DemoUser
  {
    if requested.Some? && requested.value != "" then requested.value else DemoUser
  }

  function ExpenseOwnedBy(user: string): Expense -> bool { (e: Expense) => e.userId == user }
  function BudgetOwnedBy(user: string): Budget -> bool { (b: Budget) => b.userId == user }
  function GoalOwnedBy(user: string): SavingsGoal -> bool { (g: SavingsGoal) => g.userId == user }

  /**
   * What a handler answers: a document (200), a created document (201), a
   * validation or cast failure (400), or an unknown id (404).
   */
  datatype Outcome<T> = Ok(value: T) | Created(value: T) | BadRequest | NotFound

  /**
   * `startOfMonth(d) <= date && date <= endOfMonth(d)` for a day `d` of
   * month `m` of year `y`, as the client components filter: from midnight
   * on the first to the last millisecond of the last day.
   */
  function InWholeMonth(y: int, m: int): Expense -> bool
  {
    (e: Expense) => InTicks(e.date, Midnight(y, m, 1), LastMillisecond(y, m, DaysInMonth(y, m)))
  }

  /** An expense with a valid date is in the window exactly when it falls in that month. */
  lemma InWholeMonthMeaning(e: Expense, y: int, m: int)
    requires ValidInstant(e.date) && 0 <= m < 12
    ensures InWholeMonth(y, m)(e) <==> e.date.date.year == y && e.date.date.month == m
  {
    WholeMonthWindow(e.date, y, m);
  }

  /** The categories that occur in a list of expenses. */
  function CategoriesOf(expenses: seq<Expense>): set<string>
  {
    set e | e in expenses :: e.category
  }
}
