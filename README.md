# Finance Tracker, modelled in Dafny

A model of a personal-finance application. It has two parts.

**Server.** An Express/Mongoose server keeps three collections per user:
- expenses;
- budgets per category and period (`Weekly`, `Monthly`, `Quarterly`, `Yearly`);
- savings goals.

The server's routes create, read, update and delete these documents. It also has three computed endpoints:
- recalculating each budget's `spent` from the expenses in its period window;
- a dashboard summary;
- monthly expense trends.

**Client.** The React client shows the same data:
- budget progress bars and an overview with alerts;
- a budget editor;
- savings-goal forms and cards;
- an expense table with "recurring" and "recent" filters;
- recent transactions;
- summary cards;
- a pie chart and a stacked bar chart of spending by category.

An assignment builder also lives in the client. It edits a title, description, due date, total points and a list of sections. It previews the assignment and copies it to the clipboard as text.

## How the model is built

**Server routes.** Each route file is a class over a sequence of documents:
- `BudgetsRoute.BudgetCollection`;
- `SavingsRoute.GoalCollection`;
- `ExpensesRoute.ExpenseCollection`.

Each handler is a method whose `ensures` gives the new collection and the response as an `Outcome`: `Ok`, `Created`, `BadRequest` or `NotFound`. Pure functions define what a handler builds or changes (`NewBudget`, `Patched`, `Contributed`, …), and lemmas state the properties. The `/calculate` loop runs over the stored budgets and rewrites `spent` one document at a time. It is proved equal to the specification function `Recalculated`.

**Client components.** Their rendering is pure, so it becomes functions from the fetched data to a view datatype. Their `useState` hooks become classes whose fields the handlers reassign. The one in-place algorithm, `Array.prototype.sort` in the recent-transactions card, is an insertion sort on an `array`.

**JavaScript semantics** are written out where they matter:
- `Js.Num` carries `NaN` and the infinities of a division by zero;
- `Js.Round` is `Math.round`;
- `x || 0` on a parse result is `Js.ParsedOrZero`;
- `String(n)` on a whole number is `Js.NatToString` (or `Js.IntToString` for a signed one); on a JS number that may be fractional or infinite it is a parameter.

**Dates** are calendar dates with a millisecond of the day (`Calendar.Instant`), on one time line (`Calendar.Ticks`). Day counting follows the proleptic Gregorian calendar, so `Calendar.Weekday` gives `getDay()`.

**Helper modules.** `Folds`, `Grouping`, `Sorting` and `Store` are the list helpers the rest shares:
- filter and sum;
- the "accumulate into an object by key" reduce;
- a descending stable sort;
- look-up by id.

## Model

| member | source | states |
|---|---|---|
| Records.OwnerOr | server/routes/budgets.js:11 | `userId \|\| 'demo-user'`: a missing or empty user id is the demo user, any other is kept; the result is never empty |
| Records.InWholeMonthMeaning | src/components/SummaryCards.tsx:37-44 | `startOfMonth(now) <= date <= endOfMonth(now)` holds exactly for instants in that calendar year and month |
| Calendar.WholeMonthWindow | src/components/ExpenseBreakdown.tsx:25-31 | the window from midnight of the 1st to the last millisecond of the month's last day contains exactly the instants of that month |
| Calendar.MidnightMonthWindow | server/routes/dashboard.js:14-15 | the window from midnight of the 1st to midnight of the last day (`new Date(y, m + 1, 0)`) contains the month's instants except those after midnight on its last day |
| Calendar.DaysBackStep | server/routes/budgets.js:58 | going back `k` days with `setDate(getDate() - k)` gives a valid date whose day number is exactly `k` smaller |
| Calendar.DayNumberOrder | server/routes/budgets.js:78 | day numbers order dates as the calendar does, and equal day numbers mean equal dates |
| Calendar.MonthOfIndexInverse | server/routes/dashboard.js:49 | `new Date(y, m - i, 1)` normalises a month index back to a year and month, and the encoding round-trips |
| Calendar.NextMonthOfIndex | server/routes/dashboard.js:48-49 | consecutive month indices are consecutive calendar months, across year ends |
| Js.Round | src/components/BudgetProgress.tsx:19 | `Math.round` gives the integer nearest to x, with halves rounded up |
| Js.CeilDiv | src/components/SavingsGoals.tsx:150 | `Math.ceil(a / b)` for a positive divisor: the least r with a <= r * b |
| Js.NatToString | src/components/SavingsGoals.tsx:155 | `String(n)` is a non-empty run of digits, with no leading zero, whose decimal value is n |
| Js.IntToString | src/components/SectionEditor.tsx:50 | `String(i)` starts with `-` exactly when i is negative, and is the digits of i, or `-` followed by the digits of -i |
| Folds.FilterAppend | server/routes/dashboard.js:25-28 | filtering a concatenation filters each part |
| Folds.SumAppend | server/routes/dashboard.js:30 | the `reduce` sum of a concatenation is the sum of the parts |
| Folds.SumSplit | server/routes/dashboard.js:30 | a sum is the sum of what a filter keeps plus the sum of what it drops |
| Folds.FilterIdempotent | server/routes/budgets.js:13 | filtering twice by the same owner is filtering once |
| Folds.FilterAll | server/routes/budgets.js:13 | a filter every element passes keeps the list unchanged |
| Grouping.GroupBySpec | server/routes/dashboard.js:41-44 | the `acc[category] = (acc[category] \|\| 0) + amount` reduce gives one entry per distinct category, each holding the sum of that category's amounts, and the entries add up to the total |
| Grouping.GroupByKeys | server/routes/dashboard.js:41-44 | the keys come out in order of first appearance, as JavaScript object keys do |
| Grouping.FirstAppearancesSpec | server/routes/dashboard.js:41-44 | first appearances list each key of the input exactly once |
| Grouping.GroupByGet | server/routes/dashboard.js:41-44 | the value under any key is the sum of the amounts with that key (0 when none) |
| Grouping.GroupByTotal | server/routes/dashboard.js:41-44 | the grouped values add up to the sum of all amounts |
| Sorting.SortDesc | server/routes/expenses.js:13 | `sort({ date: -1 })` returns a permutation of its input |
| Sorting.SortDescSorted | server/routes/expenses.js:13 | the sorted list is in descending order of the key |
| Sorting.InsertDescSorted | server/routes/expenses.js:13 | inserting into a descending list keeps it descending and adds only the new element |
| Sorting.TopN | server/routes/dashboard.js:68 | `slice(0, n)` of a descending list has at most n elements, none smaller than any left out |
| Store.IndexOf | server/routes/budgets.js:103-104 | `findById` finds an index holding the id, or reports that none does |
| Store.IndexOfUnique | server/routes/budgets.js:103 | with unique ids, the index found is the only one holding the id |
| Store.Without | server/routes/budgets.js:133 | `deleteOne` keeps exactly the documents whose id differs |
| Store.WithoutRemovesOne | server/routes/budgets.js:133 | with unique ids, deleting one id removes exactly that position and keeps the order of the rest |
| Store.FilterUnique | server/routes/budgets.js:13 | a filtered collection keeps its ids unique |
| BudgetsRoute.WeeklyStart | server/routes/budgets.js:56-59 | the weekly window starts on the Sunday on or before now, at now's time of day, 0 to 6 days back |
| BudgetsRoute.MonthlyWindow | server/routes/budgets.js:60-62 | an expense falls in the monthly window exactly when it is in now's year and month and not after now |
| BudgetsRoute.QuarterlyWindow | server/routes/budgets.js:63-66 | the quarter starts at month `floor(m / 3) * 3`; an expense falls in the window exactly when it is in now's year and quarter and not after now |
| BudgetsRoute.YearlyWindow | server/routes/budgets.js:67-69 | an expense falls in the yearly window exactly when it is in now's year and not after now |
| BudgetsRoute.CalendarWindow | server/routes/budgets.js:61 | a window opening at midnight of month m0's 1st and closing at now holds exactly this year's instants from m0 on, not after now |
| BudgetsRoute.UnknownPeriodIsMonthly | server/routes/budgets.js:70-71 | any period outside the four known ones gets the monthly start |
| BudgetsRoute.WindowOrdered | server/routes/budgets.js:54-79 | every period's start is no later than the end of the window |
| BudgetsRoute.RecalculatedFrame | server/routes/budgets.js:85-89 | recalculation changes only `spent`, and only in the requesting user's budgets |
| BudgetsRoute.RecalculatedIdempotent | server/routes/budgets.js:39-98 | recalculating twice with the same expenses and clock is recalculating once |
| BudgetsRoute.SpentForAppend | server/routes/budgets.js:75-82 | one more expense adds its amount to `spent` exactly when it has the user, the category and a date in the window |
| BudgetsRoute.RefreshedAllIsFiltered | server/routes/budgets.js:91-94 | the response lists, in order, the stored budgets of the user after the update |
| BudgetsRoute.RefreshStep | server/routes/budgets.js:85-91 | one iteration writes the budget's new `spent` into its stored document and pushes that document |
| BudgetsRoute.RefreshFinished | server/routes/budgets.js:50-92 | when the loop ends the collection is the recalculated one and the ids stay unique |
| BudgetsRoute.LoadedIsStored | server/routes/budgets.js:44-50 | every budget the loop visits is stored under the same id |
| BudgetsRoute.RefreshedAllAppend | server/routes/budgets.js:91 | `results.push` appends the refreshed budget |
| BudgetsRoute.NewBudget | server/models/Budget.js:4-26 | a new budget validates exactly when the category is non-empty, the amount is given and the period is absent or one of the four; `spent` defaults to 0, the period to `Monthly`, the user to the demo user |
| BudgetsRoute.CreateDefaults | server/routes/budgets.js:22-28 | a body with only category and amount creates a monthly budget with nothing spent for the demo user |
| BudgetsRoute.Patched | server/routes/budgets.js:114-118 | a PUT overwrites exactly the fields present in the body and keeps the id and the rest |
| BudgetsRoute.PutReachesDefaultPeriod | server/routes/budgets.js:114-118 | the PUT does not run the schema's enum check, so a period such as `Daily` is stored and `/calculate` then treats it as monthly |
| BudgetsRoute.BudgetCollection.constructor | server/models/Budget.js:4-26 | the collection starts empty with unique ids |
| BudgetsRoute.BudgetCollection.List | server/routes/budgets.js:8-18 | GET / returns, in stored order, exactly the budgets of the user |
| BudgetsRoute.BudgetCollection.Create | server/routes/budgets.js:21-36 | POST appends the new budget and answers 201, or answers 400 and stores nothing |
| BudgetsRoute.BudgetCollection.Get | server/routes/budgets.js:101-109 | GET /:id answers the stored budget with that id, or 404 exactly when none has it |
| BudgetsRoute.BudgetCollection.Update | server/routes/budgets.js:112-125 | PUT replaces the budget with its patched version in place, or answers 404 and changes nothing |
| BudgetsRoute.BudgetCollection.Delete | server/routes/budgets.js:128-138 | DELETE removes exactly the budget with that id, or answers 404 and changes nothing |
| BudgetsRoute.BudgetCollection.Calculate | server/routes/budgets.js:39-98 | `/calculate` leaves the collection recalculated for the user and answers with the user's refreshed budgets in stored order |
| SavingsRoute.NewGoal | server/models/SavingsGoal.js:4-25 | a new goal validates exactly when the name is non-empty and the target and deadline are given; `currentAmount` defaults to 0, the user to the demo user |
| SavingsRoute.CreateDefaults | server/routes/savings.js:20-35 | a body without a current amount or user id creates a goal with nothing saved for the demo user |
| SavingsRoute.GoalPatched | server/routes/savings.js:54-57 | PUT sets the name, target and deadline only when truthy, but the current amount whenever present, and keeps id and user |
| SavingsRoute.ZeroAmountsAsymmetric | server/routes/savings.js:55-56 | a current amount of 0 is written but a target of 0 is ignored |
| SavingsRoute.Contributed | server/routes/savings.js:77 | a contribution raises `currentAmount` by exactly the amount and changes nothing else |
| SavingsRoute.ContributionUncapped | server/routes/savings.js:73-77 | a goal already at its target can be pushed past it |
| SavingsRoute.ContributionsAdd | server/routes/savings.js:77 | two contributions equal one of their sum |
| SavingsRoute.GoalCollection.constructor | server/models/SavingsGoal.js:4-25 | the collection starts empty with unique ids |
| SavingsRoute.GoalCollection.List | server/routes/savings.js:7-17 | GET / returns exactly the user's goals in stored order |
| SavingsRoute.GoalCollection.Create | server/routes/savings.js:20-35 | POST appends the new goal and answers 201, or answers 400 and stores nothing |
| SavingsRoute.GoalCollection.Get | server/routes/savings.js:38-46 | GET /:id answers the goal with that id, or 404 exactly when none has it |
| SavingsRoute.GoalCollection.Update | server/routes/savings.js:49-64 | PUT replaces the goal with its patched version in place, or answers 404 |
| SavingsRoute.GoalCollection.Contribute | server/routes/savings.js:67-84 | contribute answers 404 for an unknown id, 400 for an amount that is not a positive number, and otherwise stores and answers the goal with the amount added |
| SavingsRoute.GoalCollection.Delete | server/routes/savings.js:87-97 | DELETE removes exactly the goal with that id, or answers 404 |
| ExpensesRoute.NewExpense | server/models/Expense.js:3-24 | a new expense validates exactly when category and description are non-empty and the amount is given; the date defaults to now |
| ExpensesRoute.CreateDefaultUser | server/routes/expenses.js:26 | a missing or empty user id stores the expense for the demo user |
| ExpensesRoute.ExpensePatched | server/routes/expenses.js:52-55 | PUT sets each of category, amount, date and description only when the new value is truthy, and keeps id and user |
| ExpensesRoute.FalsyPatchKeeps | server/routes/expenses.js:52-55 | an empty category or description and an amount of 0 leave the expense unchanged |
| ExpensesRoute.ExpenseCollection.constructor | server/models/Expense.js:3-24 | the collection starts empty with unique ids |
| ExpensesRoute.ExpenseCollection.List | server/routes/expenses.js:7-18 | GET / returns exactly the user's expenses, newest first |
| ExpensesRoute.ExpenseCollection.Create | server/routes/expenses.js:20-35 | POST appends the new expense and answers 201, or answers 400 and stores nothing |
| ExpensesRoute.ExpenseCollection.Get | server/routes/expenses.js:37-45 | GET /:id answers the expense with that id, or 404 exactly when none has it |
| ExpensesRoute.ExpenseCollection.Update | server/routes/expenses.js:47-62 | PUT replaces the expense with its patched version in place, or answers 404 |
| ExpensesRoute.ExpenseCollection.Delete | server/routes/expenses.js:64-74 | DELETE removes exactly the expense with that id, or answers 404 |
| DashboardRoute.MonthWindowExcludesLastDay | server/routes/dashboard.js:14-15 | the summary's month window ends at midnight of the last day, so expenses later that day are left out of the month |
| DashboardRoute.SummaryTrends | server/routes/dashboard.js:47-65 | the loop yields six points, the k-th holding the total of the expenses in the month five minus k months back |
| DashboardRoute.SummaryTrendMonths | server/routes/dashboard.js:49 | the last point is the current month and each point is the month after the one before it |
| DashboardRoute.SixMonthTrendMonths | server/routes/dashboard.js:47-65 | a six-point trend built by the loop ends with the current month and steps one calendar month at a time, across year ends |
| DashboardRoute.GetSummary | server/routes/dashboard.js:8-104 | the summary's totals, percentages (0 for a zero total), counts, category breakdown (summing to the monthly total), six trend points, oldest first, for consecutive months ending with this one, each holding that month's expense total, and ten most recent transactions (newest first) are those of the user's documents |
| DashboardRoute.MonthsFor | server/routes/dashboard.js:110-119 | the trends cover 12 months exactly for `1year` and 6 for any other or no period |
| DashboardRoute.GetTrends | server/routes/dashboard.js:107-152 | `/trends` answers one entry per month ending with the current one, each with that month's total, per-category sums and count for the user |
| DashboardRoute.TrendSeries | server/routes/dashboard.js:121-145 | the loop builds the months in order, and each entry's category sums add up to its total |
| DashboardRoute.MonthTrendBalanced | server/routes/dashboard.js:132-136 | a month's category sums add up to its total |
| Percent.ClampedAtMost100 | src/components/BudgetProgress.tsx:18-20 | `Math.min(Math.round(spent / amount * 100), 100)` never exceeds 100, is whole when finite, and is NaN for 0/0 and -Infinity for a negative over 0 |
| Percent.ClampedInRange | src/components/BudgetOverview.tsx:98-103 | for a positive amount and non-negative spending the figure is the rounded percentage capped at 100, and exactly 100 once spending reaches the amount |
| Percent.ClampedMonotone | src/components/BudgetProgress.tsx:18-20 | spending more never lowers the figure |
| Percent.GuardedPercentage | server/routes/dashboard.js:81 | `total > 0 ? part / total * 100 : 0` times the total is the part times 100, and 0 for a non-positive total |
| Percent.GuardedUnclamped | server/routes/dashboard.js:84 | the dashboard's percentages are not capped: overspending shows above 100 |
| Percent.GuardedHalf | src/components/SavingsGoalsList.tsx:37-51 | the percentage is at least 50 exactly when twice the part reaches the whole |
| Percent.BandOf | src/components/BudgetProgress.tsx:49-53 | a bar is red above 90, yellow above 75 and green otherwise, NaN included |
| Percent.BandsNest | src/components/BudgetOverview.tsx:98-103 | above 100 implies above 90, and above 90 implies above 75 |
| BudgetProgress.BarFor | src/components/BudgetProgress.tsx:36-55 | each bar shows the capped percentage of its budget and the band for that percentage |
| BudgetProgress.ViewOf | src/components/BudgetProgress.tsx:30-55 | the empty message shows exactly when there are no budgets, otherwise one bar per budget in order |
| BudgetProgress.BarInRange | src/components/BudgetProgress.tsx:18-20 | for a positive amount the bar lies in 0..100, grows with spending, and is red exactly above 90 |
| BudgetProgress.ZeroAmountBar | src/components/BudgetProgress.tsx:18-20 | a zero-amount budget shows a NaN green bar when nothing is spent and a full red one otherwise |
| BudgetOverview.RowFor | src/components/BudgetOverview.tsx:98-103 | each row's percentage is capped, its over/near/warning flags are thresholds on it, and remaining is `Math.max(amount - spent, 0)` |
| BudgetOverview.TotalsFor | src/components/BudgetOverview.tsx:33-35 | the totals add up amounts and spending, round the overall percentage (0 without a budget), and raise the alert exactly above 90 |
| BudgetOverview.ViewOf | src/components/BudgetOverview.tsx:56-62 | the empty message shows exactly when there are no budgets, otherwise the totals and one row per budget |
| BudgetOverview.OverBudgetUnreachable | src/components/BudgetOverview.tsx:140-144 | because the row percentage is capped at 100, no row is ever flagged over budget, so the "Over budget by" line never shows |
| BudgetOverview.FlagsNest | src/components/BudgetOverview.tsx:101-103 | a row near its limit is also a warning, and an over-budget row is also near its limit |
| BudgetOverview.OverspendShown | src/components/BudgetOverview.tsx:80-92 | an overspent budget shows a full bar with nothing remaining, while the totals go negative and raise the alert |
| BudgetManager.AddRequest | src/components/BudgetManager.tsx:53-55 | the add request carries the draft's fields with `spent: 0` and no user id |
| BudgetManager.AcceptedDraftIsStored | src/components/BudgetManager.tsx:136-147 | a draft the form sends (category set, positive amount, known period) is stored by the server as given, with nothing spent, for the demo user |
| BudgetManager.BudgetForm.constructor | src/components/BudgetManager.tsx:19-26 | the form starts with an empty draft and no budget being edited |
| BudgetManager.BudgetForm.ResetForm | src/components/BudgetManager.tsx:127-134 | reset empties the draft and the edited budget but leaves the editing flag alone |
| BudgetManager.BudgetForm.HandleAdd | src/components/BudgetManager.tsx:136-147 | add sends the request exactly when the draft has a category and a positive amount |
| BudgetManager.BudgetForm.AddSucceeded | src/components/BudgetManager.tsx:56-63 | a successful add resets the form |
| BudgetManager.BudgetForm.HandleUpdate | src/components/BudgetManager.tsx:149-160 | update sends the edited budget exactly when there is one with a category and a positive amount |
| BudgetManager.BudgetForm.UpdateSucceeded | src/components/BudgetManager.tsx:79-87 | a successful update resets the form and leaves editing mode |
| BudgetManager.BudgetForm.HandleEdit | src/components/BudgetManager.tsx:168-173 | edit loads the budget into the edit form and enters editing mode |
| BudgetManager.BudgetForm.HandleCancelEdit | src/components/BudgetManager.tsx:175-178 | cancel drops the edited budget and leaves editing mode |
| BudgetManager.BudgetForm.HandleInputChange | src/components/BudgetManager.tsx:180-194 | a field change goes to the edited budget when editing one, otherwise to the draft, and touches nothing else |
| BudgetManager.BudgetForm.HandleCategoryChange | src/components/BudgetManager.tsx:196-208 | a category choice goes to the edited budget when editing one, otherwise to the draft |
| BudgetManager.BudgetForm.HandlePeriodChange | src/components/BudgetManager.tsx:210-222 | a period choice goes to the edited budget when editing one, otherwise to the draft |
| BudgetManager.DraftAssigned | src/components/BudgetManager.tsx:180-194 | `amount` takes `parseFloat(value) \|\| 0`, the other named fields take the text, and any other name changes nothing |
| BudgetManager.Assigned | src/components/BudgetManager.tsx:180-194 | the same assignment on an edited budget keeps its id, spending and user |
| BudgetManager.UnparsableAmountRefused | src/components/BudgetManager.tsx:183-186 | text that does not parse sets the amount to 0, which the add guard then refuses |
| BudgetManager.CalculatePercentage | src/components/BudgetManager.tsx:224-226 | the editor's percentage never exceeds 100 |
| BudgetManager.StatusFor | src/components/BudgetManager.tsx:366 | the status reads "Limit approaching" exactly when the percentage is at least 90, otherwise the percentage left |
| BudgetManager.RemainingAtLeast11 | src/components/BudgetManager.tsx:366 | when the status shows a percentage left, it is at least 11 |
| SummaryCards.CardsFor | src/components/SummaryCards.tsx:35-61 | the figures behind the three cards; the computed goal count, which no card renders, is the number of goals, funded or not |
| SummaryCards.MonthTotalStep | src/components/SummaryCards.tsx:41-46 | one more expense adds its amount to the month card exactly when it is dated in the current calendar month |
| SummaryCards.CardTotalsStep | src/components/SummaryCards.tsx:49-53 | the budget card adds up budget amounts and the savings card adds up amounts saved, not targets |
| SummaryCards.EmptyCards | src/components/SummaryCards.tsx:35-61 | with nothing fetched every card shows 0 |
| SummaryCards.FundedGoalsStillActive | src/components/SummaryCards.tsx:59 | the computed but unrendered `activeGoals` count includes goals already at their target |
| SummaryCards.SumFilterMonotone | src/components/SummaryCards.tsx:46 | for non-negative amounts, a filter that keeps more sums to at least as much |
| SummaryCards.CardCoversDashboardWindow | src/components/SummaryCards.tsx:37-44 | the card's month total is never below the dashboard route's, whose window stops at midnight of the last day |
| SummaryCards.LastDayDiffers | src/components/SummaryCards.tsx:38 | an expense at noon on the month's last day counts on the card but not in the route's summary |
| ExpensesTable.Lower | src/components/ExpensesTable.tsx:59 | `toLowerCase` keeps the length and lowers each character |
| ExpensesTable.LowerIdempotent | src/components/ExpensesTable.tsx:59 | lowering twice is lowering once |
| ExpensesTable.Contains | src/components/ExpensesTable.tsx:59-61 | `includes` holds exactly when the text occurs at some position |
| ExpensesTable.RecurringMeaning | src/components/ExpensesTable.tsx:57-62 | an expense is recurring exactly when its lowered description contains `subscription`, `bill` or `monthly`, whatever the case |
| ExpensesTable.SubstringNotWord | src/components/ExpensesTable.tsx:60 | the test matches inside words: "Billboard rental" counts as recurring |
| ExpensesTable.Annotated | src/components/ExpensesTable.tsx:57-62 | every expense gets a row with its recurring flag, in order |
| ExpensesTable.HoursDiffBound | src/components/ExpensesTable.tsx:72-73 | `abs(now - date) / 36e5 <= 48` is the two-day test on either side of now |
| ExpensesTable.TableRows | src/components/ExpensesTable.tsx:65-77 | a row is shown exactly when it is recurring if asked and within 48 hours if asked |
| ExpensesTable.TableRowsSorted | src/components/ExpensesTable.tsx:77 | the rows come out newest first |
| ExpensesTable.NoFlagsKeepsAll | src/components/ExpensesTable.tsx:65-77 | without filters the table shows every expense once |
| RecentTransactions.SortNewestFirst | src/components/RecentTransactions.tsx:27-28 | `sort` rearranges the fetched array in place, newest first |
| RecentTransactions.SortInPlace | src/components/RecentTransactions.tsx:28 | the in-place sort leaves the array descending by the key and a permutation of before |
| RecentTransactions.Sink | src/components/RecentTransactions.tsx:28 | one insertion step extends the sorted prefix by one element without losing any |
| RecentTransactions.RecentExpenses | src/components/RecentTransactions.tsx:27-29 | the card shows the first five of the sorted array (fewer when there are fewer), newest first, none older than any left out |
| RecentTransactions.LabelFor | src/components/RecentTransactions.tsx:19-24 | the date reads "Today" on today's date, "Yesterday" on the day before, and month and day otherwise |
| RecentTransactions.LabelByDayNumber | src/components/RecentTransactions.tsx:19-24 | "Today" and "Yesterday" are exactly a day difference of 0 and 1 |
| RecentTransactions.CardFor | src/components/RecentTransactions.tsx:39-79 | the empty message shows exactly when nothing is shown, otherwise one labelled row per expense |
| RecentTransactions.RenderCard | src/components/RecentTransactions.tsx:27-79 | the card is empty exactly when there are no expenses and otherwise lists at most five, newest first |
| ExpenseChart.Lookup | src/components/ExpenseChart.tsx:52-55 | a key is found in the month object exactly when it is one of its fields |
| ExpenseChart.AssignLookup | src/components/ExpenseChart.tsx:54 | assigning a key overwrites that key and leaves the others |
| ExpenseChart.SpreadLookup | src/components/ExpenseChart.tsx:52-55 | spreading the category sums into the month object gives each category its sum and leaves other keys alone |
| ExpenseChart.SpreadKeepsFirst | src/components/ExpenseChart.tsx:52-55 | `name` stays the first key after the spread |
| ExpenseChart.MonthBarSpec | src/components/ExpenseChart.tsx:36-55 | each month bar has `name` first and, for every category spent on that month, that category's sum |
| ExpenseChart.EmptyMonthBar | src/components/ExpenseChart.tsx:52-55 | a month without expenses has only its name |
| ExpenseChart.ChartData | src/components/ExpenseChart.tsx:29-59 | no data gives no bars; otherwise six bars, the i-th for the month 5 - i months back |
| ExpenseChart.ChartMonths | src/components/ExpenseChart.tsx:36-37 | the bars run over consecutive months ending with the current one |
| ExpenseChart.Categories | src/components/ExpenseChart.tsx:62-72 | the stacked bars are the distinct non-`name` keys of all months, each once |
| ExpenseBreakdown.Colored | src/components/ExpenseBreakdown.tsx:41-45 | the i-th category gets `COLORS[i % 8]` |
| ExpenseBreakdown.ChartData | src/components/ExpenseBreakdown.tsx:20-47 | no expenses give no slices, and there are never more slices than expenses |
| ExpenseBreakdown.ChartSlices | src/components/ExpenseBreakdown.tsx:28-46 | the slices are the coloured category sums of this month, sorted, with distinct names |
| ExpenseBreakdown.ChartDataOrdered | src/components/ExpenseBreakdown.tsx:46 | the slices come out largest first with distinct names |
| ExpenseBreakdown.ChartDataNames | src/components/ExpenseBreakdown.tsx:34-42 | the slice names are exactly the categories spent on this month |
| ExpenseBreakdown.ChartDataTotal | src/components/ExpenseBreakdown.tsx:34-46 | the slices add up to this month's spending |
| ExpenseBreakdown.ChartDataValues | src/components/ExpenseBreakdown.tsx:34-37 | each slice's value is the sum of this month's expenses in its category |
| ExpenseBreakdown.ColorByFirstAppearance | src/components/ExpenseBreakdown.tsx:40-46 | a slice's colour comes from its category's first-appearance position, before the sort |
| ExpenseBreakdown.PaletteRepeats | src/components/ExpenseBreakdown.tsx:7 | the palette repeats its first two colours, so the 7th and 8th categories look like the 1st and 2nd |
| ExpenseBreakdown.SumSortDesc | src/components/ExpenseBreakdown.tsx:46 | sorting keeps the total |
| SavingsGoals.GoalsForm.constructor | src/components/SavingsGoals.tsx:19-26 | the form starts with an empty draft due on the given default deadline and no contribution |
| SavingsGoals.GoalsForm.HandleAdd | src/components/SavingsGoals.tsx:88-99 | add sends the draft exactly when it has a name and a positive target |
| SavingsGoals.GoalsForm.AddSucceeded | src/components/SavingsGoals.tsx:48-53 | a successful add resets the draft and keeps the contribution |
| SavingsGoals.GoalsForm.HandleInputChange | src/components/SavingsGoals.tsx:101-114 | a field change assigns the draft field and leaves the contribution |
| SavingsGoals.GoalsForm.HandleContributionChange | src/components/SavingsGoals.tsx:116-121 | the amount becomes `parseFloat(value) \|\| 0` and the goal stays selected |
| SavingsGoals.GoalsForm.HandleSelectGoal | src/components/SavingsGoals.tsx:123-128 | selecting a goal resets the amount to 0 |
| SavingsGoals.GoalsForm.HandleContribute | src/components/SavingsGoals.tsx:130-141 | the contribution is sent exactly when a goal is selected and the amount is positive |
| SavingsGoals.GoalsForm.ContributeSucceeded | src/components/SavingsGoals.tsx:76 | a successful contribution clears the selection and amount |
| SavingsGoals.DraftAssigned | src/components/SavingsGoals.tsx:101-114 | the amounts take `parseFloat(value) \|\| 0`, name and deadline take the text, other names change nothing |
| SavingsGoals.SentDraftStored | src/components/SavingsGoals.tsx:98 | a draft the form sends is stored by the server with its name, amounts and deadline |
| SavingsGoals.CalculatePercentage | src/components/SavingsGoals.tsx:143-145 | the percentage never exceeds 100 and is 100 once the target is reached |
| SavingsGoals.TimeRemaining | src/components/SavingsGoals.tsx:147-156 | the text is "Deadline passed", "Due today", "1 day remaining" or "n days remaining" by the rounded-up day count |
| SavingsGoals.TimeRemainingThresholds | src/components/SavingsGoals.tsx:150-154 | in milliseconds: passed at a full day or more behind, due today within the day before, one day within the day after |
| GoalCards.CardFor | src/components/GoalCards.tsx:85-104 | a card's percentage is current over target times 100 (0 without a target), uncapped, and shown rounded |
| GoalCards.ViewOf | src/components/GoalCards.tsx:74-84 | the empty message shows exactly when there are no goals, otherwise one card per goal |
| GoalCards.OverFundedAbove100 | src/components/GoalCards.tsx:85 | an over-funded goal shows more than 100% |
| GoalCards.ContributionRaisesPercentage | src/components/GoalCards.tsx:85 | a contribution raises the card's percentage by exactly amount over target times 100 |
| GoalCards.ContributionDialog.constructor | src/components/GoalCards.tsx:16-17 | the dialog starts with no text and no goal |
| GoalCards.ContributionDialog.SelectGoal | src/components/GoalCards.tsx:113 | opening a card's dialog selects its goal and keeps the text |
| GoalCards.ContributionDialog.TextChanged | src/components/GoalCards.tsx:137-138 | typing sets the text and keeps the goal |
| GoalCards.ContributionDialog.HandleContribute | src/components/GoalCards.tsx:52-64 | the contribution is sent exactly when a goal is selected and the text parses to a positive number |
| GoalCards.ContributionDialog.ContributeSucceeded | src/components/GoalCards.tsx:39-40 | a successful contribution clears the text and the goal |
| GoalCards.ContributionDialog.Cancel | src/components/GoalCards.tsx:146 | cancel clears the text but keeps the goal selected |
| SavingsGoalsList.LineFor | src/components/SavingsGoalsList.tsx:37-53 | each line shows the rounded percentage, green exactly from 50% |
| SavingsGoalsList.SameFigureAsCards | src/components/SavingsGoalsList.tsx:37 | the list and the cards show the same percentage |
| SavingsGoalsList.GreenMeaning | src/components/SavingsGoalsList.tsx:51 | a line is green exactly when the goal has a target and is at least half funded |
| SavingsGoalsList.ViewOf | src/components/SavingsGoalsList.tsx:26-36 | the empty message shows exactly when there are no goals, otherwise one line per goal |
| SectionBuilder.PointsOrZero | src/components/SectionEditor.tsx:50 | `section.points \|\| 0` is the points, or 0 when there are none |
| SectionBuilder.NewSection | src/components/SectionBuilder.tsx:18-23 | a new section is empty, worth 0 points, and has id `section-` followed by the clock |
| SectionBuilder.AddNewSection | src/components/SectionBuilder.tsx:17-25 | adding appends one new section and keeps the others |
| SectionBuilder.Edited | src/components/SectionBuilder.tsx:29 | an edit changes exactly the one field and keeps the id |
| SectionBuilder.PointsEdit | src/components/SectionBuilder.tsx:102 | the points field takes `parseInt(value) \|\| 0` |
| SectionBuilder.UpdateSection | src/components/SectionBuilder.tsx:27-32 | every section with the id is edited, and the others and the length are kept |
| SectionBuilder.UpdateKeepsIds | src/components/SectionBuilder.tsx:27-32 | updating never changes an id |
| SectionBuilder.UpdateAbsent | src/components/SectionBuilder.tsx:27-32 | updating an id no section has changes nothing |
| SectionBuilder.SameMillisecondEditedTogether | src/components/SectionBuilder.tsx:19 | two sections added in the same millisecond share an id, so editing one edits both |
| SectionBuilder.DeleteSection | src/components/SectionBuilder.tsx:34-37 | delete keeps exactly the sections with another id |
| SectionBuilder.DeleteIdempotent | src/components/SectionBuilder.tsx:34-37 | deleting twice is deleting once |
| SectionBuilder.DeleteAbsent | src/components/SectionBuilder.tsx:34-37 | deleting an id no section has changes nothing |
| SectionBuilder.DeleteSplits | src/components/SectionBuilder.tsx:35 | delete works on each part of a list separately |
| SectionBuilder.SameMillisecondDeletedTogether | src/components/SectionBuilder.tsx:19 | deleting one of two sections added in the same millisecond deletes both |
| SectionBuilder.CardHeading | src/components/SectionBuilder.tsx:62 | the i-th card is headed "Section i+1" |
| SectionBuilder.Notice | src/components/SectionBuilder.tsx:53-57 | the empty notice shows exactly when there are no sections |
| SectionBuilder.AddClearsNotice | src/components/SectionBuilder.tsx:17-25 | after adding a section the notice is gone |
| SectionEditor.CardFor | src/components/SectionEditor.tsx:42-71 | the i-th card shows number i+1, a `points \|\| 0` badge and the "Section i+1" placeholder |
| SectionEditor.ViewOf | src/components/SectionEditor.tsx:35-42 | the empty notice shows exactly when there are no sections, otherwise one card per section |
| SectionEditor.NumberedWithoutGaps | src/components/SectionEditor.tsx:28-31 | after a delete the cards are still numbered 1, 2, … without gaps |
| SectionEditor.ZeroBadges | src/components/SectionEditor.tsx:50 | a new section and one without points both show "0 points" |
| AssignmentForm.TotalPointsAppend | src/components/AssignmentForm.tsx:34-36 | the points total of a concatenation is the sum of the parts |
| AssignmentForm.TextEditsKeepTotal | src/components/AssignmentForm.tsx:34-36 | title and content edits never change the points total |
| AssignmentForm.AddKeepsTotal | src/components/AssignmentForm.tsx:34-36 | adding a 0-point section keeps the total |
| AssignmentForm.ShownTotal | src/components/AssignmentForm.tsx:148 | `totalPoints \|\| calculateTotalPoints()` shows the set total when truthy, and the sections' sum when 0 or NaN |
| AssignmentForm.ShownTotalCases | src/components/AssignmentForm.tsx:148 | a NaN total falls back to the sum, a non-zero number is shown as is |
| AssignmentForm.Applied | src/components/AssignmentForm.tsx:26-28 | `updateAssignment` changes exactly the named field and keeps the sections |
| AssignmentForm.TotalPointsEdit | src/components/AssignmentForm.tsx:149 | the total-points input stores `parseInt(value) \|\| 0` |
| AssignmentForm.SectionHeading | src/components/AssignmentForm.tsx:62 | a block is headed by the section title, or "Section i+1" without one |
| AssignmentForm.PointsNote | src/components/AssignmentForm.tsx:63 | the points note appears exactly when the section has non-zero points |
| AssignmentForm.DescriptionPart | src/components/AssignmentForm.tsx:57-59 | the description paragraph appears exactly when there is a description |
| AssignmentForm.JoinedAppend | src/components/AssignmentForm.tsx:61-65 | the text of a concatenation of sections is the two texts joined, with numbering continued |
| AssignmentForm.CopyTextLayout | src/components/AssignmentForm.tsx:53-65 | the copy text starts with the title and due lines and ends with the section blocks |
| AssignmentForm.AddAppendsBlock | src/components/AssignmentForm.tsx:61-65 | adding a section appends exactly its block to the copy text |
| AssignmentForm.NewSectionBlock | src/components/AssignmentForm.tsx:62-64 | a new section's block is `--- Section n  ---` with two spaces, and then empty content |
| AssignmentForm.AppendBlocks | src/components/AssignmentForm.tsx:61-65 | the `forEach` loop appends the blocks of all sections |
| AssignmentForm.AppendPointsNote | src/components/AssignmentForm.tsx:63 | one loop step appends the points note |
| AssignmentForm.BuildCopyText | src/components/AssignmentForm.tsx:53-65 | the built text equals the specified copy text |
| AssignmentForm.FormDueText | src/components/AssignmentForm.tsx:49-51 | the due line reads "No due date" without a date, otherwise the locale date |
| AssignmentForm.Form.constructor | src/components/AssignmentForm.tsx:18-24 | the form starts with the empty assignment |
| AssignmentForm.Form.UpdateAssignment | src/components/AssignmentForm.tsx:26-28 | an edit applies to the stored assignment |
| AssignmentForm.Form.HandleSectionUpdate | src/components/AssignmentForm.tsx:30-32 | the section list is replaced and the rest kept |
| AssignmentForm.Form.HandleCopy | src/components/AssignmentForm.tsx:47-65 | the clipboard receives the copy text of the current assignment |
| AssignmentCreator.IsoDateRoundTrip | src/pages/AssignmentCreator.tsx:60 | the `yyyy-mm-dd` text of a date with a four-digit year parses back to that date |
| AssignmentCreator.IsoDateCanonical | src/pages/AssignmentCreator.tsx:60 | a `yyyy-mm-dd` text that parses to a valid date is the text of that date |
| AssignmentCreator.PadThenRead | src/pages/AssignmentCreator.tsx:60 | zero-padded digits read back as the number |
| AssignmentCreator.ReadThenPad | src/pages/AssignmentCreator.tsx:60 | reading digits and padding to the same width gives the digits back |
| AssignmentCreator.InputEdit | src/pages/AssignmentCreator.tsx:47-53 | `totalPoints` stores `Number(value)`, the three text fields store the text, and any other name stores nothing |
| AssignmentCreator.CreatorDueText | src/pages/AssignmentCreator.tsx:84 | without a date the due line reads "No due date", otherwise the formatted date (or nothing, when formatting throws) |
| AssignmentCreator.Creator.constructor | src/pages/AssignmentCreator.tsx:38-45 | the creator starts with the empty assignment and no picked date |
| AssignmentCreator.Creator.HandleInputChange | src/pages/AssignmentCreator.tsx:47-53 | an input change applies its edit and keeps the picked date |
| AssignmentCreator.Creator.HandleDateSelect | src/pages/AssignmentCreator.tsx:55-63 | picking a date stores it and sets the due date to its ISO text; clearing the picker keeps the due date |
| AssignmentCreator.Creator.AddSection | src/pages/AssignmentCreator.tsx:186-193 | "Add Section" appends one new section |
| AssignmentCreator.Creator.HandleSectionUpdate | src/pages/AssignmentCreator.tsx:65-67 | the section list is replaced and the rest kept |
| AssignmentCreator.Creator.HandleCopy | src/pages/AssignmentCreator.tsx:81-95 | the clipboard receives the copy text with the formatted due date, or nothing when formatting throws |
| AssignmentCreator.PickedDateReadsBack | src/pages/AssignmentCreator.tsx:55-63 | after picking a date the due-date field reads back as that date |
| AssignmentPreview.TitleOf | src/components/AssignmentPreview.tsx:31 | the title, or "Untitled Assignment" without one |
| AssignmentPreview.CalculateTotalPoints | src/components/AssignmentPreview.tsx:17-23 | the `forEach` loop totals the sections' points |
| AssignmentPreview.PointsLabel | src/components/AssignmentPreview.tsx:60-64 | the points label appears exactly for positive points |
| AssignmentPreview.PreviewOf | src/components/AssignmentPreview.tsx:13-77 | the preview shows title, due text, shown total, description, one section per section, and the placeholder exactly when there are no sections and no description; it fails when the date cannot be formatted |
| AssignmentPreview.Render | src/components/AssignmentPreview.tsx:12-81 | rendering with the loop total gives the specified preview |
| AssignmentPreview.PlaceholderOnlyWhenEmpty | src/components/AssignmentPreview.tsx:73-77 | the placeholder shows exactly when nothing else would |
| AssignmentPreview.NegativePointsOnlyCopied | src/components/AssignmentPreview.tsx:60 | negative points are noted in the copy text but get no label in the preview |
| AssignmentPreviewModal.FormattedDate | src/components/AssignmentPreviewModal.tsx:32-38 | the date reads "No due date", the formatted date, or "Invalid date" when formatting throws |
| AssignmentPreviewModal.ModalOf | src/components/AssignmentPreviewModal.tsx:40-93 | the modal shows title, date, shown total, description, one section per section, and the notice exactly when there are no sections |
| AssignmentPreviewModal.AgreesWithPreview | src/components/AssignmentPreviewModal.tsx:49-82 | the modal and the inline preview agree on title, date, total, headings and badges |
| AssignmentPreviewModal.NoticeIgnoresDescription | src/components/AssignmentPreviewModal.tsx:70-93 | the modal's notice depends on the sections alone, unlike the inline placeholder |

## Left out

- HTTP, Mongoose and React Query: every handler runs against the collection in memory. Network failures and the 500 answers of the `catch` branches are not modelled.
- Mongoose cast errors: a malformed id or value answers 400 or 500 in the server. Here ids are plain strings and values are typed.
- Concurrency: `Promise.all` and overlapping requests are not modelled. The `/calculate` loop runs sequentially in the model.
- Floating point: amounts are exact reals. Rounding of sums and `toFixed`/`toLocaleString` formatting are not modelled.
- Time zones: instants are local calendar dates. `toISOString`'s UTC conversion in `handleDateSelect` is taken as the local date.
- Formatting and parsing: `date-fns` `format`, `toLocaleDateString`, `parseFloat` and `parseInt` are parameters. They are passed as a function or as a parsed `Option`.
- `Js.NatToString`: it does not model JavaScript's exponent notation for numbers of 21 digits or more.
- Locale-dependent lowercasing: only ASCII letters are lowered.
- Browser services: `window.confirm`, toasts, dialogs opening and closing, tabs, loading and error states, and the clipboard's asynchronous write are not modelled.
- `handleSaveAssignment`: it only shows a toast, so it is not modelled.
- ExpensesTable: the edit dialog, `handleDelete` and the empty-table message text are not modelled.
- Month names: the month labels (`toLocaleString('default', { month: 'short' })`, `format(monthDate, 'MMM')`) are kept as month numbers.
- `DashboardRoute.GetSummary`: the `recentTransactions` entries keep the whole expense rather than its five-field projection.
- `SummaryCards.CardsFor`: it computes `totalSpent` (SummaryCards.tsx:50), which no card shows, so it is dropped. `activeGoals` (SummaryCards.tsx:59) is shown on no card either; it is kept because it is part of the returned figures.
- Clock: `Date.now()` and `new Date()` are parameters.
- `BudgetsRoute.BudgetCollection.Calculate`: one clock reading, `end`, closes every budget's window, while budgets.js:52 reads `new Date()` once per budget. An expense dated between two of those readings, counted for a later budget and not an earlier one, is not modelled; nor is `now` tied to `end`.
- `AssignmentForm.CopyText`: the total points line converts a JS number to text with the `numText` parameter. Number-to-text for fractional and infinite values is not modelled.
- `ExpenseChart.Categories`: the order in which the `Set` yields the categories is not stated; only that each appears once.
- Object and sort order: JavaScript objects list integer-like keys first, in ascending order, and `acc[key] || 0` finds inherited keys such as `constructor`, turning the sum into string concatenation; `Grouping` keeps plain first-appearance order and sums. Mongo's `sort({ date: -1 })` leaves the order of equal dates unspecified, while `Sorting.SortDesc` fixes a stable order.
- Fetch errors: the sample-data fallback message is not modelled.
- Aliasing: `RecentTransactions.SortNewestFirst` sorts the array it is handed. The sharing of that array with the query cache and other components is not modelled.
