/**
 * The budget routes: listing and creating budgets with their defaults,
 * fetching, updating and deleting by id, and `/calculate`, which recomputes
 * every loaded budget's cached `spent` from the expenses of its period.
 */
module BudgetsRoute {
  import opened Js
  import opened Calendar
  import opened Folds
  import opened Store
  import opened Records

  /** The values the schema's `period` enum admits on creation. */
  const Periods: seq<string> := ["Weekly", "Monthly", "Quarterly", "Yearly"]

  // ---------------------------------------------------------------------
  // Period windows
  // ---------------------------------------------------------------------

  /**
   * The start of a budget's window, given the instant read before the loop.
   * Weekly goes back `getDay()` days and keeps the time of day; every value
   * that is not one of the other three cases falls back to the month start.
   */
  function PeriodStart(period: string, now: Instant): Instant
  {
    var y, m := now.date.year, now.date.month;
    match period
    case "Weekly" => Instant(DaysBack(now.date, Weekday(now.date)), now.msOfDay)
    case "Monthly" => Midnight(y, m, 1)
    case "Quarterly" => Midnight(y, (m / 3) * 3, 1)
    case "Yearly" => Midnight(y, 0, 1)
    case _ => Midnight(y, m, 1)
  }

  /** Day-number form of `Ticks(t) <= Ticks(now)` for instants within their day. */
  lemma TicksOrderDays(t: Instant, now: Instant)
    requires 0 <= t.msOfDay < MsPerDay && 0 <= now.msOfDay < MsPerDay
    ensures Ticks(t) <= Ticks(now) ==> DayNumber(t.date) <= DayNumber(now.date)
  {
    var a, b := DayNumber(t.date), DayNumber(now.date);
    if a > b {
      assert b * MsPerDay + MsPerDay <= a * MsPerDay;
    }
  }

  /**
   * A window that opens at midnight on the first of month `m0` of the current
   * year and closes now holds exactly the instants of this year, from month
   * `m0` on, that are not later than now.
   */
  lemma {:induction false} CalendarWindow(t: Instant, now: Instant, m0: int)
    requires ValidInstant(t) && ValidInstant(now)
    requires 0 <= m0 <= now.date.month
    ensures InTicks(t, Midnight(now.date.year, m0, 1), now)
            <==> t.date.year == now.date.year && m0 <= t.date.month && Ticks(t) <= Ticks(now)
  {
    var first := Date(now.date.year, m0, 1);
    TicksVersusMidnight(t, first);
    TicksOrderDays(t, now);
    DayNumberOrder(t.date, first);
    DayNumberOrder(now.date, t.date);
    var early := DateBefore(t.date, first);
    var late := DateBefore(now.date, t.date);
    assert early <==> t.date.year < now.date.year || (t.date.year == now.date.year && t.date.month < m0);
    assert !late ==> t.date.year <= now.date.year;
    FromMonthOn(Ticks(Midnight(now.date.year, m0, 1)) <= Ticks(t), Ticks(t) <= Ticks(now),
                DayNumber(t.date), DayNumber(first), DayNumber(now.date), early, late,
                t.date.year, now.date.year, t.date.month, m0);
  }

  /** The propositional core of `CalendarWindow`. */
  lemma FromMonthOn(lo: bool, hi: bool, a: int, f: int, n: int, early: bool, late: bool,
                    y: int, year: int, m: int, m0: int)
    requires lo <==> f <= a
    requires hi ==> a <= n
    requires a < f <==> early
    requires n < a <==> late
    requires early <==> y < year || (y == year && m < m0)
    requires !late ==> y <= year
    ensures lo && hi <==> y == year && m0 <= m && hi
  {
  }

  /**
   * The weekly window starts on the Sunday on or before now, 0 to 6 days
   * back, at now's time of day rather than at midnight.
   */
  lemma WeeklyStart(now: Instant)
    requires ValidInstant(now)
    ensures var s := PeriodStart("Weekly", now);
            ValidInstant(s) && Weekday(s.date) == 0 && s.msOfDay == now.msOfDay
            && Ticks(s) == Ticks(now) - Weekday(now.date) * MsPerDay
            && Ticks(now) - 6 * MsPerDay <= Ticks(s) <= Ticks(now)
  {
    var k := Weekday(now.date);
    var back := DaysBack(now.date, k);
    assert PeriodStart("Weekly", now) == Instant(back, now.msOfDay);
    DaysBackStep(now.date, k);
    SundayOnOrBefore(now.date, back, now.msOfDay);
  }

  /** A date `getDay()` days back is a Sunday, that many whole days earlier. */
  lemma SundayOnOrBefore(d: Date, back: Date, ms: int)
    requires DayNumber(back) == DayNumber(d) - Weekday(d)
    ensures Weekday(back) == 0
    ensures Ticks(Instant(back, ms)) == Ticks(Instant(d, ms)) - Weekday(d) * MsPerDay
    ensures Ticks(Instant(d, ms)) - 6 * MsPerDay <= Ticks(Instant(back, ms)) <= Ticks(Instant(d, ms))
  {
    var n, k := DayNumber(d), Weekday(d);
    SundayBack(n, k);
    BackTicks(n, k, ms);
  }

  /** Tick arithmetic for a start `k` days back at the same time of day. */
  lemma BackTicks(n: int, k: int, ms: int)
    requires 0 <= k < 7
    ensures (n - k) * MsPerDay + ms == n * MsPerDay + ms - k * MsPerDay
    ensures n * MsPerDay + ms - 6 * MsPerDay <= (n - k) * MsPerDay + ms <= n * MsPerDay + ms
  {
  }

  /** Stepping back `getDay()` days from day number `n` lands on a Sunday. */
  lemma SundayBack(n: int, k: int)
    requires k == (n + 4) % 7
    ensures (n - k + 4) % 7 == 0
  {
  }

  /** The Monthly window holds this month's instants up to now. */
  lemma MonthlyWindow(t: Instant, now: Instant)
    requires ValidInstant(t) && ValidInstant(now)
    ensures InTicks(t, PeriodStart("Monthly", now), now)
            <==> t.date.year == now.date.year && t.date.month == now.date.month && Ticks(t) <= Ticks(now)
  {
    assert PeriodStart("Monthly", now) == Midnight(now.date.year, now.date.month, 1);
    CalendarWindow(t, now, now.date.month);
    TicksOrderDays(t, now);
    DayNumberOrder(now.date, t.date);
    assert Ticks(t) <= Ticks(now) && t.date.year == now.date.year ==> t.date.month <= now.date.month;
  }

  /** The Quarterly window holds this quarter's instants up to now. */
  lemma QuarterlyWindow(t: Instant, now: Instant)
    requires ValidInstant(t) && ValidInstant(now)
    ensures var s := PeriodStart("Quarterly", now);
            s.date.month % 3 == 0 && s.date.month <= now.date.month < s.date.month + 3
    ensures InTicks(t, PeriodStart("Quarterly", now), now)
            <==> t.date.year == now.date.year && t.date.month / 3 == now.date.month / 3 && Ticks(t) <= Ticks(now)
  {
    var q := (now.date.month / 3) * 3;
    assert PeriodStart("Quarterly", now) == Midnight(now.date.year, q, 1);
    SameQuarter(t.date.month, now.date.month);
    CalendarWindow(t, now, q);
    TicksOrderDays(t, now);
    DayNumberOrder(now.date, t.date);
    assert Ticks(t) <= Ticks(now) && t.date.year == now.date.year ==> t.date.month <= now.date.month;
  }

  /** Months `a <= m` share a quarter exactly when `a` is not before the quarter's first month. */
  lemma SameQuarter(a: int, m: int)
    requires 0 <= a < 12 && 0 <= m < 12
    ensures a <= m ==> ((m / 3) * 3 <= a <==> a / 3 == m / 3)
    ensures (m / 3) * 3 <= m < (m / 3) * 3 + 3 && ((m / 3) * 3) % 3 == 0
  {
  }

  /** The Yearly window holds this year's instants up to now. */
  lemma YearlyWindow(t: Instant, now: Instant)
    requires ValidInstant(t) && ValidInstant(now)
    ensures InTicks(t, PeriodStart("Yearly", now), now)
            <==> t.date.year == now.date.year && Ticks(t) <= Ticks(now)
  {
    assert PeriodStart("Yearly", now) == Midnight(now.date.year, 0, 1);
    CalendarWindow(t, now, 0);
  }

  /** A period outside the four cases gets the Monthly window. */
  lemma UnknownPeriodIsMonthly(period: string, now: Instant)
    requires period !in Periods
    ensures PeriodStart(period, now) == PeriodStart("Monthly", now)
  {
  }

  /**
   * Every window starts no later than the instant it was derived from, so it
   * never starts after an end read at that instant or later.
   */
  lemma WindowOrdered(period: string, now: Instant, end: Instant)
    requires ValidInstant(now)
    requires Ticks(now) <= Ticks(end)
    ensures Ticks(PeriodStart(period, now)) <= Ticks(end)
  {
    var y, m := now.date.year, now.date.month;
    if period == "Weekly" {
      WeeklyStart(now);
    } else {
      var m0 := if period == "Quarterly" then (m / 3) * 3 else if period == "Yearly" then 0 else m;
      assert PeriodStart(period, now) == Midnight(y, m0, 1);
      CalendarWindow(now, now, m0);
    }
  }

  // ---------------------------------------------------------------------
  // Recomputing `spent`
  // ---------------------------------------------------------------------

  /** The expense query of `/calculate`: same user, same category, date in `[start, end]`. */
  function CountedIn(user: string, category: string, start: Instant, end: Instant): Expense -> bool
  {
    (e: Expense) => e.userId == user && e.category == category && InTicks(e.date, start, end)
  }

  /** The sum of the amounts of the expenses counted against budget `b`. */
  function SpentFor(b: Budget, user: string, expenses: seq<Expense>, now: Instant, end: Instant): real
  {
    Sum(Filter(expenses, CountedIn(user, b.category, PeriodStart(b.period, now), end)), ExpenseAmount)
  }

  /** Budget `b` with its `spent` recomputed. */
  function Refreshed(b: Budget, user: string, expenses: seq<Expense>, now: Instant, end: Instant): Budget
  {
    b.(spent := SpentFor(b, user, expenses, now, end))
  }

  /** The collection after `/calculate`: the user's budgets refreshed, the rest untouched. */
  function Recalculated(docs: seq<Budget>, user: string, expenses: seq<Expense>, now: Instant, end: Instant): seq<Budget>
  {
    seq(|docs|, k requires 0 <= k < |docs| =>
      if docs[k].userId == user then Refreshed(docs[k], user, expenses, now, end) else docs[k])
  }

  /** What `/calculate` answers: each loaded budget refreshed, in load order. */
  function RefreshedAll(loaded: seq<Budget>, user: string, expenses: seq<Expense>, now: Instant, end: Instant): seq<Budget>
  {
    seq(|loaded|, k requires 0 <= k < |loaded| => Refreshed(loaded[k], user, expenses, now, end))
  }

  /**
   * `/calculate` keeps every document in place and changes nothing but
   * `spent`, and only on the requesting user's budgets.
   */
  lemma RecalculatedFrame(docs: seq<Budget>, user: string, expenses: seq<Expense>, now: Instant, end: Instant)
    ensures var r := Recalculated(docs, user, expenses, now, end);
            |r| == |docs|
            && (forall k :: 0 <= k < |docs| ==> r[k] == docs[k].(spent := r[k].spent))
            && (forall k :: 0 <= k < |docs| && docs[k].userId != user ==> r[k] == docs[k])
  {
  }

  /** Recomputing a second time with the same expenses and window changes nothing. */
  lemma RecalculatedIdempotent(docs: seq<Budget>, user: string, expenses: seq<Expense>, now: Instant, end: Instant)
    ensures var once := Recalculated(docs, user, expenses, now, end);
            Recalculated(once, user, expenses, now, end) == once
  {
  }

  /**
   * One more expense changes a budget's recomputed `spent` by exactly its
   * amount when the query counts it, and not at all otherwise.
   */
  lemma SpentForAppend(b: Budget, user: string, expenses: seq<Expense>, e: Expense, now: Instant, end: Instant)
    ensures SpentFor(b, user, expenses + [e], now, end)
            == SpentFor(b, user, expenses, now, end)
               + (if e.userId == user && e.category == b.category && InTicks(e.date, PeriodStart(b.period, now), end)
                  then e.amount else 0.0)
  {
    var p := CountedIn(user, b.category, PeriodStart(b.period, now), end);
    FilterAppend(expenses, [e], p);
    SumAppend(Filter(expenses, p), Filter([e], p), ExpenseAmount);
    assert [e][..0] == [];
  }

  /** The answer of `/calculate` is the refreshed collection restricted to the user's budgets. */
  lemma {:induction false} RefreshedAllIsFiltered(docs: seq<Budget>, user: string, expenses: seq<Expense>, now: Instant, end: Instant)
    ensures RefreshedAll(Filter(docs, BudgetOwnedBy(user)), user, expenses, now, end)
            == Filter(Recalculated(docs, user, expenses, now, end), BudgetOwnedBy(user))
    decreases |docs|
  {
    var own := BudgetOwnedBy(user);
    if docs != [] {
      var n := |docs| - 1;
      var front, x := docs[..n], docs[n];
      RefreshedAllIsFiltered(front, user, expenses, now, end);
      var r := Recalculated(docs, user, expenses, now, end);
      var rf := Recalculated(front, user, expenses, now, end);
      assert r == rf + [r[n]];
      assert docs == front + [x];
      FilterSnoc(front, x, own);
      FilterSnoc(rf, r[n], own);
      if own(x) {
        RefreshedAllAppend(Filter(front, own), x, user, expenses, now, end);
      }
    }
  }

  // ---------------------------------------------------------------------
  // Create and update payloads
  // ---------------------------------------------------------------------

  /** The fields of a POST body; `None` is an absent field. */
  datatype BudgetBody = BudgetBody(
    category: Option<string>,
    amount: Option<real>,
    period: Option<string>,
    spent: Option<real>,
    userId: Option<string>)

  /**
   * The document `save()` stores for a POST body, or `None` when the schema
   * rejects it: category and amount are required (an empty string does not
   * satisfy `required`), and a period, when given, must be one of the enum.
   */
  function NewBudget(body: BudgetBody, id: string): (r: Option<Budget>)
    ensures r.Some? <==> body.category.Some? && body.category.value != "" && body.amount.Some?
                         && (body.period.None? || body.period.value in Periods)
    ensures r.Some? ==> r.value.id == id && r.value.category == body.category.value
                        && r.value.amount == body.amount.value
  {
    var period := if body.period.Some? then body.period.value else "Monthly";
    if body.category.None? || body.category.value == "" || body.amount.None? || period !in Periods then None
    else Some(Budget(id, body.category.value, body.amount.value, ParsedOrZero(body.spent, 0.0), period, OwnerOr(body.userId)))
  }

  /** A created budget without `spent`, period and user gets 0, Monthly and the demo user. */
  lemma CreateDefaults(category: string, amount: real, id: string)
    requires category != ""
    ensures var r := NewBudget(BudgetBody(Some(category), Some(amount), None, None, None), id);
            r.Some? && r.value.spent == 0.0 && r.value.period == "Monthly" && r.value.userId == DemoUser
  {
  }

  /** The fields of a PUT body, written with `$set` and no validators. */
  datatype BudgetPatch = BudgetPatch(
    category: Option<string>,
    amount: Option<real>,
    spent: Option<real>,
    period: Option<string>,
    userId: Option<string>)

  function Patched(b: Budget, p: BudgetPatch): (r: Budget)
    ensures r.id == b.id
    ensures p.category.None? ==> r.category == b.category
    ensures p.amount.None? ==> r.amount == b.amount
    ensures p.spent.None? ==> r.spent == b.spent
    ensures p.period.None? ==> r.period == b.period
    ensures p.userId.None? ==> r.userId == b.userId
  {
    b.(category := if p.category.Some? then p.category.value else b.category,
       amount := if p.amount.Some? then p.amount.value else b.amount,
       spent := if p.spent.Some? then p.spent.value else b.spent,
       period := if p.period.Some? then p.period.value else b.period,
       userId := if p.userId.Some? then p.userId.value else b.userId)
  }

  /**
   * Because PUT skips the enum validator, a stored budget can carry a period
   * outside the enum, and `/calculate` then treats it as Monthly.
   */
  lemma PutReachesDefaultPeriod(b: Budget, now: Instant)
    ensures var u := Patched(b, BudgetPatch(None, None, None, Some("Daily"), None));
            u.period !in Periods && PeriodStart(u.period, now) == PeriodStart("Monthly", now)
  {
  }

  // ---------------------------------------------------------------------
  // The collection
  // ---------------------------------------------------------------------

  /**
   * Loop invariant of `/calculate`: the ids are those of the loaded-from
   * collection `d0`, and exactly the user's budgets already visited are refreshed.
   */
  ghost predicate RefreshedSoFar(docs: seq<Budget>, d0: seq<Budget>, done: seq<Budget>, user: string,
                                 expenses: seq<Expense>, now: Instant, end: Instant)
  {
    UniqueKeys(d0, BudgetId) && |docs| == |d0|
    && (forall k :: 0 <= k < |docs| ==> docs[k].id == d0[k].id)
    && (forall k :: 0 <= k < |docs| ==>
          docs[k] == if d0[k].userId == user && d0[k] in done
                     then Refreshed(d0[k], user, expenses, now, end) else d0[k])
  }

  /** A loaded budget sits in the collection at some position. */
  lemma LoadedIsStored(d0: seq<Budget>, docs: seq<Budget>, loaded: seq<Budget>, i: nat, user: string,
                       expenses: seq<Expense>, now: Instant, end: Instant) returns (m: nat)
    requires loaded == Filter(d0, BudgetOwnedBy(user)) && i < |loaded|
    requires RefreshedSoFar(docs, d0, loaded[..i], user, expenses, now, end)
    ensures m < |d0| && d0[m] == loaded[i] && docs[m].id == loaded[i].id
  {
    assert loaded[i] in d0;
    m :| 0 <= m < |d0| && d0[m] == loaded[i];
  }

  /** Writing the recomputed `spent` of the next loaded budget extends the invariant by it. */
  lemma RefreshStep(docs: seq<Budget>, d0: seq<Budget>, done: seq<Budget>, budget: Budget, j: nat, user: string,
                    expenses: seq<Expense>, now: Instant, end: Instant)
    requires RefreshedSoFar(docs, d0, done, user, expenses, now, end)
    requires budget in d0 && budget.userId == user
    requires j < |docs| && docs[j].id == budget.id
    ensures d0[j] == budget
    ensures var s := SpentFor(budget, user, expenses, now, end);
            RefreshedSoFar(docs[j := docs[j].(spent := s)], d0, done + [budget], user, expenses, now, end)
            && docs[j].(spent := s) == Refreshed(budget, user, expenses, now, end)
  {
    var m :| 0 <= m < |d0| && d0[m] == budget;
    assert d0[j].id == d0[m].id;
    var s := SpentFor(budget, user, expenses, now, end);
    var nd := docs[j := docs[j].(spent := s)];
    forall k | 0 <= k < |nd|
      ensures nd[k] == if d0[k].userId == user && d0[k] in done + [budget]
                       then Refreshed(d0[k], user, expenses, now, end) else d0[k]
    {
      if k != j {
        assert d0[k] != budget by {
          assert d0[k].id != d0[j].id;
        }
      }
    }
  }

  /** Once every loaded budget is visited, the collection is the recalculated one. */
  lemma RefreshFinished(docs: seq<Budget>, d0: seq<Budget>, loaded: seq<Budget>, user: string,
                        expenses: seq<Expense>, now: Instant, end: Instant)
    requires loaded == Filter(d0, BudgetOwnedBy(user))
    requires RefreshedSoFar(docs, d0, loaded, user, expenses, now, end)
    ensures docs == Recalculated(d0, user, expenses, now, end)
    ensures UniqueKeys(docs, BudgetId)
  {
    var r := Recalculated(d0, user, expenses, now, end);
    forall k | 0 <= k < |docs| ensures docs[k] == r[k] {
      if d0[k].userId == user {
        assert BudgetOwnedBy(user)(d0[k]);
        assert d0[k] in loaded;
      }
    }
    forall i, j | 0 <= i < |docs| && 0 <= j < |docs| && BudgetId(docs[i]) == BudgetId(docs[j])
      ensures i == j
    {
      assert BudgetId(d0[i]) == BudgetId(d0[j]);
    }
  }

  lemma RefreshedAllAppend(done: seq<Budget>, b: Budget, user: string, expenses: seq<Expense>, now: Instant, end: Instant)
    ensures RefreshedAll(done + [b], user, expenses, now, end)
            == RefreshedAll(done, user, expenses, now, end) + [Refreshed(b, user, expenses, now, end)]
  {
  }

  class BudgetCollection {
    var docs: seq<Budget>

    ghost predicate Valid()
      reads this
    {
      UniqueKeys(docs, BudgetId)
    }

    constructor ()
      ensures Valid() && docs == []
    {
      docs := [];
    }

    /** GET `/`: the budgets of the requested user, default the demo user. */
    method List(requested: Option<string>) returns (found: seq<Budget>)
      ensures found == Filter(docs, BudgetOwnedBy(OwnerOr(requested)))
      ensures forall b :: b in found <==> b in docs && b.userId == OwnerOr(requested)
    {
      found := Filter(docs, BudgetOwnedBy(OwnerOr(requested)));
    }

    /** POST `/`: store the validated document under a fresh id, or answer 400. */
    method Create(body: BudgetBody, newId: string) returns (out: Outcome<Budget>)
      requires Valid() && !HasKey(docs, BudgetId, newId)
      modifies this
      ensures Valid()
      ensures NewBudget(body, newId).None? ==> out == BadRequest && docs == old(docs)
      ensures NewBudget(body, newId).Some? ==>
                out == Created(NewBudget(body, newId).value) && docs == old(docs) + [out.value]
    {
      var made := NewBudget(body, newId);
      if made.None? {
        return BadRequest;
      }
      docs := docs + [made.value];
      out := Created(made.value);
    }

    /** GET `/:id`. */
    method Get(id: string) returns (out: Outcome<Budget>)
      ensures out.NotFound? <==> !HasKey(docs, BudgetId, id)
      ensures out.Ok? ==> out.value in docs && out.value.id == id
      ensures out.NotFound? || out.Ok?
    {
      var i := IndexOf(docs, BudgetId, id);
      if i.None? {
        return NotFound;
      }
      out := Ok(docs[i.value]);
    }

    /** PUT `/:id`: `findByIdAndUpdate` with the body, answering the updated document. */
    method Update(id: string, patch: BudgetPatch) returns (out: Outcome<Budget>)
      requires Valid()
      modifies this
      ensures Valid()
      ensures !HasKey(old(docs), BudgetId, id) ==> out == NotFound && docs == old(docs)
      ensures HasKey(old(docs), BudgetId, id) ==>
                var i := IndexOf(old(docs), BudgetId, id).value;
                out == Ok(Patched(old(docs)[i], patch)) && docs == old(docs)[i := out.value]
    {
      var i := IndexOf(docs, BudgetId, id);
      if i.None? {
        return NotFound;
      }
      var updated := Patched(docs[i.value], patch);
      docs := docs[i.value := updated];
      out := Ok(updated);
    }

    /** DELETE `/:id`. */
    method Delete(id: string) returns (out: Outcome<()>)
      requires Valid()
      modifies this
      ensures Valid()
      ensures !HasKey(old(docs), BudgetId, id) ==> out == NotFound && docs == old(docs)
      ensures HasKey(old(docs), BudgetId, id) ==>
                out == Ok(()) && docs == Without(old(docs), BudgetId, id)
                && |docs| == |old(docs)| - 1
    {
      var i := IndexOf(docs, BudgetId, id);
      if i.None? {
        return NotFound;
      }
      WithoutRemovesOne(docs, BudgetId, i.value);
      FilterUnique(docs, BudgetId, KeyIsNot(BudgetId, id));
      docs := Without(docs, BudgetId, id);
      out := Ok(());
    }

    /**
     * GET `/calculate`: for each of the user's budgets, in load order,
     * recompute `spent` over its period window and write it back.
     */
    method Calculate(requested: Option<string>, expenses: seq<Expense>, now: Instant, end: Instant)
      returns (results: seq<Budget>)
      requires Valid()
      modifies this
      ensures Valid()
      ensures docs == Recalculated(old(docs), OwnerOr(requested), expenses, now, end)
      ensures results == RefreshedAll(Filter(old(docs), BudgetOwnedBy(OwnerOr(requested))), OwnerOr(requested), expenses, now, end)
    {
      var user := OwnerOr(requested);
      var loaded := Filter(docs, BudgetOwnedBy(user));
      ghost var d0 := docs;
      results := [];
      var i := 0;
      assert RefreshedSoFar(docs, d0, loaded[..0], user, expenses, now, end);
      while i < |loaded|
        invariant 0 <= i <= |loaded|
        invariant RefreshedSoFar(docs, d0, loaded[..i], user, expenses, now, end)
        invariant results == RefreshedAll(loaded[..i], user, expenses, now, end)
      {
        var budget := loaded[i];
        var start := PeriodStart(budget.period, now);
        var spent := Sum(Filter(expenses, CountedIn(user, budget.category, start, end)), ExpenseAmount);
        var j := IndexOf(docs, BudgetId, budget.id);
        ghost var m := LoadedIsStored(d0, docs, loaded, i, user, expenses, now, end);
        if j.None? {
          assert false;
        }
        var jj := j.value;
        RefreshStep(docs, d0, loaded[..i], budget, jj, user, expenses, now, end);
        docs := docs[jj := docs[jj].(spent := spent)];
        results := results + [docs[jj]];
        RefreshedAllAppend(loaded[..i], budget, user, expenses, now, end);
        PrefixStep(loaded, i);
        i := i + 1;
      }
      assert loaded[..i] == loaded;
      RefreshFinished(docs, d0, loaded, user, expenses, now, end);
    }
  }
}
