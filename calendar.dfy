/**
 * The proleptic Gregorian calendar that JS `Date` objects present through
 * their local getters, without time zones or daylight saving.
 *
 * An instant is a calendar date plus the milliseconds since that date's
 * midnight. `Ticks` plays `getTime()`: milliseconds since 1970-01-01 00:00.
 * Months are numbered 0..11, as `getMonth()` numbers them.
 */
module Calendar {

  const MsPerHour: int := 3_600_000
  const MsPerDay: int := 86_400_000

  datatype Date = Date(year: int, month: int, day: int)

  datatype Instant = Instant(date: Date, msOfDay: int)

  predicate IsLeapYear(y: int)
  {
    y % 4 == 0 && (y % 100 != 0 || y % 400 == 0)
  }

  /** Length of month `m` (0 = January) of year `y`. */
  function DaysInMonth(y: int, m: int): (n: int)
    ensures 28 <= n <= 31
  {
    if m == 1 then (if IsLeapYear(y) then 29 else 28)
    else if m == 3 || m == 5 || m == 8 || m == 10 then 30
    else 31
  }

  predicate ValidDate(d: Date)
  {
    0 <= d.month < 12 && 1 <= d.day <= DaysInMonth(d.year, d.month)
  }

  predicate ValidInstant(t: Instant)
  {
    ValidDate(t.date) && 0 <= t.msOfDay < MsPerDay
  }

  /** Days of year `y` before the first of month `m`. */
  function DaysBeforeMonth(y: int, m: int): int
    decreases m
  {
    if m <= 0 then 0 else DaysBeforeMonth(y, m - 1) + DaysInMonth(y, m - 1)
  }

  function DaysInYear(y: int): int
  {
    DaysBeforeMonth(y, 12)
  }

  /** Days from 1970-01-01 to January 1 of year `y` (negative before 1970). */
  function DaysBeforeYear(y: int): int
    decreases if y < 1970 then 1970 - y else y - 1970
  {
    if y == 1970 then 0
    else if y > 1970 then DaysBeforeYear(y - 1) + DaysInYear(y - 1)
    else DaysBeforeYear(y + 1) - DaysInYear(y)
  }

  /** Day number of the first of month `m` of year `y`. */
  function MonthStartDay(y: int, m: int): int
  {
    DaysBeforeYear(y) + DaysBeforeMonth(y, m)
  }

  /** Days since 1970-01-01. */
  function DayNumber(d: Date): int
  {
    MonthStartDay(d.year, d.month) + d.day - 1
  }

  /** `getTime()`: milliseconds since 1970-01-01 00:00. */
  function Ticks(t: Instant): int
  {
    DayNumber(t.date) * MsPerDay + t.msOfDay
  }

  /** `getDay()`: 0 is Sunday; 1970-01-01 was a Thursday. */
  function Weekday(d: Date): (w: int)
    ensures 0 <= w < 7
  {
    (DayNumber(d) + 4) % 7
  }

  /** Lexicographic order of dates: year, then month, then day. */
  predicate DateBefore(a: Date, b: Date)
  {
    a.year < b.year
    || (a.year == b.year && a.month < b.month)
    || (a.year == b.year && a.month == b.month && a.day < b.day)
  }

  /** The calendar date before `d`. */
  function PrevDay(d: Date): Date
  {
    if d.day > 1 then Date(d.year, d.month, d.day - 1)
    else if d.month > 0 then Date(d.year, d.month - 1, DaysInMonth(d.year, d.month - 1))
    else Date(d.year - 1, 11, 31)
  }

  /** The calendar date `k` days before `d`. */
  function DaysBack(d: Date, k: nat): Date
    decreases k
  {
    if k == 0 then d else DaysBack(PrevDay(d), k - 1)
  }

  /** The month after month `m` of year `y`, as a (year, month) pair. */
  function NextMonth(y: int, m: int): (int, int)
  {
    if m == 11 then (y + 1, 0) else (y, m + 1)
  }

  /** A month's position on one running scale: `y * 12 + m`. */
  function MonthIndex(y: int, m: int): int
  {
    y * 12 + m
  }

  /**
   * What `new Date(y, m, 1)` normalises an out-of-range month to: the
   * (year, month) pair whose month index is `y * 12 + m`.
   */
  function MonthOfIndex(k: int): (ym: (int, int))
    ensures 0 <= ym.1 < 12
    ensures MonthIndex(ym.0, ym.1) == k
  {
    (k / 12, k % 12)
  }

  lemma MonthOfIndexInverse(y: int, m: int)
    requires 0 <= m < 12
    ensures MonthOfIndex(MonthIndex(y, m)) == (y, m)
  {
    var ym := MonthOfIndex(MonthIndex(y, m));
    assert ym.0 * 12 + ym.1 == y * 12 + m;
  }

  /** Consecutive month indices name consecutive calendar months. */
  lemma NextMonthOfIndex(k: int)
    ensures NextMonth(MonthOfIndex(k).0, MonthOfIndex(k).1) == MonthOfIndex(k + 1)
  {
    var (y, m) := MonthOfIndex(k);
    var (y2, m2) := MonthOfIndex(k + 1);
    assert y2 * 12 + m2 == y * 12 + m + 1;
    if m == 11 {
      assert y2 * 12 + m2 == (y + 1) * 12;
      MonthOfIndexInverse(y + 1, 0);
    } else {
      MonthOfIndexInverse(y, m + 1);
    }
  }

  // ---------------------------------------------------------------------
  // Day numbers step by one between consecutive days and months
  // ---------------------------------------------------------------------

  lemma YearStep(y: int)
    ensures DaysBeforeYear(y + 1) == DaysBeforeYear(y) + DaysInYear(y)
  {
    if y < 1970 {
      assert y + 1 <= 1970;
    }
  }

  /** Consecutive months start `DaysInMonth` days apart, across year ends too. */
  lemma MonthStartStep(y: int, m: int)
    requires 0 <= m < 12
    ensures MonthStartDay(NextMonth(y, m).0, NextMonth(y, m).1) == MonthStartDay(y, m) + DaysInMonth(y, m)
  {
    if m == 11 {
      YearStep(y);
      assert DaysInYear(y) == DaysBeforeMonth(y, 11) + DaysInMonth(y, 11);
    }
  }

  /** Earlier months end no later than later months begin. */
  lemma {:induction false} MonthStartMonotone(y1: int, m1: int, y2: int, m2: int)
    requires 0 <= m1 < 12 && 0 <= m2 < 12
    requires MonthIndex(y1, m1) < MonthIndex(y2, m2)
    ensures MonthStartDay(y1, m1) + DaysInMonth(y1, m1) <= MonthStartDay(y2, m2)
    decreases MonthIndex(y2, m2) - MonthIndex(y1, m1)
  {
    MonthStartStep(y1, m1);
    var (y, m) := NextMonth(y1, m1);
    if (y, m) != (y2, m2) {
      if MonthIndex(y, m) == MonthIndex(y2, m2) {
        MonthOfIndexInverse(y, m);
        MonthOfIndexInverse(y2, m2);
      }
      MonthStartMonotone(y, m, y2, m2);
    }
  }

  /** A valid date's day number lies within its month's range of day numbers. */
  lemma DayNumberInMonth(d: Date)
    requires ValidDate(d)
    ensures MonthStartDay(d.year, d.month) <= DayNumber(d) < MonthStartDay(d.year, d.month) + DaysInMonth(d.year, d.month)
  {
  }

  /** Day numbers are strictly increasing in calendar order. */
  lemma DayNumberIncreasing(a: Date, b: Date)
    requires ValidDate(a) && ValidDate(b)
    requires DateBefore(a, b)
    ensures DayNumber(a) < DayNumber(b)
  {
    if MonthIndex(a.year, a.month) < MonthIndex(b.year, b.month) {
      MonthStartMonotone(a.year, a.month, b.year, b.month);
    } else {
      assert a.year == b.year && a.month == b.month;
    }
  }

  /** Two valid dates are in calendar order exactly when their day numbers are. */
  lemma DayNumberOrder(a: Date, b: Date)
    requires ValidDate(a) && ValidDate(b)
    ensures DayNumber(a) < DayNumber(b) <==> DateBefore(a, b)
    ensures DayNumber(a) == DayNumber(b) <==> a == b
  {
    if DateBefore(a, b) {
      DayNumberIncreasing(a, b);
    } else if DateBefore(b, a) {
      DayNumberIncreasing(b, a);
    }
  }

  /** Stepping back one day stays valid and lowers the day number by exactly one. */
  lemma PrevDayStep(d: Date)
    requires ValidDate(d)
    ensures ValidDate(PrevDay(d))
    ensures DayNumber(PrevDay(d)) == DayNumber(d) - 1
  {
    var y, m := d.year, d.month;
    if d.day > 1 {
    } else if m > 0 {
      assert DaysBeforeMonth(y, m) == DaysBeforeMonth(y, m - 1) + DaysInMonth(y, m - 1);
    } else {
      YearStep(y - 1);
      assert DaysInYear(y - 1) == DaysBeforeMonth(y - 1, 11) + 31;
    }
  }

  /** Stepping back `k` days stays valid and lowers the day number by exactly `k`. */
  lemma {:induction false} DaysBackStep(d: Date, k: nat)
    requires ValidDate(d)
    ensures ValidDate(DaysBack(d, k))
    ensures DayNumber(DaysBack(d, k)) == DayNumber(d) - k
    decreases k
  {
    if k > 0 {
      PrevDayStep(d);
      DaysBackStep(PrevDay(d), k - 1);
    }
  }

  // ---------------------------------------------------------------------
  // Month windows
  // ---------------------------------------------------------------------

  /** Midnight of day `day` of month `m` of year `y`. */
  function Midnight(y: int, m: int, day: int): Instant
  {
    Instant(Date(y, m, day), 0)
  }

  /** One millisecond before the next midnight: what date-fns `endOfDay` gives. */
  function LastMillisecond(y: int, m: int, day: int): Instant
  {
    Instant(Date(y, m, day), MsPerDay - 1)
  }

  predicate InTicks(t: Instant, lo: Instant, hi: Instant)
  {
    Ticks(lo) <= Ticks(t) <= Ticks(hi)
  }

  /** Day-number form of a tick comparison against a midnight. */
  lemma TicksVersusMidnight(t: Instant, d: Date)
    requires 0 <= t.msOfDay < MsPerDay
    ensures Ticks(Instant(d, 0)) <= Ticks(t) <==> DayNumber(d) <= DayNumber(t.date)
    ensures Ticks(t) <= Ticks(Instant(d, 0)) <==> (DayNumber(t.date) < DayNumber(d) || (DayNumber(t.date) == DayNumber(d) && t.msOfDay == 0))
    ensures Ticks(t) <= Ticks(Instant(d, MsPerDay - 1)) <==> DayNumber(t.date) <= DayNumber(d)
  {
    var a, b := DayNumber(t.date), DayNumber(d);
    if a < b {
      assert a * MsPerDay + MsPerDay <= b * MsPerDay;
    } else if a > b {
      assert b * MsPerDay + MsPerDay <= a * MsPerDay;
    }
  }

  /**
   * A valid date is neither before the first nor after the last day of a
   * month exactly when it falls in that month.
   */
  lemma MonthBounds(d: Date, y: int, m: int)
    requires ValidDate(d) && 0 <= m < 12
    ensures !DateBefore(d, Date(y, m, 1)) && !DateBefore(Date(y, m, DaysInMonth(y, m)), d)
            <==> d.year == y && d.month == m
  {
  }

  /**
   * A valid instant lies between the first midnight and the last
   * millisecond of a month exactly when it falls in that month.
   */
  lemma WholeMonthWindow(t: Instant, y: int, m: int)
    requires ValidInstant(t) && 0 <= m < 12
    ensures InTicks(t, Midnight(y, m, 1), LastMillisecond(y, m, DaysInMonth(y, m)))
            <==> t.date.year == y && t.date.month == m
  {
    var first, last := Date(y, m, 1), Date(y, m, DaysInMonth(y, m));
    TicksVersusMidnight(t, first);
    TicksVersusMidnight(t, last);
    DayNumberOrder(t.date, first);
    DayNumberOrder(last, t.date);
    MonthBounds(t.date, y, m);
    var a, f, l := DayNumber(t.date), DayNumber(first), DayNumber(last);
    Between(Ticks(Midnight(y, m, 1)) <= Ticks(t), Ticks(t) <= Ticks(LastMillisecond(y, m, DaysInMonth(y, m))),
            a, f, l, DateBefore(t.date, first), DateBefore(last, t.date), t.date.year == y && t.date.month == m);
  }

  /** The propositional core of the month windows. */
  lemma Between(lo: bool, hi: bool, a: int, f: int, l: int, early: bool, late: bool, inMonth: bool)
    requires lo <==> f <= a
    requires hi <==> a <= l
    requires a < f <==> early
    requires l < a <==> late
    requires !early && !late <==> inMonth
    ensures lo && hi <==> inMonth
  {
  }

  /**
   * A valid instant lies between the first and the last midnight of a month
   * exactly when it falls in that month and is not later than midnight on
   * the month's last day.
   */
  lemma MidnightMonthWindow(t: Instant, y: int, m: int)
    requires ValidInstant(t) && 0 <= m < 12
    ensures InTicks(t, Midnight(y, m, 1), Midnight(y, m, DaysInMonth(y, m)))
            <==> t.date.year == y && t.date.month == m
                 && (t.date.day < DaysInMonth(y, m) || t.msOfDay == 0)
  {
    var first, last := Date(y, m, 1), Date(y, m, DaysInMonth(y, m));
    TicksVersusMidnight(t, first);
    TicksVersusMidnight(t, last);
    DayNumberOrder(t.date, first);
    DayNumberOrder(t.date, last);
    DayNumberOrder(last, t.date);
    MonthBounds(t.date, y, m);
    var a, f, l := DayNumber(t.date), DayNumber(first), DayNumber(last);
    var inMonth := t.date.year == y && t.date.month == m;
    Between(Ticks(Midnight(y, m, 1)) <= Ticks(t), a <= l, a, f, l, DateBefore(t.date, first), DateBefore(last, t.date), inMonth);
    LastDayOfMonth(t.date, y, m);
  }

  /** Within its month, a date is before the month's last day exactly when its day is. */
  lemma LastDayOfMonth(d: Date, y: int, m: int)
    requires ValidDate(d)
    ensures d.year == y && d.month == m ==>
              (DateBefore(d, Date(y, m, DaysInMonth(y, m))) <==> d.day < DaysInMonth(y, m))
              && (d == Date(y, m, DaysInMonth(y, m)) <==> d.day == DaysInMonth(y, m))
  {
  }
}
