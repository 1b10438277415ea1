/**
 * The recent-transactions card: the fetched expense array sorted newest
 * first in place, its first five shown, each labelled "Today",
 * "Yesterday" or with its formatted date.
 */
module RecentTransactions {
  import opened Calendar
  import opened Sorting
  import opened Records

  /** `a[..hi]` is in descending order of `key`. */
  ghost predicate DescendingUpTo<T>(a: array<T>, hi: int, key: T -> real)
    requires 0 <= hi <= a.Length
    reads a
  {
    forall p, q :: 0 <= p < q < hi ==> key(a[p]) >= key(a[q])
  }

  /**
   * `expenses.sort((a, b) => time(b) - time(a))`: reorders the array in
   * place so that it is newest first and holds the same expenses.
   */
  method SortNewestFirst(a: array<Expense>)
    modifies a
    ensures SortedDesc(a[..], ExpenseTime)
    ensures multiset(a[..]) == multiset(old(a[..]))
  {
    SortInPlace(a, ExpenseTime);
  }

  /** Insertion sort by swapping, descending by `key`. */
  method SortInPlace<T>(a: array<T>, key: T -> real)
    modifies a
    ensures SortedDesc(a[..], key)
    ensures multiset(a[..]) == multiset(old(a[..]))
  {
    if a.Length == 0 {
      return;
    }
    var i := 1;
    while i < a.Length
      invariant 1 <= i <= a.Length
      invariant DescendingUpTo(a, i, key)
      invariant multiset(a[..]) == multiset(old(a[..]))
    {
      Sink(a, i, key);
      i := i + 1;
    }
  }

  /** One insertion step: moves `a[i]` down past every element before it with a smaller key. */
  method Sink<T>(a: array<T>, i: int, key: T -> real)
    requires 1 <= i < a.Length && DescendingUpTo(a, i, key)
    modifies a
    ensures DescendingUpTo(a, i + 1, key)
    ensures multiset(a[..]) == multiset(old(a[..]))
  {
    var j := i;
    while j > 0 && key(a[j - 1]) < key(a[j])
      invariant 0 <= j <= i
      invariant multiset(a[..]) == multiset(old(a[..]))
      invariant Sinking(a[..], i, j, key)
      decreases j
    {
      ghost var before := a[..];
      SinkStep(before, i, j, key);
      a[j - 1], a[j] := a[j], a[j - 1];
      assert a[..] == before[j - 1 := before[j]][j := before[j - 1]];
      j := j - 1;
    }
    SinkDone(a[..], i, j, key);
  }

  /**
   * While `s[j]` sinks through `s[..i + 1]`: the other elements are in
   * order, and `s[j]` ranks above everything after it.
   */
  ghost predicate Sinking<T>(s: seq<T>, i: int, j: int, key: T -> real)
  {
    0 <= j <= i < |s|
    && (forall p, q :: 0 <= p < q <= i && p != j && q != j ==> key(s[p]) >= key(s[q]))
    && (forall q :: j < q <= i ==> key(s[j]) > key(s[q]))
  }

  lemma SinkStep<T>(s: seq<T>, i: int, j: int, key: T -> real)
    requires Sinking(s, i, j, key) && j > 0 && key(s[j - 1]) < key(s[j])
    ensures Sinking(s[j - 1 := s[j]][j := s[j - 1]], i, j - 1, key)
  {
  }

  lemma SinkDone<T>(s: seq<T>, i: int, j: int, key: T -> real)
    requires Sinking(s, i, j, key) && (j == 0 || key(s[j - 1]) >= key(s[j]))
    ensures forall p, q :: 0 <= p < q <= i ==> key(s[p]) >= key(s[q])
  {
    forall p, q | 0 <= p < q <= i ensures key(s[p]) >= key(s[q]) {
      if q == j && p < j - 1 {
        assert key(s[p]) >= key(s[j - 1]);
      }
    }
  }

  /**
   * The five expenses shown: the array is sorted in place first, and the
   * slice is its first five entries.
   */
  method RecentExpenses(a: array<Expense>) returns (shown: seq<Expense>)
    modifies a
    ensures multiset(a[..]) == multiset(old(a[..]))
    ensures shown == Take(a[..], 5)
    ensures multiset(shown) <= multiset(old(a[..]))
    ensures |shown| == if a.Length < 5 then a.Length else 5
    ensures SortedDesc(shown, ExpenseTime)
    ensures forall i, k :: 0 <= i < |shown| <= k < a.Length ==> ExpenseTime(shown[i]) >= ExpenseTime(a[k])
  {
    SortNewestFirst(a);
    shown := Take(a[..], 5);
    assert a[..] == shown + a[|shown|..];
    TopN(a[..], 5, ExpenseTime);
  }

  // ---------------------------------------------------------------------
  // Date labels
  // ---------------------------------------------------------------------

  /** What `formatDate` shows: a word, or the date as formatted by `format(date, "MMM dd")`. */
  datatype DateLabel = Today | Yesterday | MonthDay(date: Date)

  /** `isToday` is checked before `isYesterday`; everything else is formatted. */
  function LabelFor(t: Instant, today: Date): (l: DateLabel)
    ensures l == Today <==> t.date == today
    ensures l == Yesterday <==> t.date != today && t.date == PrevDay(today)
    ensures l.MonthDay? ==> l.date == t.date
  {
    if t.date == today then Today
    else if t.date == PrevDay(today) then Yesterday
    else MonthDay(t.date)
  }

  /**
   * On a valid date the two words are one day apart: "Today" for the day
   * number of today, "Yesterday" for the one before, a formatted date for
   * any other day.
   */
  lemma LabelByDayNumber(t: Instant, today: Date)
    requires ValidDate(t.date) && ValidDate(today)
    ensures LabelFor(t, today) == Today <==> DayNumber(t.date) == DayNumber(today)
    ensures LabelFor(t, today) == Yesterday <==> DayNumber(t.date) == DayNumber(today) - 1
    ensures LabelFor(t, today).MonthDay? <==> DayNumber(t.date) != DayNumber(today) && DayNumber(t.date) != DayNumber(today) - 1
  {
    PrevDayStep(today);
    DayNumberOrder(t.date, today);
    DayNumberOrder(t.date, PrevDay(today));
  }

  // ---------------------------------------------------------------------
  // What the card renders
  // ---------------------------------------------------------------------

  const NoTransactionsMessage: string := "No transactions yet. Add your first expense to get started."

  datatype Card = NoTransactions(message: string) | Transactions(rows: seq<(Expense, DateLabel)>)

  /** The card for the expenses `RecentExpenses` picked: the message when there are none. */
  function CardFor(shown: seq<Expense>, today: Date): (c: Card)
    ensures c.NoTransactions? <==> shown == []
    ensures c.NoTransactions? ==> c.message == NoTransactionsMessage
    ensures c.Transactions? ==>
              |c.rows| == |shown|
              && forall i :: 0 <= i < |shown| ==> c.rows[i] == (shown[i], LabelFor(shown[i].date, today))
  {
    if shown == [] then NoTransactions(NoTransactionsMessage)
    else Transactions(seq(|shown|, i requires 0 <= i < |shown| => (shown[i], LabelFor(shown[i].date, today))))
  }

  /** The message appears exactly when the fetched list is empty. */
  method RenderCard(a: array<Expense>, today: Date) returns (c: Card)
    modifies a
    ensures c.NoTransactions? <==> a.Length == 0
    ensures c.Transactions? ==> |c.rows| <= 5 && SortedDesc(RowExpenses(c.rows), ExpenseTime)
  {
    var shown := RecentExpenses(a);
    c := CardFor(shown, today);
    if c.Transactions? {
      assert RowExpenses(c.rows) == shown;
    }
  }

  function RowExpenses(rows: seq<(Expense, DateLabel)>): (es: seq<Expense>)
    ensures |es| == |rows| && forall i :: 0 <= i < |rows| ==> es[i] == rows[i].0
  {
    seq(|rows|, i requires 0 <= i < |rows| => rows[i].0)
  }
}
