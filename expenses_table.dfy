/**
 * The expenses table: each expense tagged with `isRecurring` (a keyword
 * test on its description), filtered by the `recurring` and `recent`
 * flags, and sorted newest first.
 */
module ExpensesTable {
  import opened Calendar
  import opened Folds
  import opened Sorting
  import opened Records

  // ---------------------------------------------------------------------
  // `toLowerCase` and `includes`
  // ---------------------------------------------------------------------

  function LowerChar(c: char): char
  {
    if 'A' <= c <= 'Z' then (c as int + 32) as char else c
  }

  /** `s.toLowerCase()` on the ASCII letters. */
  function Lower(s: string): (r: string)
    ensures |r| == |s|
    ensures forall i :: 0 <= i < |s| ==> r[i] == LowerChar(s[i])
  {
    seq(|s|, i requires 0 <= i < |s| => LowerChar(s[i]))
  }

  lemma LowerIdempotent(s: string)
    ensures Lower(Lower(s)) == Lower(s)
  {
  }

  /** `sub` occurs in `s` starting at position `i`. */
  predicate OccursAt(s: string, sub: string, i: int)
  {
    0 <= i && i + |sub| <= |s| && s[i..i + |sub|] == sub
  }

  /** `s.includes(sub)`, searching from the front. */
  function Contains(s: string, sub: string): (b: bool)
    ensures b <==> exists i :: OccursAt(s, sub, i)
    decreases |s|
  {
    if |sub| > |s| then
      assert forall i :: !OccursAt(s, sub, i);
      false
    else if s[..|sub|] == sub then
      assert OccursAt(s, sub, 0);
      true
    else
      var rest := Contains(s[1..], sub);
      assert forall i :: OccursAt(s[1..], sub, i) ==> OccursAt(s, sub, i + 1) by {
        forall i | OccursAt(s[1..], sub, i) ensures OccursAt(s, sub, i + 1) {
          assert s[1..][i..i + |sub|] == s[i + 1..i + 1 + |sub|];
        }
      }
      assert forall i :: OccursAt(s, sub, i) ==> OccursAt(s[1..], sub, i - 1) by {
        forall i | OccursAt(s, sub, i) ensures OccursAt(s[1..], sub, i - 1) {
          assert i != 0;
          assert s[1..][i - 1..i - 1 + |sub|] == s[i..i + |sub|];
        }
      }
      rest
  }

  // ---------------------------------------------------------------------
  // The recurring tag
  // ---------------------------------------------------------------------

  const RecurringKeywords: seq<string> := ["subscription", "bill", "monthly"]

  /** The description, lower-cased, contains one of the keywords. */
  predicate IsRecurring(description: string)
  {
    Contains(Lower(description), "subscription")
    || Contains(Lower(description), "bill")
    || Contains(Lower(description), "monthly")
  }

  /**
   * An expense is recurring exactly when a keyword occurs somewhere in its
   * lower-cased description, and letter case makes no difference.
   */
  lemma RecurringMeaning(description: string)
    ensures IsRecurring(description)
            <==> exists k, i :: k in RecurringKeywords && OccursAt(Lower(description), k, i)
    ensures IsRecurring(Lower(description)) == IsRecurring(description)
  {
    LowerIdempotent(description);
    var d := Lower(description);
    if IsRecurring(description) {
      if Contains(d, "subscription") {
        var i :| OccursAt(d, "subscription", i);
        assert "subscription" in RecurringKeywords;
      } else if Contains(d, "bill") {
        var i :| OccursAt(d, "bill", i);
        assert "bill" in RecurringKeywords;
      } else {
        var i :| OccursAt(d, "monthly", i);
        assert "monthly" in RecurringKeywords;
      }
    }
    if exists k, i :: k in RecurringKeywords && OccursAt(d, k, i) {
      var k, i :| k in RecurringKeywords && OccursAt(d, k, i);
      assert k == "subscription" || k == "bill" || k == "monthly";
    }
  }

  /** The keyword test is a substring test: "Billboard" counts as a bill. */
  lemma SubstringNotWord()
    ensures IsRecurring("Billboard rental")
  {
    var d := Lower("Billboard rental");
    assert d[0] == 'b' && d[1] == 'i' && d[2] == 'l' && d[3] == 'l';
    assert d[0..4] == "bill";
    assert OccursAt(d, "bill", 0);
  }

  // ---------------------------------------------------------------------
  // The table rows
  // ---------------------------------------------------------------------

  /** An expense with the `isRecurring` field added. */
  datatype Row = Row(expense: Expense, isRecurring: bool)

  function RowTime(r: Row): real { ExpenseTime(r.expense) }

  function Annotated(expenses: seq<Expense>): (rows: seq<Row>)
    ensures |rows| == |expenses|
    ensures forall i :: 0 <= i < |rows| ==> rows[i] == Row(expenses[i], IsRecurring(expenses[i].description))
  {
    seq(|expenses|, i requires 0 <= i < |expenses| => Row(expenses[i], IsRecurring(expenses[i].description)))
  }

  /** `|now - date|` is at most 48 hours, in either direction. */
  predicate WithinTwoDays(t: Instant, now: Instant)
  {
    -48 * MsPerHour <= Ticks(now) - Ticks(t) <= 48 * MsPerHour
  }

  /** The hour difference `|now - date| / 36e5` is at most 48 exactly when the distance is at most 48 hours. */
  lemma HoursDiffBound(t: Instant, now: Instant)
    ensures var d := Ticks(now) - Ticks(t);
            var abs := if d < 0 then -d else d;
            (abs as real / 3_600_000.0 <= 48.0) <==> WithinTwoDays(t, now)
  {
  }

  /** The filter callback: recurring first, then the 48-hour window. */
  function Keep(recurring: bool, recent: bool, now: Instant): Row -> bool
  {
    (r: Row) => !(recurring && !r.isRecurring) && (!recent || WithinTwoDays(r.expense.date, now))
  }

  /** The rows the table shows, newest first. */
  function TableRows(expenses: seq<Expense>, recurring: bool, recent: bool, now: Instant): (rows: seq<Row>)
    ensures |rows| <= |expenses|
    ensures forall r :: r in rows <==>
              r.expense in expenses && r.isRecurring == IsRecurring(r.expense.description)
              && (recurring ==> r.isRecurring) && (recent ==> WithinTwoDays(r.expense.date, now))
  {
    var tagged := Annotated(expenses);
    var kept := Filter(tagged, Keep(recurring, recent, now));
    var rows := SortDesc(kept, RowTime);
    assert forall r :: r in rows <==> r in kept by {
      forall r: Row ensures r in rows <==> r in kept {
        assert r in rows <==> r in multiset(rows);
        assert r in kept <==> r in multiset(kept);
      }
    }
    assert forall r :: r in tagged <==> r.expense in expenses && r.isRecurring == IsRecurring(r.expense.description) by {
      forall r: Row | r.expense in expenses && r.isRecurring == IsRecurring(r.expense.description) ensures r in tagged {
        var i :| 0 <= i < |expenses| && expenses[i] == r.expense;
        assert tagged[i] == r;
      }
    }
    rows
  }

  /** The rows are ordered newest first. */
  lemma TableRowsSorted(expenses: seq<Expense>, recurring: bool, recent: bool, now: Instant)
    ensures SortedDesc(TableRows(expenses, recurring, recent, now), RowTime)
  {
    SortDescSorted(Filter(Annotated(expenses), Keep(recurring, recent, now)), RowTime);
  }

  /** With neither flag set the table shows every expense, each once. */
  lemma NoFlagsKeepsAll(expenses: seq<Expense>, now: Instant)
    ensures multiset(TableRows(expenses, false, false, now)) == multiset(Annotated(expenses))
    ensures |TableRows(expenses, false, false, now)| == |expenses|
  {
    FilterAll(Annotated(expenses), Keep(false, false, now));
  }
}
