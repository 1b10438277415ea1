/**
 * The assignment-creator page: named inputs, the calendar's date written
 * as an ISO 8601 calendar date, "Add Section", and the copy text.
 */
module AssignmentCreator {
  import opened Js
  import opened Calendar
  import opened SectionBuilder
  import opened AssignmentForm

  // ---------------------------------------------------------------------
  // ISO 8601 calendar dates
  // ---------------------------------------------------------------------

  /** The last `w` decimal digits of `n`, with leading zeros. */
  function PadDigits(n: nat, w: nat): (s: string)
    ensures |s| == w && AllDigits(s)
  {
    if w == 0 then "" else PadDigits(n / 10, w - 1) + [DigitChar(n % 10)]
  }

  /** Padding a number that fits in `w` digits and reading it back gives the number. */
  lemma {:induction false} PadThenRead(n: nat, w: nat)
    requires n < Pow10(w)
    ensures DigitsValue(PadDigits(n, w)) == n
  {
    if w > 0 {
      PadThenRead(n / 10, w - 1);
      var s := PadDigits(n, w);
      assert s[..|s| - 1] == PadDigits(n / 10, w - 1);
    }
  }

  /** Reading a string of digits and padding it back to its width gives the string. */
  lemma {:induction false} ReadThenPad(s: string)
    requires AllDigits(s)
    ensures PadDigits(DigitsValue(s), |s|) == s
  {
    if s != [] {
      var n := |s| - 1;
      var v := DigitsValue(s);
      var d := s[n] as int - '0' as int;
      assert v / 10 == DigitsValue(s[..n]) && v % 10 == d;
      ReadThenPad(s[..n]);
      assert DigitChar(d) == s[n];
    }
  }

  /**
   * The year as `toISOString` writes it: four digits for years 0 to 9999,
   * otherwise a sign and six digits.
   */
  function YearText(y: int): (t: string)
    ensures 0 <= y <= 9999 ==> t == PadDigits(y, 4)
  {
    if 0 <= y <= 9999 then PadDigits(y, 4)
    else if y < 0 then "-" + PadDigits(-y, 6)
    else "+" + PadDigits(y, 6)
  }

  /** `date.toISOString().split('T')[0]`: `YYYY-MM-DD`, months counted from 1. */
  function IsoDate(d: Date): (s: string)
    requires ValidDate(d)
  {
    YearText(d.year) + "-" + PadDigits(d.month + 1, 2) + "-" + PadDigits(d.day, 2)
  }

  /** Reads a four-digit-year `YYYY-MM-DD` back into a date; `None` for any other shape. */
  function ParseIsoDate(s: string): (r: Option<Date>)
    ensures r.Some? ==> |s| == 10
  {
    if |s| == 10 && AllDigits(s[..4]) && s[4] == '-' && AllDigits(s[5..7]) && s[7] == '-' && AllDigits(s[8..])
    then Some(Date(DigitsValue(s[..4]), DigitsValue(s[5..7]) - 1, DigitsValue(s[8..])))
    else None
  }

  /** The pieces of a ten-character date text sit at fixed positions. */
  lemma Pieces(y: string, m: string, d: string)
    requires |y| == 4 && |m| == 2 && |d| == 2
    ensures var s := y + "-" + m + "-" + d;
            |s| == 10 && s[..4] == y && s[4] == '-' && s[5..7] == m && s[7] == '-' && s[8..] == d
  {
  }

  lemma ParsePieces(y: string, m: string, d: string)
    requires |y| == 4 && |m| == 2 && |d| == 2 && AllDigits(y) && AllDigits(m) && AllDigits(d)
    ensures ParseIsoDate(y + "-" + m + "-" + d) == Some(Date(DigitsValue(y), DigitsValue(m) - 1, DigitsValue(d)))
  {
    Pieces(y, m, d);
  }

  lemma Split10(s: string)
    requires |s| == 10
    ensures s == s[..4] + [s[4]] + s[5..7] + [s[7]] + s[8..]
  {
  }

  /** A date of the years 0 to 9999 survives being written and read back. */
  lemma IsoDateRoundTrip(d: Date)
    requires ValidDate(d) && 0 <= d.year <= 9999
    ensures ParseIsoDate(IsoDate(d)) == Some(d)
  {
    var y, m, dd := PadDigits(d.year, 4), PadDigits(d.month + 1, 2), PadDigits(d.day, 2);
    assert IsoDate(d) == y + "-" + m + "-" + dd;
    ParsePieces(y, m, dd);
    PadThenRead(d.year, 4);
    PadThenRead(d.month + 1, 2);
    PadThenRead(d.day, 2);
  }

  /** A well-formed text that reads as a valid date is exactly that date's text. */
  lemma IsoDateCanonical(s: string)
    requires ParseIsoDate(s).Some? && ValidDate(ParseIsoDate(s).value)
    ensures IsoDate(ParseIsoDate(s).value) == s
  {
    var y, m, dd := s[..4], s[5..7], s[8..];
    ReadThenPad(y);
    ReadThenPad(m);
    ReadThenPad(dd);
    Split10(s);
    assert [s[4]] == "-" && [s[7]] == "-";
  }

  // ---------------------------------------------------------------------
  // The page's state
  // ---------------------------------------------------------------------

  /**
   * `handleInputChange`'s edit for an input `name`: the total becomes
   * `Number(value)` (given as `number`), the text fields take the value;
   * a name that is not a field of the assignment edits nothing.
   */
  function InputEdit(name: string, value: string, number: Num): (e: Option<AssignmentEdit>)
    ensures name == "totalPoints" ==> e == Some(NewTotalPoints(number))
    ensures name == "title" ==> e == Some(NewTitle(value))
    ensures name == "description" ==> e == Some(NewDescription(value))
    ensures name == "dueDate" ==> e == Some(NewDueDate(value))
    ensures e.None? <==> name !in ["totalPoints", "title", "description", "dueDate"]
  {
    if name == "totalPoints" then Some(NewTotalPoints(number))
    else if name == "title" then Some(NewTitle(value))
    else if name == "description" then Some(NewDescription(value))
    else if name == "dueDate" then Some(NewDueDate(value))
    else None
  }

  /** The due text: "No due date" for an empty field, else `format(new Date(dueDate), 'PP')`, which may throw. */
  function CreatorDueText(dueDate: string, format: string -> Option<string>): (t: Option<string>)
    ensures dueDate == "" ==> t == Some("No due date")
    ensures dueDate != "" ==> t == format(dueDate)
  {
    if dueDate != "" then format(dueDate) else Some("No due date")
  }

  class Creator {
    var assignment: Assignment
    var date: Option<Date>

    constructor ()
      ensures assignment == EmptyAssignment && date == None
    {
      assignment := EmptyAssignment;
      date := None;
    }

    method HandleInputChange(name: string, value: string, number: Num)
      modifies this
      ensures var e := InputEdit(name, value, number);
              assignment == (if e.Some? then Applied(old(assignment), e.value) else old(assignment))
      ensures date == old(date)
    {
      var e := InputEdit(name, value, number);
      if e.Some? {
        assignment := Applied(assignment, e.value);
      }
    }

    /** `handleDateSelect`: a picked date also becomes the due date; clearing the picker keeps it. */
    method HandleDateSelect(selected: Option<Date>)
      requires selected.Some? ==> ValidDate(selected.value)
      modifies this
      ensures date == selected
      ensures selected.Some? ==> assignment == old(assignment).(dueDate := IsoDate(selected.value))
      ensures selected.None? ==> assignment == old(assignment)
    {
      date := selected;
      if selected.Some? {
        assignment := assignment.(dueDate := IsoDate(selected.value));
      }
    }

    /** The "Add Section" button. */
    method AddSection(now: int)
      modifies this
      ensures assignment == old(assignment).(sections := AddNewSection(old(assignment).sections, now))
      ensures date == old(date)
    {
      assignment := assignment.(sections := AddNewSection(assignment.sections, now));
    }

    method HandleSectionUpdate(sections: seq<Section>)
      modifies this
      ensures assignment == old(assignment).(sections := sections) && date == old(date)
    {
      assignment := assignment.(sections := sections);
    }

    /**
     * `handleCopyToClipboard`: the text handed to the clipboard, or `None`
     * when formatting the due date throws and nothing is copied.
     */
    method HandleCopy(format: string -> Option<string>, numText: Num -> string) returns (text: Option<string>)
      ensures var due := CreatorDueText(assignment.dueDate, format);
              text == (if due.Some? then Some(CopyText(assignment, due.value, numText)) else None)
    {
      var due := CreatorDueText(assignment.dueDate, format);
      if due.None? {
        return None;
      }
      var t := BuildCopyText(assignment, due.value, numText);
      text := Some(t);
    }
  }

  /** After a date is picked, the due-date field reads back as that date. */
  lemma PickedDateReadsBack(before: Assignment, d: Date)
    requires ValidDate(d) && 0 <= d.year <= 9999
    ensures ParseIsoDate(before.(dueDate := IsoDate(d)).dueDate) == Some(d)
  {
    IsoDateRoundTrip(d);
  }
}
