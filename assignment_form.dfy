/**
 * The assignment form: the assignment being edited, its points total, and
 * the plain-text copy of it the "Copy" button builds.
 */
module AssignmentForm {
  import opened Js
  import opened SectionBuilder

  /**
   * An assignment. `totalPoints` is a JS number: the form always stores an
   * integer, the creator page stores `Number(value)`, which may be any
   * number or NaN.
   */
  datatype Assignment = Assignment(
    title: string,
    description: string,
    dueDate: string,
    totalPoints: Num,
    sections: seq<Section>)

  const EmptyAssignment: Assignment := Assignment("", "", "", Finite(0.0), [])

  // ---------------------------------------------------------------------
  // Points
  // ---------------------------------------------------------------------

  /** `calculateTotalPoints`: `sections.reduce((sum, s) => sum + (s.points || 0), 0)`. */
  function TotalPoints(sections: seq<Section>): int
    decreases |sections|
  {
    if sections == [] then 0
    else TotalPoints(sections[..|sections| - 1]) + PointsOrZero(sections[|sections| - 1])
  }

  lemma {:induction false} TotalPointsAppend(front: seq<Section>, back: seq<Section>)
    ensures TotalPoints(front + back) == TotalPoints(front) + TotalPoints(back)
    decreases |back|
  {
    if back == [] {
      assert front + back == front;
    } else {
      var n := |back| - 1;
      assert (front + back)[..|front + back| - 1] == front + back[..n];
      TotalPointsAppend(front, back[..n]);
    }
  }

  /** Editing titles or contents leaves the total as it was. */
  lemma {:induction false} TextEditsKeepTotal(sections: seq<Section>, id: string, e: SectionEdit)
    requires !e.SetPoints?
    ensures TotalPoints(UpdateSection(sections, id, e)) == TotalPoints(sections)
    decreases |sections|
  {
    if sections != [] {
      var n := |sections| - 1;
      var r := UpdateSection(sections, id, e);
      assert r[..n] == UpdateSection(sections[..n], id, e);
      TextEditsKeepTotal(sections[..n], id, e);
    }
  }

  /** A newly added section adds nothing to the total. */
  lemma AddKeepsTotal(sections: seq<Section>, now: int)
    ensures TotalPoints(AddNewSection(sections, now)) == TotalPoints(sections)
  {
    assert AddNewSection(sections, now)[..|sections|] == sections;
  }

  /** `assignment.totalPoints || calculateTotalPoints()`. */
  function ShownTotal(a: Assignment): (n: Num)
    ensures Truthy(a.totalPoints) ==> n == a.totalPoints
    ensures !Truthy(a.totalPoints) ==> n == Finite(TotalPoints(a.sections) as real)
  {
    if Truthy(a.totalPoints) then a.totalPoints else Finite(TotalPoints(a.sections) as real)
  }

  /** Only a zero or NaN total gives way to the section sum; a negative total is shown as it is. */
  lemma ShownTotalCases(a: Assignment, k: real)
    ensures a.totalPoints == NaN ==> ShownTotal(a) == Finite(TotalPoints(a.sections) as real)
    ensures k != 0.0 && a.totalPoints == Finite(k) ==> ShownTotal(a) == Finite(k)
  {
  }

  // ---------------------------------------------------------------------
  // Editing
  // ---------------------------------------------------------------------

  /** The detail inputs: each replaces one field of the assignment. */
  datatype AssignmentEdit = NewTitle(title: string) | NewDescription(description: string)
                          | NewDueDate(dueDate: string) | NewTotalPoints(totalPoints: Num)

  /** `{ ...prev, [field]: value }`. */
  function Applied(a: Assignment, e: AssignmentEdit): (r: Assignment)
    ensures r.sections == a.sections
    ensures r.title == (if e.NewTitle? then e.title else a.title)
    ensures r.description == (if e.NewDescription? then e.description else a.description)
    ensures r.dueDate == (if e.NewDueDate? then e.dueDate else a.dueDate)
    ensures r.totalPoints == (if e.NewTotalPoints? then e.totalPoints else a.totalPoints)
  {
    match e
    case NewTitle(t) => a.(title := t)
    case NewDescription(d) => a.(description := d)
    case NewDueDate(d) => a.(dueDate := d)
    case NewTotalPoints(p) => a.(totalPoints := p)
  }

  /** The total-points input of the form: `parseInt(value) || 0`. */
  function TotalPointsEdit(parsed: Option<int>): (e: AssignmentEdit)
    ensures e.NewTotalPoints? && e.totalPoints.Finite?
    ensures e.totalPoints.value == (if parsed.Some? then parsed.value as real else 0.0)
  {
    NewTotalPoints(Finite(ParsedOrZero(parsed, 0) as real))
  }

  // ---------------------------------------------------------------------
  // The copy text
  // ---------------------------------------------------------------------

  /** `section.title || \`Section ${index + 1}\``. */
  function SectionHeading(s: Section, index: nat): (h: string)
    ensures s.title != "" ==> h == s.title
    ensures s.title == "" ==> h == CardHeading(index)
  {
    if s.title != "" then s.title else CardHeading(index)
  }

  /** `(${points} points)` when the points are truthy, else nothing. */
  function PointsNote(s: Section): (t: string)
    ensures t != [] <==> s.points.Some? && s.points.value != 0
  {
    if s.points.Some? && s.points.value != 0 then "(" + IntToString(s.points.value) + " points)" else ""
  }

  /** The first append of a `forEach` step: the dashes and the heading. */
  function Opening(s: Section, index: nat): string
  {
    "--- " + SectionHeading(s, index) + " "
  }

  /** The last append of a `forEach` step: the closing dashes and the content. */
  function Closing(s: Section): string
  {
    " ---\n" + s.content + "\n\n"
  }

  /** What one `forEach` step appends for the section at `index`. */
  function Block(s: Section, index: nat): string
  {
    Opening(s, index) + PointsNote(s) + Closing(s)
  }

  /** The concatenation of `block(xs[i], first + i)` over the positions of `xs`, in order. */
  function Joined<T>(xs: seq<T>, first: nat, block: (T, nat) -> string): string
    decreases |xs|
  {
    if xs == [] then ""
    else
      var n := |xs| - 1;
      Joined(xs[..n], first, block) + block(xs[n], first + n)
  }

  /** A concatenation's text is the two parts' texts, the second continuing the numbering. */
  lemma {:induction false} JoinedAppend<T>(front: seq<T>, back: seq<T>, first: nat, block: (T, nat) -> string)
    ensures Joined(front + back, first, block) == Joined(front, first, block) + Joined(back, first + |front|, block)
    decreases |back|
  {
    if back == [] {
      assert front + back == front;
    } else {
      var n := |back| - 1;
      assert (front + back)[..|front + back| - 1] == front + back[..n];
      assert (front + back)[|front + back| - 1] == back[n];
      JoinedAppend(front, back[..n], first, block);
    }
  }

  /** The blocks of `sections`, the first numbered as index `first`. */
  function Blocks(sections: seq<Section>, first: nat): string
  {
    Joined(sections, first, Block)
  }

  function TitleLine(title: string): string { title + "\n" }

  function DueLine(dueText: string): string { "Due: " + dueText + "\n" }

  /** The points line and the blank line after it. */
  function PointsLine(totalText: string): string { "Points: " + totalText + "\n\n" }

  /** The description paragraph, present only for a non-empty description. */
  function DescriptionPart(description: string): (t: string)
    ensures t == [] <==> description == []
  {
    if description != "" then description + "\n\n" else ""
  }

  /** The lines before the blocks. */
  function Header(a: Assignment, dueText: string, totalText: string): string
  {
    TitleLine(a.title) + DueLine(dueText) + PointsLine(totalText) + DescriptionPart(a.description)
  }

  /**
   * The whole copy text. `dueText` is the formatted due date and `numText`
   * is JS's number-to-string conversion.
   */
  function CopyText(a: Assignment, dueText: string, numText: Num -> string): string
  {
    Header(a, dueText, numText(ShownTotal(a))) + Blocks(a.sections, 0)
  }

  /** `(x + y)[..|x|]` is `x`. */
  /** A four-part text starts with its first part and ends with its last. */
  lemma OuterParts(w: string, x: string, y: string, z: string)
    ensures var t := w + x + y + z;
            |w| + |z| <= |t| && t[..|w|] == w && t[|t| - |z|..] == z
  {
    var t := w + x + y + z;
    assert t[..|w|] == w;
    assert t[|t| - |z|..] == z;
  }

  /**
   * The text starts with the title line and the due line, and the section
   * blocks come last.
   */
  lemma CopyTextLayout(a: Assignment, dueText: string, numText: Num -> string)
    ensures var t := CopyText(a, dueText, numText);
            var start := TitleLine(a.title) + DueLine(dueText);
            var blocks := Blocks(a.sections, 0);
            |start| + |blocks| <= |t| && t[..|start|] == start && t[|t| - |blocks|..] == blocks
  {
    var start := TitleLine(a.title) + DueLine(dueText);
    var points := PointsLine(numText(ShownTotal(a)));
    var description := DescriptionPart(a.description);
    var blocks := Blocks(a.sections, 0);
    assert CopyText(a, dueText, numText) == start + points + description + blocks;
    OuterParts(start, points, description, blocks);
  }

  /**
   * Adding a section appends exactly one block to the copy text: the new
   * section's fallback heading, no points note and empty content.
   */
  lemma AddAppendsBlock(a: Assignment, now: int, dueText: string, numText: Num -> string)
    ensures var b := a.(sections := AddNewSection(a.sections, now));
            CopyText(b, dueText, numText)
            == CopyText(a, dueText, numText) + Opening(NewSection(now), |a.sections|) + Closing(NewSection(now))
  {
    var b := a.(sections := AddNewSection(a.sections, now));
    var s := NewSection(now);
    var n := |a.sections|;
    AddKeepsTotal(a.sections, now);
    assert ShownTotal(b) == ShownTotal(a);
    var head := Header(a, dueText, numText(ShownTotal(a)));
    assert Header(b, dueText, numText(ShownTotal(b))) == head;
    assert b.sections[..n] == a.sections && b.sections[n] == s;
    assert PointsNote(s) == "";
    assert Block(s, n) == Opening(s, n) + "" + Closing(s);
    assert Blocks(b.sections, 0) == Blocks(a.sections, 0) + Block(s, n);
    AppendTwo(head, Blocks(a.sections, 0), Opening(s, n), Closing(s));
  }

  lemma AppendTwo(w: string, x: string, y: string, z: string)
    ensures w + (x + (y + "" + z)) == w + x + y + z
  {
  }

  /** The new section's block, spelled out: two spaces separate its heading from the dashes. */
  lemma NewSectionBlock(now: int, index: nat)
    ensures Block(NewSection(now), index) == "--- Section " + NatToString(index + 1) + "  ---\n\n\n"
  {
    var s := NewSection(now);
    var number := NatToString(index + 1);
    assert PointsNote(s) == "" && s.content == "" && s.title == "";
    assert Block(s, index) == "--- " + ("Section " + number) + " " + "" + (" ---\n" + "" + "\n\n");
    EmptyBlockText(number);
  }

  lemma EmptyBlockText(number: string)
    ensures "--- " + ("Section " + number) + " " + "" + (" ---\n" + "" + "\n\n")
            == "--- Section " + number + "  ---\n\n\n"
  {
  }

  /** The `forEach` loop: appends one block per section, in order. */
  method AppendBlocks(text: string, sections: seq<Section>) returns (out: string)
    ensures out == text + Blocks(sections, 0)
  {
    out := text;
    var i := 0;
    while i < |sections|
      invariant 0 <= i <= |sections|
      invariant out == text + Blocks(sections[..i], 0)
    {
      var section := sections[i];
      out := out + Opening(section, i);
      out := AppendPointsNote(out, section);
      out := out + Closing(section);
      BlocksStep(text, sections, i);
      i := i + 1;
    }
    assert sections[..i] == sections;
  }

  /** `if (section.points) text += \`(${section.points} points)\``. */
  method AppendPointsNote(text: string, section: Section) returns (out: string)
    ensures out == text + PointsNote(section)
  {
    out := text;
    if section.points.Some? && section.points.value != 0 {
      out := out + "(" + IntToString(section.points.value) + " points)";
    }
  }

  /** One loop step appends the next block. */
  lemma BlocksStep(text: string, sections: seq<Section>, i: nat)
    requires i < |sections|
    ensures text + Blocks(sections[..i], 0) + Opening(sections[i], i) + PointsNote(sections[i]) + Closing(sections[i])
            == text + Blocks(sections[..i + 1], 0)
  {
    JoinedStep(sections, i, Block);
    Regroup(text, Blocks(sections[..i], 0), Opening(sections[i], i), PointsNote(sections[i]), Closing(sections[i]));
  }

  lemma JoinedStep<T>(xs: seq<T>, i: nat, block: (T, nat) -> string)
    requires i < |xs|
    ensures Joined(xs[..i + 1], 0, block) == Joined(xs[..i], 0, block) + block(xs[i], i)
  {
    assert xs[..i + 1][..i] == xs[..i];
  }

  lemma Regroup<T>(t: seq<T>, x: seq<T>, o: seq<T>, n: seq<T>, c: seq<T>)
    ensures t + x + o + n + c == t + (x + (o + n + c))
  {
  }

  /** `handleCopyToClipboard`'s text, built by appending step by step. */
  method BuildCopyText(a: Assignment, dueText: string, numText: Num -> string) returns (text: string)
    ensures text == CopyText(a, dueText, numText)
  {
    text := TitleLine(a.title);
    text := text + DueLine(dueText);
    text := text + PointsLine(numText(ShownTotal(a)));
    if a.description != "" {
      text := text + DescriptionPart(a.description);
    } else {
      assert text + DescriptionPart(a.description) == text;
    }
    text := AppendBlocks(text, a.sections);
  }

  /** The form's due text: the locale date string, or "No due date" when the field is empty. */
  function FormDueText(dueDate: string, localeDate: string -> string): (t: string)
    ensures dueDate == "" ==> t == "No due date"
    ensures dueDate != "" ==> t == localeDate(dueDate)
  {
    if dueDate != "" then localeDate(dueDate) else "No due date"
  }

  // ---------------------------------------------------------------------
  // The form's state
  // ---------------------------------------------------------------------

  class Form {
    var assignment: Assignment

    constructor ()
      ensures assignment == EmptyAssignment
    {
      assignment := EmptyAssignment;
    }

    /** `updateAssignment(field, value)`. */
    method UpdateAssignment(e: AssignmentEdit)
      modifies this
      ensures assignment == Applied(old(assignment), e)
    {
      assignment := Applied(assignment, e);
    }

    /** `handleSectionUpdate`: the builder's new list replaces the sections. */
    method HandleSectionUpdate(sections: seq<Section>)
      modifies this
      ensures assignment == old(assignment).(sections := sections)
    {
      assignment := assignment.(sections := sections);
    }

    /** `handleCopyToClipboard`: the text handed to the clipboard. */
    method HandleCopy(localeDate: string -> string, numText: Num -> string) returns (text: string)
      ensures text == CopyText(assignment, FormDueText(assignment.dueDate, localeDate), numText)
    {
      text := BuildCopyText(assignment, FormDueText(assignment.dueDate, localeDate), numText);
    }
  }
}
