/**
 * The inline assignment preview: the loop that totals the section points,
 * the title and heading fallbacks, the points labels and the placeholder.
 */
module AssignmentPreview {
  import opened Js
  import opened SectionBuilder
  import opened AssignmentForm

  const Placeholder: string := "Preview will appear here as you build your assignment."

  /** `assignment.title || 'Untitled Assignment'`. */
  function TitleOf(a: Assignment): (t: string)
    ensures a.title != "" ==> t == a.title
    ensures a.title == "" ==> t == "Untitled Assignment"
  {
    if a.title != "" then a.title else "Untitled Assignment"
  }

  /**
   * `calculateTotalPoints`: a `forEach` that adds the truthy points. It
   * agrees with the `reduce` form, which adds `points || 0`.
   */
  method CalculateTotalPoints(sections: seq<Section>) returns (sectionPoints: int)
    ensures sectionPoints == TotalPoints(sections)
  {
    sectionPoints := 0;
    var i := 0;
    while i < |sections|
      invariant 0 <= i <= |sections|
      invariant sectionPoints == TotalPoints(sections[..i])
    {
      if sections[i].points.Some? && sections[i].points.value != 0 {
        sectionPoints := sectionPoints + sections[i].points.value;
      }
      assert sections[..i + 1][..i] == sections[..i];
      i := i + 1;
    }
    assert sections[..i] == sections;
  }

  /** One rendered section: heading, points label (only for points above 0), content, separator above. */
  datatype PreviewSection = PreviewSection(heading: string, pointsLabel: Option<int>, content: string, separatorAbove: bool)

  datatype Preview = Preview(
    title: string,
    due: string,
    total: Num,
    description: Option<string>,
    sections: seq<PreviewSection>,
    placeholder: bool)

  /** `section.points !== undefined && section.points > 0`. */
  function PointsLabel(s: Section): (l: Option<int>)
    ensures l.Some? <==> s.points.Some? && s.points.value > 0
    ensures l.Some? ==> l.value == s.points.value
  {
    if s.points.Some? && s.points.value > 0 then s.points else None
  }

  function SectionView(s: Section, index: nat): PreviewSection
  {
    PreviewSection(SectionHeading(s, index), PointsLabel(s), s.content, index > 0)
  }

  /**
   * The preview of `a`, or `None` when `format(new Date(dueDate), ...)`
   * throws (there is no `try` around it here).
   */
  function PreviewOf(a: Assignment, format: string -> Option<string>): (p: Option<Preview>)
    ensures p.None? <==> a.dueDate != "" && format(a.dueDate).None?
    ensures p.Some? ==>
              p.value.title == TitleOf(a)
              && p.value.due == (if a.dueDate == "" then "No due date" else format(a.dueDate).value)
              && p.value.total == ShownTotal(a)
              && (p.value.description.Some? <==> a.description != "")
              && |p.value.sections| == |a.sections|
              && (forall i :: 0 <= i < |a.sections| ==> p.value.sections[i] == SectionView(a.sections[i], i))
              && (p.value.placeholder <==> a.sections == [] && a.description == "")
  {
    var due := if a.dueDate == "" then Some("No due date") else format(a.dueDate);
    if due.None? then None
    else
      Some(Preview(
        TitleOf(a),
        due.value,
        ShownTotal(a),
        if a.description != "" then Some(a.description) else None,
        seq(|a.sections|, i requires 0 <= i < |a.sections| => SectionView(a.sections[i], i)),
        a.sections == [] && a.description == ""))
  }

  /** Renders the preview, totalling the points with the loop. */
  method Render(a: Assignment, format: string -> Option<string>) returns (p: Option<Preview>)
    ensures p == PreviewOf(a, format)
  {
    var due := if a.dueDate == "" then Some("No due date") else format(a.dueDate);
    if due.None? {
      return None;
    }
    var sectionPoints := CalculateTotalPoints(a.sections);
    var total := if Truthy(a.totalPoints) then a.totalPoints else Finite(sectionPoints as real);
    p := Some(Preview(
      TitleOf(a),
      due.value,
      total,
      if a.description != "" then Some(a.description) else None,
      seq(|a.sections|, i requires 0 <= i < |a.sections| => SectionView(a.sections[i], i)),
      a.sections == [] && a.description == ""));
  }

  /** The placeholder shows only when the preview has nothing else in its body. */
  lemma PlaceholderOnlyWhenEmpty(a: Assignment, format: string -> Option<string>)
    requires PreviewOf(a, format).Some?
    ensures var p := PreviewOf(a, format).value;
            p.placeholder <==> p.description.None? && p.sections == []
  {
  }

  /**
   * A negative points value is noted in the copy text but gets no label in
   * the preview: the two disagree on what counts as points worth showing.
   */
  lemma NegativePointsOnlyCopied(s: Section, index: nat)
    requires s.points == Some(-5)
    ensures PointsNote(s) == "(-5 points)"
    ensures SectionView(s, index).pointsLabel.None?
  {
    assert IntToString(-5) == "-" + NatToString(5);
  }
}
