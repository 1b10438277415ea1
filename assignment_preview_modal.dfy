/**
 * The preview dialog of the creator page: the same title and heading
 * fallbacks as the inline preview, a `try` around the date formatting, a
 * points badge, and a notice when there are no sections.
 */
module AssignmentPreviewModal {
  import opened Js
  import opened SectionBuilder
  import opened AssignmentForm
  import AssignmentPreview

  const NoSectionsNotice: string := "No sections added yet."

  /** `getFormattedDate`: "No due date" when empty, "Invalid date" when formatting throws. */
  function FormattedDate(dueDate: string, format: string -> Option<string>): (t: string)
    ensures dueDate == "" ==> t == "No due date"
    ensures dueDate != "" && format(dueDate).None? ==> t == "Invalid date"
    ensures dueDate != "" && format(dueDate).Some? ==> t == format(dueDate).value
  {
    if dueDate == "" then "No due date"
    else match format(dueDate)
      case Some(t) => t
      case None => "Invalid date"
  }

  datatype ModalSection = ModalSection(heading: string, badge: Option<int>, content: string)

  datatype Modal = Modal(
    title: string,
    due: string,
    total: Num,
    description: Option<string>,
    sections: seq<ModalSection>,
    notice: Option<string>)

  /** The badge's `section.points > 0` is the inline preview's label condition: an undefined value compares false. */
  function SectionView(s: Section, index: nat): ModalSection
  {
    ModalSection(SectionHeading(s, index), AssignmentPreview.PointsLabel(s), s.content)
  }

  function ModalOf(a: Assignment, format: string -> Option<string>): (m: Modal)
    ensures m.title == AssignmentPreview.TitleOf(a)
    ensures m.due == FormattedDate(a.dueDate, format)
    ensures m.total == ShownTotal(a)
    ensures m.description.Some? <==> a.description != ""
    ensures m.notice.Some? <==> a.sections == []
    ensures m.notice.Some? ==> m.notice.value == NoSectionsNotice
    ensures |m.sections| == |a.sections|
    ensures forall i :: 0 <= i < |a.sections| ==> m.sections[i] == SectionView(a.sections[i], i)
  {
    Modal(
      AssignmentPreview.TitleOf(a),
      FormattedDate(a.dueDate, format),
      ShownTotal(a),
      if a.description != "" then Some(a.description) else None,
      seq(|a.sections|, i requires 0 <= i < |a.sections| => SectionView(a.sections[i], i)),
      if a.sections == [] then Some(NoSectionsNotice) else None)
  }

  /**
   * Where the inline preview renders, the dialog shows the same title, date,
   * total, headings and points; where the inline preview throws on the date,
   * the dialog says "Invalid date".
   */
  lemma AgreesWithPreview(a: Assignment, format: string -> Option<string>)
    ensures var p := AssignmentPreview.PreviewOf(a, format);
            var m := ModalOf(a, format);
            (p.None? ==> m.due == "Invalid date")
            && (p.Some? ==>
                  m.title == p.value.title && m.due == p.value.due && m.total == p.value.total
                  && |m.sections| == |p.value.sections|
                  && forall i :: 0 <= i < |m.sections| ==>
                       m.sections[i].heading == p.value.sections[i].heading
                       && m.sections[i].badge == p.value.sections[i].pointsLabel)
  {
  }

  /**
   * Unlike the inline preview's placeholder, the notice depends on the
   * sections alone: an assignment with a description and no sections gets it.
   */
  lemma NoticeIgnoresDescription(a: Assignment, format: string -> Option<string>)
    requires a.sections == [] && a.description != "" && a.dueDate == ""
    ensures ModalOf(a, format).notice == Some(NoSectionsNotice)
    ensures !AssignmentPreview.PreviewOf(a, format).value.placeholder
  {
  }
}
