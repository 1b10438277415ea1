/**
 * Assignment sections and the list operations the section builder hands
 * to its parent: append a blank section, edit one field of the sections
 * with a given id, delete the sections with a given id.
 *
 * A section's `points` is `undefined` or a whole number: every path that
 * sets it stores `0` or `parseInt(...) || 0`.
 */
module SectionBuilder {
  import opened Js
  import opened Folds
  import opened Store

  datatype Section = Section(id: string, title: string, content: string, points: Option<int>)

  function SectionId(s: Section): string { s.id }

  /** `section.points || 0`: a missing or zero value counts as 0. */
  function PointsOrZero(s: Section): (p: int)
    ensures s.points.None? ==> p == 0
    ensures s.points.Some? ==> p == s.points.value
  {
    ParsedOrZero(s.points, 0)
  }

  /** The section "Add Section" creates at clock reading `now` (milliseconds). */
  function NewSection(now: int): (s: Section)
    ensures s.title == "" && s.content == "" && s.points == Some(0)
    ensures s.id == "section-" + IntToString(now)
  {
    Section("section-" + IntToString(now), "", "", Some(0))
  }

  /** `addNewSection`: `[...sections, newSection]`. */
  function AddNewSection(sections: seq<Section>, now: int): (r: seq<Section>)
    ensures |r| == |sections| + 1
    ensures r[..|sections|] == sections
    ensures r[|sections|] == NewSection(now)
  {
    sections + [NewSection(now)]
  }

  /** The three edits the inputs make: title, content, and the parsed points. */
  datatype SectionEdit = SetTitle(title: string) | SetContent(content: string) | SetPoints(points: int)

  /** `{ ...section, [field]: value }`: the named field changes, the others and the id stay. */
  function Edited(s: Section, e: SectionEdit): (r: Section)
    ensures r.id == s.id
    ensures r.title == (if e.SetTitle? then e.title else s.title)
    ensures r.content == (if e.SetContent? then e.content else s.content)
    ensures r.points == (if e.SetPoints? then Some(e.points) else s.points)
  {
    match e
    case SetTitle(t) => s.(title := t)
    case SetContent(c) => s.(content := c)
    case SetPoints(p) => s.(points := Some(p))
  }

  /** The points input: `parseInt(value) || 0`, where `parsed` is `None` for NaN. */
  function PointsEdit(parsed: Option<int>): (e: SectionEdit)
    ensures e.SetPoints?
    ensures parsed.None? ==> e.points == 0
    ensures parsed.Some? ==> e.points == parsed.value
  {
    SetPoints(ParsedOrZero(parsed, 0))
  }

  /** `updateSection`: `sections.map(s => s.id === id ? edited : s)`. */
  function UpdateSection(sections: seq<Section>, id: string, e: SectionEdit): (r: seq<Section>)
    ensures |r| == |sections|
    ensures forall i :: 0 <= i < |sections| && sections[i].id == id ==> r[i] == Edited(sections[i], e)
    ensures forall i :: 0 <= i < |sections| && sections[i].id != id ==> r[i] == sections[i]
  {
    seq(|sections|, i requires 0 <= i < |sections| => if sections[i].id == id then Edited(sections[i], e) else sections[i])
  }

  /** Updating keeps every section's id in its place. */
  lemma UpdateKeepsIds(sections: seq<Section>, id: string, e: SectionEdit)
    ensures forall i :: 0 <= i < |sections| ==> UpdateSection(sections, id, e)[i].id == sections[i].id
  {
  }

  /** Updating an id no section carries gives back an equal list. */
  lemma UpdateAbsent(sections: seq<Section>, id: string, e: SectionEdit)
    requires !HasKey(sections, SectionId, id)
    ensures UpdateSection(sections, id, e) == sections
  {
    var r := UpdateSection(sections, id, e);
    forall i | 0 <= i < |sections| ensures r[i] == sections[i] {
      assert SectionId(sections[i]) != id;
    }
  }

  /**
   * Two sections added in the same millisecond share an id, and an edit
   * aimed at one reaches both.
   */
  lemma SameMillisecondEditedTogether(sections: seq<Section>, now: int, e: SectionEdit)
    ensures var both := AddNewSection(AddNewSection(sections, now), now);
            var r := UpdateSection(both, NewSection(now).id, e);
            r[|sections|] == Edited(NewSection(now), e) && r[|sections| + 1] == Edited(NewSection(now), e)
  {
  }

  /** `deleteSection`: the sections whose id differs, in their order. */
  function DeleteSection(sections: seq<Section>, id: string): (r: seq<Section>)
    ensures |r| <= |sections|
    ensures forall s :: s in r <==> s in sections && s.id != id
    ensures !HasKey(r, SectionId, id)
  {
    var r := Without(sections, SectionId, id);
    assert forall i :: 0 <= i < |r| ==> r[i] in r;
    r
  }

  /** Deleting twice is deleting once. */
  lemma DeleteIdempotent(sections: seq<Section>, id: string)
    ensures DeleteSection(DeleteSection(sections, id), id) == DeleteSection(sections, id)
  {
    FilterIdempotent(sections, KeyIsNot(SectionId, id));
  }

  /** Deleting an id no section carries changes nothing. */
  lemma DeleteAbsent(sections: seq<Section>, id: string)
    requires !HasKey(sections, SectionId, id)
    ensures DeleteSection(sections, id) == sections
  {
    forall s | s in sections ensures KeyIsNot(SectionId, id)(s) {
      var i :| 0 <= i < |sections| && sections[i] == s;
    }
    FilterAll(sections, KeyIsNot(SectionId, id));
  }

  /** Deletion works piecewise, so the kept sections stay in their order. */
  lemma DeleteSplits(front: seq<Section>, back: seq<Section>, id: string)
    ensures DeleteSection(front + back, id) == DeleteSection(front, id) + DeleteSection(back, id)
  {
    FilterAppend(front, back, KeyIsNot(SectionId, id));
  }

  /** Deleting the id of two sections added in the same millisecond removes both. */
  lemma SameMillisecondDeletedTogether(sections: seq<Section>, now: int)
    ensures var id := NewSection(now).id;
            DeleteSection(AddNewSection(AddNewSection(sections, now), now), id) == DeleteSection(sections, id)
  {
    var id := NewSection(now).id;
    var p := KeyIsNot(SectionId, id);
    var s := NewSection(now);
    assert AddNewSection(AddNewSection(sections, now), now) == sections + [s, s];
    FilterAppend(sections, [s, s], p);
    assert !p(s);
  }

  // ---------------------------------------------------------------------
  // What the builder renders
  // ---------------------------------------------------------------------

  const NoSectionsMessage: string := "No sections yet. Add a section to get started."

  /** The card heading `Section {index + 1}`; the builder numbers every section, titled or not. */
  function CardHeading(index: nat): (h: string)
    ensures h == "Section " + NatToString(index + 1)
  {
    "Section " + NatToString(index + 1)
  }

  /** The empty-list notice shows exactly when there are no sections. */
  function Notice(sections: seq<Section>): (m: Option<string>)
    ensures m.Some? <==> sections == []
    ensures m.Some? ==> m.value == NoSectionsMessage
  {
    if sections == [] then Some(NoSectionsMessage) else None
  }

  /** After adding a section the notice is gone. */
  lemma AddClearsNotice(sections: seq<Section>, now: int)
    ensures Notice(AddNewSection(sections, now)).None?
  {
  }
}
