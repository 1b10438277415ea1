/**
 * The section editor: the same `updateSection` and `deleteSection` as the
 * builder, with numbered cards, a points badge and a numbered title
 * placeholder.
 */
module SectionEditor {
  import opened Js
  import opened SectionBuilder

  /** One card: the number in the circle, the badge text and the title placeholder. */
  datatype EditorCard = EditorCard(number: nat, badge: string, placeholder: string)

  datatype View = NoSections(message: string) | Cards(cards: seq<EditorCard>)

  /** The card of the section at `index`: numbered `index + 1`, badge `{points || 0} points`. */
  function CardFor(s: Section, index: nat): (c: EditorCard)
    ensures c.number == index + 1
    ensures c.badge == IntToString(PointsOrZero(s)) + " points"
    ensures c.placeholder == CardHeading(index)
  {
    EditorCard(index + 1, IntToString(PointsOrZero(s)) + " points", "Section " + NatToString(index + 1))
  }

  function ViewOf(sections: seq<Section>): (v: View)
    ensures v.NoSections? <==> sections == []
    ensures v.NoSections? ==> v.message == NoSectionsMessage
    ensures v.Cards? ==> |v.cards| == |sections| && forall i :: 0 <= i < |sections| ==> v.cards[i] == CardFor(sections[i], i)
  {
    if sections == [] then NoSections(NoSectionsMessage)
    else Cards(seq(|sections|, i requires 0 <= i < |sections| => CardFor(sections[i], i)))
  }

  /**
   * The cards are numbered 1, 2, ... without gaps, also right after a
   * deletion, and each placeholder carries its card's number.
   */
  lemma NumberedWithoutGaps(sections: seq<Section>, id: string)
    ensures var v := ViewOf(DeleteSection(sections, id));
            v.Cards? ==> forall i :: 0 <= i < |v.cards| ==>
                           (v.cards[i].number == i + 1 && v.cards[i].placeholder == "Section " + NatToString(v.cards[i].number))
  {
  }

  /** A fresh section's badge reads "0 points"; so does one whose points were never set. */
  lemma ZeroBadges(now: int, s: Section, index: nat)
    requires s.points.None?
    ensures CardFor(NewSection(now), index).badge == "0 points"
    ensures CardFor(s, index).badge == "0 points"
  {
    assert NatToString(0) == [DigitChar(0)] == "0";
    assert IntToString(0) == "0";
  }
}
