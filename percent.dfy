/**
 * The two percentage formulas the client uses:
 *
 *  - clamped: `Math.min(Math.round((part / whole) * 100), 100)`, with no
 *    guard on `whole` (BudgetProgress, BudgetOverview, BudgetManager,
 *    SavingsGoals);
 *  - guarded: `whole > 0 ? (part / whole) * 100 : 0`, with no clamp
 *    (the dashboard route, GoalCards, SavingsGoalsList).
 */
module Percent {
  import opened Js

  function ClampedPercentage(part: real, whole: real): Num
  {
    MinNum(RoundNum(Scale(Div(part, whole), 100.0)), 100.0)
  }

  /** A clamped percentage is a whole number no greater than 100, or NaN, or -Infinity. */
  lemma ClampedAtMost100(part: real, whole: real)
    ensures var p := ClampedPercentage(part, whole);
            !Greater(p, 100.0)
            && (p.Finite? ==> p.value <= 100.0 && p.value == p.value.Floor as real)
            && (p.NaN? <==> part == 0.0 && whole == 0.0)
            && (p.NegInf? <==> part < 0.0 && whole == 0.0)
  {
  }

  /**
   * For a positive whole and a non-negative part the clamped percentage is
   * the rounded ratio capped at 100: between 0 and 100, and 100 from the
   * point where the part reaches the whole.
   */
  lemma ClampedInRange(part: real, whole: real)
    requires part >= 0.0 && whole > 0.0
    ensures var p := ClampedPercentage(part, whole);
            p.Finite? && 0.0 <= p.value <= 100.0
            && p.value == (if Round(part / whole * 100.0) <= 100 then Round(part / whole * 100.0) as real else 100.0)
            && (part >= whole ==> p.value == 100.0)
  {
    var x := part / whole * 100.0;
    assert x >= 0.0;
    if part >= whole {
      assert part / whole >= 1.0;
    }
  }

  /** With a fixed positive whole, spending more never lowers the clamped percentage. */
  lemma ClampedMonotone(part1: real, part2: real, whole: real)
    requires 0.0 <= part1 <= part2 && whole > 0.0
    ensures ClampedPercentage(part1, whole).value <= ClampedPercentage(part2, whole).value
  {
    ClampedInRange(part1, whole);
    ClampedInRange(part2, whole);
    QuotientMonotone(part1, part2, whole);
    RoundMonotone(part1 / whole * 100.0, part2 / whole * 100.0);
  }

  lemma QuotientMonotone(a: real, b: real, w: real)
    requires a <= b && w > 0.0
    ensures a / w * 100.0 <= b / w * 100.0
  {
    var qa, qb := a / w, b / w;
    assert qa * w == a && qb * w == b;
  }

  lemma RoundMonotone(x: real, y: real)
    requires x <= y
    ensures Round(x) <= Round(y)
  {
  }

  function GuardedPercentage(part: real, whole: real): (p: real)
    ensures whole <= 0.0 ==> p == 0.0
    ensures whole > 0.0 ==> p * whole == part * 100.0
  {
    if whole > 0.0 then part / whole * 100.0 else 0.0
  }

  /** The guarded percentage is not clamped: a part above the whole gives more than 100. */
  lemma GuardedUnclamped(part: real, whole: real)
    requires whole > 0.0 && part > whole
    ensures GuardedPercentage(part, whole) > 100.0
  {
    assert part / whole > 1.0;
  }

  /** The guarded percentage reaches 50 exactly when the part is half the whole. */
  lemma GuardedHalf(part: real, whole: real)
    requires whole > 0.0
    ensures GuardedPercentage(part, whole) >= 50.0 <==> 2.0 * part >= whole
  {
    var p := GuardedPercentage(part, whole);
    assert p * whole == part * 100.0;
    if p >= 50.0 {
      assert p * whole >= 50.0 * whole;
    } else {
      assert p * whole < 50.0 * whole;
    }
  }

  /** The three colour bands of a percentage: above 90, above 75, the rest. */
  datatype Band = Red | Yellow | Green

  function BandOf(p: Num): (b: Band)
    ensures b == Red <==> Greater(p, 90.0)
    ensures b == Yellow <==> !Greater(p, 90.0) && Greater(p, 75.0)
    ensures b == Green <==> !Greater(p, 75.0)
  {
    if Greater(p, 90.0) then Red else if Greater(p, 75.0) then Yellow else Green
  }

  /** Severity flags nest: a percentage above 90 is also above 75. */
  lemma BandsNest(p: Num)
    ensures Greater(p, 90.0) ==> Greater(p, 75.0)
    ensures Greater(p, 100.0) ==> Greater(p, 90.0)
  {
  }
}
