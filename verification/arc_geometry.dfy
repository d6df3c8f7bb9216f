/**
 The arc layout shared by both CircularStackView initializers: when a span
 counts as a full turn, how many steps it is cut into, and the angle of each
 child slot. Angles are radians over `real`; cosine and sine are supplied by
 the caller as a `Trig` value.
 */
module ArcGeometry {

  /** The decimal Swift prints for `.pi`, taken as an exact real. */
  const Pi: real := 3.141592653589793

  /** Slack, in radians, within which a span of 2*pi counts as a full turn. */
  const FullTurnTolerance: real := 0.01

  /** The initializers' default `startAngle` (`-.pi*1.5`) and `endAngle` (`.pi/2`). */
  const DefaultStartAngle: real := -Pi * 1.5
  const DefaultEndAngle: real := Pi / 2.0

  /** A `CGSize`: the offset of a child from the centre of the stack. */
  datatype Size = Size(width: real, height: real)

  /** A SwiftUI `Angle`, built from radians. */
  datatype Angle = Angle(radians: real)

  /** The platform's cosine and sine, which this model does not compute. */
  datatype Trig = Trig(cos: real -> real, sin: real -> real)

  /** The one fact about cosine and sine the layout relies on. */
  ghost predicate Pythagorean(trig: Trig) {
    forall x :: trig.cos(x) * trig.cos(x) + trig.sin(x) * trig.sin(x) == 1.0
  }

  function Abs(x: real): real {
    if x < 0.0 then -x else x
  }

  /** `diffFrom2PI`: how far the magnitude of the span is from a whole turn. */
  function DiffFromTwoPi(startAngle: real, endAngle: real): (diff: real)
    ensures diff >= 0.0
    ensures diff == 0.0 <==> endAngle - startAngle == Pi * 2.0 || startAngle - endAngle == Pi * 2.0
  {
    Abs(Abs(endAngle - startAngle) - Pi * 2.0)
  }

  /** The span is a full turn unless it misses 2*pi by more than the tolerance. */
  predicate IsFullTurn(startAngle: real, endAngle: real)
    ensures IsFullTurn(startAngle, endAngle) ==> startAngle != endAngle
  {
    !(FullTurnTolerance < DiffFromTwoPi(startAngle, endAngle))
  }

  /** Number of steps the span is cut into: one per child on a full turn, one fewer on a partial arc. */
  function StepDenominator(childCount: int, startAngle: real, endAngle: real): (d: real)
    ensures childCount >= 1 && ValidCount(childCount, startAngle, endAngle) ==> d >= 1.0
    ensures d == childCount as real || d == (childCount - 1) as real
  {
    if IsFullTurn(startAngle, endAngle) then childCount as real else (childCount - 1) as real
  }

  /**
   What the initializers need of their inputs: `0..<childCount` must be a
   valid range, and a single child on a partial arc would divide by zero.
   */
  predicate ValidCount(childCount: int, startAngle: real, endAngle: real) {
    childCount >= 0 && (childCount == 1 ==> IsFullTurn(startAngle, endAngle))
  }

  /** `angleStep`: the angle between consecutive children. */
  function AngleStep(childCount: int, startAngle: real, endAngle: real): (step: real)
    requires ValidCount(childCount, startAngle, endAngle) && childCount >= 1
    ensures StepDenominator(childCount, startAngle, endAngle) >= 1.0
    ensures step * StepDenominator(childCount, startAngle, endAngle) == endAngle - startAngle
  {
    (endAngle - startAngle) / StepDenominator(childCount, startAngle, endAngle)
  }

  /** `offsetAngle` of the child at `index`. */
  function SlotAngle(childCount: int, startAngle: real, endAngle: real, index: int): (angle: real)
    requires ValidCount(childCount, startAngle, endAngle) && 0 <= index < childCount
    ensures index == 0 ==> angle == startAngle
  {
    startAngle + AngleStep(childCount, startAngle, endAngle) * index as real
  }

  /** The initializers' form of the step, `(1 / denominator) * span`, is `AngleStep`. */
  lemma StepFromReciprocal(childCount: int, startAngle: real, endAngle: real)
    requires ValidCount(childCount, startAngle, endAngle) && childCount >= 1
    ensures (1.0 / StepDenominator(childCount, startAngle, endAngle)) * (endAngle - startAngle)
            == AngleStep(childCount, startAngle, endAngle)
  {
  }

  /** Child `index` sits `index / denominator` of the way along the span. */
  lemma SlotAngleFraction(childCount: int, startAngle: real, endAngle: real, index: int)
    requires ValidCount(childCount, startAngle, endAngle) && 0 <= index < childCount
    ensures (SlotAngle(childCount, startAngle, endAngle, index) - startAngle) * StepDenominator(childCount, startAngle, endAngle)
            == (endAngle - startAngle) * index as real
  {
  }

  /** A full turn is a span whose magnitude lies in the closed band 2*pi plus or minus the tolerance. */
  lemma FullTurnBand(startAngle: real, endAngle: real)
    ensures IsFullTurn(startAngle, endAngle) <==>
      Pi * 2.0 - FullTurnTolerance <= Abs(endAngle - startAngle) <= Pi * 2.0 + FullTurnTolerance
  {
  }

  /** The threshold is inclusive: a miss of exactly the tolerance is still a full turn. */
  lemma DenominatorRule(childCount: int, startAngle: real, endAngle: real)
    ensures StepDenominator(childCount, startAngle, endAngle) == childCount as real
            <==> DiffFromTwoPi(startAngle, endAngle) <= FullTurnTolerance
    ensures StepDenominator(childCount, startAngle, endAngle) == (childCount - 1) as real
            <==> FullTurnTolerance < DiffFromTwoPi(startAngle, endAngle)
  {
  }

  /** Spans of exactly 2*pi plus or minus the tolerance, in either direction, are full turns. */
  lemma ToleranceBoundary(startAngle: real)
    ensures IsFullTurn(startAngle, startAngle + Pi * 2.0 + FullTurnTolerance)
    ensures IsFullTurn(startAngle, startAngle + Pi * 2.0 - FullTurnTolerance)
    ensures IsFullTurn(startAngle, startAngle - Pi * 2.0 - FullTurnTolerance)
    ensures !IsFullTurn(startAngle, startAngle + Pi * 2.0 + 2.0 * FullTurnTolerance)
  {
  }

  /** The default angles describe exactly one turn, so they always take the full-turn branch. */
  lemma DefaultAnglesAreFullTurn(childCount: int)
    ensures DefaultEndAngle - DefaultStartAngle == Pi * 2.0
    ensures IsFullTurn(DefaultStartAngle, DefaultEndAngle)
    ensures StepDenominator(childCount, DefaultStartAngle, DefaultEndAngle) == childCount as real
  {
  }

  /** With the default angles, child `i` of `n` sits at `start + 2*pi*i/n`. */
  lemma DefaultSlots(childCount: int, index: int)
    requires 0 <= index < childCount
    ensures ValidCount(childCount, DefaultStartAngle, DefaultEndAngle)
    ensures SlotAngle(childCount, DefaultStartAngle, DefaultEndAngle, index)
            == DefaultStartAngle + Pi * 2.0 * index as real / childCount as real
  {
    DefaultAnglesAreFullTurn(childCount);
  }

  /** The first child sits at `startAngle`. */
  lemma FirstSlotAtStart(childCount: int, startAngle: real, endAngle: real)
    requires ValidCount(childCount, startAngle, endAngle) && childCount >= 1
    ensures SlotAngle(childCount, startAngle, endAngle, 0) == startAngle
  {
  }

  /** Consecutive children are exactly one step apart, and the step is the span over the denominator. */
  lemma EqualSpacing(childCount: int, startAngle: real, endAngle: real, index: int)
    requires ValidCount(childCount, startAngle, endAngle) && 0 <= index && index + 1 < childCount
    ensures SlotAngle(childCount, startAngle, endAngle, index + 1) - SlotAngle(childCount, startAngle, endAngle, index)
            == (endAngle - startAngle) / StepDenominator(childCount, startAngle, endAngle)
  {
  }

  /** On a partial arc with two or more children, the last one lands exactly on `endAngle`. */
  lemma LastSlotAtEndOnPartialArc(childCount: int, startAngle: real, endAngle: real)
    requires childCount >= 2 && !IsFullTurn(startAngle, endAngle)
    ensures ValidCount(childCount, startAngle, endAngle)
    ensures SlotAngle(childCount, startAngle, endAngle, childCount - 1) == endAngle
  {
  }

  /**
   On a full turn the last child stops one step short of `endAngle`, at
   `start + span*(n-1)/n`, so the start position is not repeated.
   */
  lemma LastSlotOnFullTurn(childCount: int, startAngle: real, endAngle: real)
    requires childCount >= 1 && IsFullTurn(startAngle, endAngle)
    ensures ValidCount(childCount, startAngle, endAngle)
    ensures SlotAngle(childCount, startAngle, endAngle, childCount - 1)
            == startAngle + (endAngle - startAngle) * (childCount - 1) as real / childCount as real
    ensures SlotAngle(childCount, startAngle, endAngle, childCount - 1) + AngleStep(childCount, startAngle, endAngle)
            == endAngle
    ensures SlotAngle(childCount, startAngle, endAngle, childCount - 1) != endAngle
  {
  }

  /** Children advance monotonically from `startAngle` in the direction of `endAngle`. */
  lemma SlotsOrdered(childCount: int, startAngle: real, endAngle: real, i: int, j: int)
    requires ValidCount(childCount, startAngle, endAngle) && 0 <= i < j < childCount
    ensures startAngle < endAngle ==> SlotAngle(childCount, startAngle, endAngle, i) < SlotAngle(childCount, startAngle, endAngle, j)
    ensures endAngle < startAngle ==> SlotAngle(childCount, startAngle, endAngle, j) < SlotAngle(childCount, startAngle, endAngle, i)
    ensures startAngle == endAngle ==> SlotAngle(childCount, startAngle, endAngle, i) == SlotAngle(childCount, startAngle, endAngle, j)
  {
    var step := AngleStep(childCount, startAngle, endAngle);
    var gap := (j - i) as real;
    assert SlotAngle(childCount, startAngle, endAngle, j) - SlotAngle(childCount, startAngle, endAngle, i) == step * gap;
    StepHasSpanSign(childCount, startAngle, endAngle);
    ProductSign(step, gap);
  }

  /**
   Every child lies on the arc: between the two ends on a partial arc, and
   from `startAngle` up to but excluding `endAngle` on a full turn.
   */
  lemma SlotsWithinArc(childCount: int, startAngle: real, endAngle: real, index: int)
    requires ValidCount(childCount, startAngle, endAngle) && 0 <= index < childCount
    ensures startAngle <= endAngle ==> startAngle <= SlotAngle(childCount, startAngle, endAngle, index) <= endAngle
    ensures endAngle <= startAngle ==> endAngle <= SlotAngle(childCount, startAngle, endAngle, index) <= startAngle
    ensures IsFullTurn(startAngle, endAngle) ==> SlotAngle(childCount, startAngle, endAngle, index) != endAngle
  {
    var step := AngleStep(childCount, startAngle, endAngle);
    var d := StepDenominator(childCount, startAngle, endAngle);
    var done, left := index as real, d - index as real;
    assert left >= 0.0 && (IsFullTurn(startAngle, endAngle) ==> left > 0.0);
    assert SlotAngle(childCount, startAngle, endAngle, index) - startAngle == step * done;
    assert endAngle - SlotAngle(childCount, startAngle, endAngle, index) == step * left;
    StepHasSpanSign(childCount, startAngle, endAngle);
    ProductSign(step, done);
    ProductSign(step, left);
  }

  /**
   On a full turn whose span is at most 2*pi, no two children coincide
   modulo a whole turn.
   */
  lemma DistinctModuloTurn(childCount: int, startAngle: real, endAngle: real, i: int, j: int, turns: int)
    requires ValidCount(childCount, startAngle, endAngle) && 0 <= i < j < childCount
    requires IsFullTurn(startAngle, endAngle) && Abs(endAngle - startAngle) <= Pi * 2.0
    ensures SlotAngle(childCount, startAngle, endAngle, j) - SlotAngle(childCount, startAngle, endAngle, i)
            != turns as real * Pi * 2.0
  {
    var step := AngleStep(childCount, startAngle, endAngle);
    var d := StepDenominator(childCount, startAngle, endAngle);
    var gap := (j - i) as real;
    var apart := SlotAngle(childCount, startAngle, endAngle, j) - SlotAngle(childCount, startAngle, endAngle, i);
    assert apart == step * gap;
    assert d == childCount as real;
    assert 0.0 < gap < d;
    StepHasSpanSign(childCount, startAngle, endAngle);
    // the children are apart by a nonzero fraction of the span, hence by less than a turn
    ProductSign(step, gap);
    ProductSign(step, d - gap);
    if startAngle < endAngle {
      assert 0.0 < apart < endAngle - startAngle;
    } else {
      assert endAngle - startAngle < apart < 0.0;
    }
    assert 0.0 < Abs(apart) < Pi * 2.0;
    if turns >= 1 {
      ProductSign(turns as real - 1.0, Pi * 2.0);
    } else if turns <= -1 {
      ProductSign(-1.0 - turns as real, Pi * 2.0);
    }
  }

  /** The step points the same way as the span, since the denominator is positive. */
  lemma StepHasSpanSign(childCount: int, startAngle: real, endAngle: real)
    requires ValidCount(childCount, startAngle, endAngle) && childCount >= 1
    ensures startAngle < endAngle ==> AngleStep(childCount, startAngle, endAngle) > 0.0
    ensures endAngle < startAngle ==> AngleStep(childCount, startAngle, endAngle) < 0.0
    ensures startAngle == endAngle ==> AngleStep(childCount, startAngle, endAngle) == 0.0
    ensures IsFullTurn(startAngle, endAngle) ==> startAngle != endAngle
  {
    var d := StepDenominator(childCount, startAngle, endAngle);
    ProductSign(AngleStep(childCount, startAngle, endAngle), d);
  }

  /** Multiplying by a nonnegative factor keeps the sign; by a positive one, also nonzero-ness. */
  lemma ProductSign(x: real, y: real)
    requires y >= 0.0
    ensures x >= 0.0 ==> x * y >= 0.0
    ensures x <= 0.0 ==> x * y <= 0.0
    ensures y > 0.0 && x > 0.0 ==> x * y > 0.0
    ensures y > 0.0 && x < 0.0 ==> x * y < 0.0
  {
  }

  /**
   A span a little over 2*pi still counts as a full turn, and then two
   children can sit a whole turn apart: 1000 children over 2*pi*1000/999.
   */
  lemma FullTurnAboveTwoPiCanRepeat()
    ensures IsFullTurn(0.0, Pi * 2.0 * 1000.0 / 999.0)
    ensures SlotAngle(1000, 0.0, Pi * 2.0 * 1000.0 / 999.0, 999) - SlotAngle(1000, 0.0, Pi * 2.0 * 1000.0 / 999.0, 0)
            == Pi * 2.0
  {
  }

  /** Every offset lies on the circle of the given radius. */
  lemma OffsetOnCircle(trig: Trig, radius: real, angle: real)
    requires Pythagorean(trig)
    ensures (radius * trig.cos(angle)) * (radius * trig.cos(angle)) + (radius * trig.sin(angle)) * (radius * trig.sin(angle))
            == radius * radius
  {
  }
}
