/**
 The `CircularStackKit` target: every child turns with its place on the arc
 and carries its index, which doubles as its identity.
 */
module CircularStackKit {
  import opened ArcGeometry

  /** Where one child goes; `Id` is the `Identifiable` identity, its index. */
  datatype ChildPosition = ChildPosition(index: int, offset: Size, rotationAngle: Angle) {
    function Id(): int {
      index
    }
  }

  /** Positions numbered by their place in the list, as `Init` builds them, have pairwise distinct ids. */
  lemma IdsDistinct(positions: seq<ChildPosition>)
    requires forall k :: 0 <= k < |positions| ==> positions[k].index == k
    ensures forall i, j :: 0 <= i < j < |positions| ==> positions[i].Id() != positions[j].Id()
  {
  }

  /** The stored properties of the view; its `content` closure is not modelled. */
  datatype View = View(startAngle: real, endAngle: real, radius: real, childPositions: seq<ChildPosition>)

  /**
   The initializer: one position per child, in index order, recording its
   index, placed on the circle at its slot angle and rotated by that angle
   plus a quarter turn.
   */
  method Init(trig: Trig, childCount: int, startAngle: real, endAngle: real, radius: real)
    returns (view: View)
    requires ValidCount(childCount, startAngle, endAngle)
    ensures view.startAngle == startAngle && view.endAngle == endAngle && view.radius == radius
    ensures |view.childPositions| == childCount
    ensures forall i :: 0 <= i < childCount ==>
      view.childPositions[i].index == i && view.childPositions[i].Id() == i
    ensures forall i, j :: 0 <= i < j < childCount ==>
      view.childPositions[i].Id() != view.childPositions[j].Id()
    ensures forall i :: 0 <= i < childCount ==>
      view.childPositions[i].offset
      == Size(radius * trig.cos(SlotAngle(childCount, startAngle, endAngle, i)),
              radius * trig.sin(SlotAngle(childCount, startAngle, endAngle, i)))
    ensures forall i :: 0 <= i < childCount ==>
      view.childPositions[i].rotationAngle == Angle(SlotAngle(childCount, startAngle, endAngle, i) + Pi / 2.0)
  {
    var denominator := childCount as real;
    var diffFrom2Pi := DiffFromTwoPi(startAngle, endAngle);
    if FullTurnTolerance < diffFrom2Pi {
      denominator := denominator - 1.0;
    }
    // A zero denominator leaves only the case of no children on a full turn:
    // the (non-finite) step is then never used, so any value will do.
    var angleStep := if denominator != 0.0 then (1.0 / denominator) * (endAngle - startAngle) else 0.0;
    assert denominator == StepDenominator(childCount, startAngle, endAngle);
    if childCount >= 1 {
      StepFromReciprocal(childCount, startAngle, endAngle);
    }
    var positions: seq<ChildPosition> := [];
    for index := 0 to childCount
      invariant |positions| == index
      invariant forall k :: 0 <= k < index ==>
        positions[k]
        == ChildPosition(k,
                         Size(radius * trig.cos(SlotAngle(childCount, startAngle, endAngle, k)),
                              radius * trig.sin(SlotAngle(childCount, startAngle, endAngle, k))),
                         Angle(SlotAngle(childCount, startAngle, endAngle, k) + Pi / 2.0))
    {
      var offsetAngle := startAngle + angleStep * index as real;
      assert offsetAngle == SlotAngle(childCount, startAngle, endAngle, index);
      var offset := Size(radius * trig.cos(offsetAngle), radius * trig.sin(offsetAngle));
      var rotationAngle := offsetAngle + Pi / 2.0;
      positions := positions + [ChildPosition(index, offset, Angle(rotationAngle))];
    }
    view := View(startAngle, endAngle, radius, positions);
  }
}
