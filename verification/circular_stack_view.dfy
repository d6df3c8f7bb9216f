/**
 The `CircularStackView` target: a stack whose children can either keep a
 fixed rotation (`keepChildrenUpright`) or turn with their place on the arc.
 */
module CircularStackView {
  import opened ArcGeometry

  /** One entry of `childOffsets`: where the child goes and how it is turned. */
  datatype ChildOffset = ChildOffset(offset: Size, zRotation: Angle)

  /** The stored properties of the view; its `content` closure is not modelled. */
  datatype View = View(
    startAngle: real,
    endAngle: real,
    radius: real,
    keepChildrenUpright: bool,
    uprightChildZRotation: real,
    childOffsets: seq<ChildOffset>)

  /**
   The initializer: one entry per child, in index order, each placed on the
   circle at its slot angle and rotated by the constant upright rotation,
   plus the slot angle and a quarter turn unless children are kept upright.
   */
  method Init(trig: Trig, childCount: int, startAngle: real, endAngle: real, radius: real,
              keepChildrenUpright: bool, uprightChildZRotation: real)
    returns (view: View)
    requires ValidCount(childCount, startAngle, endAngle)
    ensures view.startAngle == startAngle && view.endAngle == endAngle && view.radius == radius
    ensures view.keepChildrenUpright == keepChildrenUpright
    ensures view.uprightChildZRotation == uprightChildZRotation
    ensures |view.childOffsets| == childCount
    ensures forall i :: 0 <= i < childCount ==>
      view.childOffsets[i].offset
      == Size(radius * trig.cos(SlotAngle(childCount, startAngle, endAngle, i)),
              radius * trig.sin(SlotAngle(childCount, startAngle, endAngle, i)))
    ensures keepChildrenUpright ==> forall i :: 0 <= i < childCount ==>
      view.childOffsets[i].zRotation == Angle(uprightChildZRotation)
    ensures !keepChildrenUpright ==> forall i :: 0 <= i < childCount ==>
      view.childOffsets[i].zRotation
      == Angle(uprightChildZRotation + SlotAngle(childCount, startAngle, endAngle, i) + Pi / 2.0)
  {
    var denominator := childCount as real;
    var diffFrom2Pi := DiffFromTwoPi(startAngle, endAngle);
    if FullTurnTolerance < diffFrom2Pi {
      denominator := denominator - 1.0;
    }
    // A zero denominator leaves only the case of no children on a full turn:
    // the (non-finite) step is then never used, so any value will do.
    var angleStep := if denominator != 0.0 then (1.0 / denominator) * (endAngle - startAngle) else 0.0;
    assert denominator == StepDenominator(childCount, startAngle, endAngle);
    if childCount >= 1 {
      StepFromReciprocal(childCount, startAngle, endAngle);
    }
    var offsets: seq<ChildOffset> := [];
    for index := 0 to childCount
      invariant |offsets| == index
      invariant forall k :: 0 <= k < index ==>
        offsets[k]
        == ChildOffset(Size(radius * trig.cos(SlotAngle(childCount, startAngle, endAngle, k)),
                            radius * trig.sin(SlotAngle(childCount, startAngle, endAngle, k))),
                       if keepChildrenUpright then Angle(uprightChildZRotation)
                       else Angle(uprightChildZRotation + SlotAngle(childCount, startAngle, endAngle, k) + Pi / 2.0))
    {
      var offsetAngle := startAngle + angleStep * index as real;
      assert offsetAngle == SlotAngle(childCount, startAngle, endAngle, index);
      var offset := Size(radius * trig.cos(offsetAngle), radius * trig.sin(offsetAngle));
      var childZRotation := uprightChildZRotation;
      if !keepChildrenUpright {
        childZRotation := childZRotation + offsetAngle + Pi / 2.0;
      }
      offsets := offsets + [ChildOffset(offset, Angle(childZRotation))];
    }
    view := View(startAngle, endAngle, radius, keepChildrenUpright, uprightChildZRotation, offsets);
  }
}
