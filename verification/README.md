# CircularStackKit arc layout, in Dafny

CircularStackKit is a SwiftUI container that lays its children out evenly along
a circular arc. This project models the one piece of logic it has: the layout
calculator. It runs in the initializer of each `CircularStackView`. Given
`childCount`, `startAngle`, `endAngle` and `radius`, the calculator does the following:

- It decides whether the span `endAngle - startAngle` is a full turn. That is
  the case when its magnitude misses 2π by at most 0.01.
- It cuts the span into `childCount` steps on a full turn, and into
  `childCount - 1` steps otherwise.
- It builds one entry per child, in index order. Each entry holds an offset
  `radius * (cos θ, sin θ)` at the child's slot angle `θ = startAngle + step * index`,
  and a rotation.

The repository contains two copies of this initializer:

- `CircularStackView.Init` (`Sources/CircularStackView`) uses the constant
  `uprightChildZRotation` as the rotation. Unless `keepChildrenUpright` is set,
  it adds `θ + π/2`.
- `CircularStackKit.Init` (`Sources/CircularStackKit`) always uses `θ + π/2`.
  It also records each child's index, which serves as the child's identity.

Both copies compute the denominator and the step with the same code: lines
32-37 of the first file and lines 36-41 of the second. The module
`ArcGeometry` (arc_geometry.dfy) states that shared arithmetic once, as
specification functions:

- `IsFullTurn`
- `StepDenominator`
- `AngleStep`
- `SlotAngle`

The lemmas about those functions are cited against the first file. Each
`Init` is an imperative method: a mutable denominator, then a `for` loop that
appends one entry at a time. Its postcondition ties every entry to `SlotAngle`.

Angles are `real` radians, and π is 3.141592653589793, the decimal Swift
prints for `.pi`, taken as an exact real. Cosine and sine are not computed.
The caller supplies them as a `Trig` value. `Pythagorean(trig)` states `cos² + sin² = 1` for the one lemma
that needs it.

Preconditions (`ValidCount`) follow from the code:

- `childCount >= 0`, because Swift's `0..<childCount` traps on a negative count.
- A single child on a partial arc is excluded. In that case the denominator is
  0 and the step is non-finite. The code has no special case for it.

The full-turn test is inclusive: a span whose magnitude misses 2π by exactly
0.01 still counts as a full turn. Neither initializer reports an error.

## Model

| member | source | states |
|---|---|---|
| `CircularStackView.Init` | Sources/CircularStackView/CircularStackView.swift:25-51 | stores the angles, radius and rotation settings. Yields exactly `childCount` entries. Entry `i` is offset by `radius*(cos θᵢ, sin θᵢ)` with `θᵢ = SlotAngle(i)`. Its rotation is `uprightChildZRotation` for every child when `keepChildrenUpright` is set, and `uprightChildZRotation + θᵢ + π/2` otherwise |
| `CircularStackKit.Init` | Sources/CircularStackKit/CircularStackView.swift:31-52 | stores the angles and radius. Yields exactly `childCount` positions. Position `i` has `index == i` and `ChildPosition.Id() == i`, so ids are pairwise distinct. It is offset by `radius*(cos θᵢ, sin θᵢ)` and rotated by `θᵢ + π/2` |
| `ArcGeometry.DiffFromTwoPi` | Sources/CircularStackView/CircularStackView.swift:33 | `diffFrom2PI` is never negative. It is zero exactly when the span is 2π in one direction or the other |
| `ArcGeometry.IsFullTurn` | Sources/CircularStackView/CircularStackView.swift:33-34 | a span that counts as a full turn is never empty |
| `ArcGeometry.FullTurnBand` | Sources/CircularStackView/CircularStackView.swift:33-34 | a span is a full turn exactly when its magnitude lies in the closed band from 2π - 0.01 to 2π + 0.01 |
| `ArcGeometry.StepDenominator` | Sources/CircularStackView/CircularStackView.swift:32-36 | the denominator is either `childCount` or `childCount - 1`. On valid input with at least one child it is at least 1, so the division at :37 is defined |
| `ArcGeometry.StepFromReciprocal` | Sources/CircularStackView/CircularStackView.swift:37 | the code's form of the step, `(1 / denominator) * span`, equals the span divided by the denominator |
| `ArcGeometry.SlotAngle` | Sources/CircularStackView/CircularStackView.swift:40 | `offsetAngle` of the child at `index`. The child at index 0 sits at `startAngle` |
| `ArcGeometry.SlotAngleFraction` | Sources/CircularStackView/CircularStackView.swift:37-40 | the child at `index` sits `index / denominator` of the way along the span: `(θ - start) * denominator == span * index` |
| `CircularStackKit.IdsDistinct` | Sources/CircularStackKit/CircularStackView.swift:5-9 | in any sequence of positions numbered by their place, as `Init` builds them, the `Identifiable` ids (`ChildPosition.Id`, the index) are pairwise distinct |
| `ArcGeometry.AngleStep` | Sources/CircularStackView/CircularStackView.swift:32-37 | on valid input with at least one child, the denominator is at least 1, and the step times the denominator is exactly the span |
| `ArcGeometry.DenominatorRule` | Sources/CircularStackView/CircularStackView.swift:32-36 | the denominator is `childCount` exactly when `abs(abs(Δ) - 2π) <= 0.01`, including equality. It is `childCount - 1` exactly when that distance exceeds 0.01 |
| `ArcGeometry.ToleranceBoundary` | Sources/CircularStackView/CircularStackView.swift:33-36 | spans of 2π + 0.01, 2π - 0.01 and -(2π + 0.01) count as full turns. A span of 2π + 0.02 does not |
| `ArcGeometry.DefaultAnglesAreFullTurn` | Sources/CircularStackView/CircularStackView.swift:25-36 | the default angles `-1.5π` and `π/2` span exactly 2π. They always take the full-turn branch, with denominator `childCount` |
| `ArcGeometry.DefaultSlots` | Sources/CircularStackView/CircularStackView.swift:25-40 | with the default angles, child `i` of `n` sits at `-1.5π + 2π·i/n` |
| `ArcGeometry.FirstSlotAtStart` | Sources/CircularStackView/CircularStackView.swift:40 | the first child's angle is `startAngle` |
| `ArcGeometry.EqualSpacing` | Sources/CircularStackView/CircularStackView.swift:37-40 | consecutive angles differ by exactly `Δ / denominator` |
| `ArcGeometry.LastSlotAtEndOnPartialArc` | Sources/CircularStackView/CircularStackView.swift:32-40 | on a partial arc with at least two children, the last angle is exactly `endAngle` |
| `ArcGeometry.LastSlotOnFullTurn` | Sources/CircularStackView/CircularStackView.swift:32-40 | on a full turn, the last angle is `start + Δ(n-1)/n`. It lies exactly one step short of `endAngle` and never equals it |
| `ArcGeometry.StepHasSpanSign` | Sources/CircularStackView/CircularStackView.swift:32-37 | the step has the sign of the span. A full turn never has an empty span |
| `ArcGeometry.SlotsOrdered` | Sources/CircularStackView/CircularStackView.swift:37-40 | the angles increase strictly with the index when `endAngle > startAngle`. They decrease strictly when `endAngle < startAngle`, and are all equal when the span is empty |
| `ArcGeometry.SlotsWithinArc` | Sources/CircularStackView/CircularStackView.swift:32-40 | every angle lies between `startAngle` and `endAngle`. On a full turn, no angle reaches `endAngle` |
| `ArcGeometry.DistinctModuloTurn` | Sources/CircularStackView/CircularStackView.swift:32-40 | on a full turn whose span is at most 2π, no two children are a whole number of turns apart |
| `ArcGeometry.FullTurnAboveTwoPiCanRepeat` | Sources/CircularStackView/CircularStackView.swift:33-40 | a span of 2π·1000/999 still counts as a full turn. With 1000 children, the first and last children are then exactly one turn apart |
| `ArcGeometry.OffsetOnCircle` | Sources/CircularStackView/CircularStackView.swift:41 | if `cos² + sin² = 1`, every offset `radius*(cos θ, sin θ)` has squared length `radius²` |

## Left out

- SwiftUI rendering is not modelled. This covers `body`, `ZStack`, `ForEach`,
  `.rotationEffect`, `.offset` and the `2*radius` frame. It is host-framework glue.
- The `content` closures are not modelled. They are opaque view builders that
  the layout never calls.
- The `PreviewProvider` structs are not modelled. They are Xcode previews with no logic.
- The model does not use `CGFloat`/`Double` rounding. Angles are exact reals,
  so the equalities proved here hold over the reals and not bit for bit.
- The model does not compute cosine and sine. They are the caller-supplied
  `Trig` functions.
- The Swift trap for a negative `childCount` is a precondition, not modelled
  behaviour. So is the non-finite step for one child on a partial arc.
- With no children on a full turn, Swift divides by a zero denominator. The
  resulting non-finite step is never used, because the loop is empty. The model
  uses a step of 0 there, and the result is the same empty list.
- The default angles (`-.pi*1.5`, `.pi/2`) are not default parameters of
  `Init`. They are the constants `DefaultStartAngle` and `DefaultEndAngle`,
  and two lemmas state their effect.
- The `0.0` default of `uprightChildZRotation` is not modelled. Callers pass
  the value.
- `ArcGeometry.DistinctModuloTurn` assumes a span of at most 2π. The tolerance
  band also admits spans slightly above 2π. There, children can coincide one
  turn apart, as `ArcGeometry.FullTurnAboveTwoPiCanRepeat` shows.
