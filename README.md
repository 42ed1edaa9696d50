# line2 in Dafny

A verified model of `Line2` (line2.js), a small JavaScript utility for infinite
lines in the plane. A `Line2` stores three optional numbers: `_slope`,
`_yintercept` and `_xintercept`. Combined getter/setters overwrite them. The
queries read them and branch on three regimes: horizontal (slope 0 or unset),
vertical (infinite slope) and diagonal. The queries are `solveForX`,
`solveForY`, line-line `intersect`, `intersectSegment`, `createPerpendicular`,
`closestPointTo` and `containsPoint`. The static constructor
`Line2.fromPoints` builds a line through two points.

Everything is in one module, `Line2` (line2.dfy):

- The class `Line2` has the fields `slope: Option<Slope>`,
  `yintercept: Option<real>` and `xintercept: Option<real>`. `None` is the
  source's unset field, which its getters return as `null`.
- A slope is `Finite(m)` or `Vertical`. `Vertical` is the source's `Infinity`.
- Coordinates are exact reals. The external `Vec2` point type is the datatype
  `Point`.
- The setters, the constructor, `FromPoints` and `CreatePerpendicular` change
  state, so they are methods.
- `ClosestPointTo` allocates the perpendicular line, as the source does, so it
  is a method that changes nothing it was given.
- The other queries only read fields, so they are functions with
  `reads this`.

JavaScript's handling of `null` and of division is written out:

- A `null` read from an unset field counts as 0 in arithmetic (`OrZero`).
- `isHorizontal` is falsiness of the slope, so an unset slope is horizontal.
- `isVertical` is "not finite", and `null` counts as finite.
- Where the source would produce `null`, an infinity or NaN (dividing by a
  zero or unset slope, multiplying by an infinite one), the model returns
  `None`. In `intersect` this result is `NonFinite`.

Line-line `intersect` returns a tagged `Intersection`:

- `At(p)` for a point.
- `Coincident` where the source returns `true`.
- `Parallel` where the source returns `false`.
- `NonFinite` where the determinant branch runs on a horizontal or unset slope
  and the source computes a NaN point.

`intersectSegment` takes the segment-segment collaborator (`segseg`) as a
function parameter.

## Model

| member | source | states |
|---|---|---|
| `Line2.Line2.constructor` | line2.js:22-40 | `new Line2(slope, yintercept)` stores each given argument through its setter; omitted arguments, and always the xintercept, stay unset (`null`) |
| `Line2.Line2.SetYIntercept` | line2.js:42-52 | the setter stores its argument, returns it, and leaves slope and xintercept unchanged |
| `Line2.Line2.SetXIntercept` | line2.js:54-64 | the setter stores its argument, returns it, and leaves slope and yintercept unchanged |
| `Line2.Line2.SetSlope` | line2.js:66-75 | the setter stores its argument, returns it, and leaves both intercepts unchanged |
| `Line2.Line2.IsHorizontal` | line2.js:406-408 | horizontal exactly when the slope is unset or 0 |
| `Line2.Line2.IsVertical` | line2.js:410-412 | vertical exactly when the slope is infinite; a vertical line is never horizontal |
| `Line2.Line2.IsDiagonal` | line2.js:406-412 | neither horizontal nor vertical exactly when the slope is a non-zero finite number |
| `Line2.Line2.SolveForX` | line2.js:297-303 | a result exists exactly on a diagonal line, or on a vertical line whose xintercept is set; a vertical line always answers its xintercept; every result is a point of the line at the given height |
| `Line2.Line2.SolveForY` | line2.js:305-311 | a result exists exactly on a diagonal line, or on a horizontal line whose yintercept is set; a horizontal line always answers its yintercept; every result is a point of the line at the given x |
| `Line2.SolveRoundTrip` | line2.js:297-311 | on a diagonal line `solveForY(solveForX(y)) = y` and `solveForX(solveForY(x)) = x` |
| `Line2.DiagonalHeight` | line2.js:305-311 | on a diagonal line `solveForY(x)` is the height of the line's point above x |
| `Line2.ContainsPointMatchesSolve` | line2.js:428-442 | the contract of `containsPoint` (`Line2.Line2.ContainsPoint`, which has none of its own): `containsPoint(v)` holds exactly when `solveForY(v.x) = v.y` on a non-vertical line, and exactly when `solveForX(v.y) = v.x` on a vertical one |
| `Line2.DetProperties` | line2.js:293-295 | `det` changes sign when its rows or its columns are exchanged, and is 0 exactly when the second row is a multiple of a non-zero first row |
| `Line2.Line2.DetIntersect` | line2.js:328-351 | the finite-slope branch gives a point exactly when both lines are diagonal with different slopes, and that point lies on both lines; otherwise it divides by zero (`NonFinite`) |
| `Line2.DetSamples` | line2.js:328-351 | when all four samples at heights -1 and 1 exist, both lines are diagonal, the sampled heights are exactly -1 and 1, and the determinant formula gives a point of both lines exactly when the slopes differ |
| `Line2.Line2.IntersectUsing` | line2.js:319-370 | equal slopes give `Coincident` exactly when both intercepts also match and `Parallel` otherwise; two non-vertical lines with different slopes give a point, on both lines, exactly when both are diagonal; a vertical line against a non-vertical one gives a point at the given x, which lies on the non-vertical line when that line's yintercept is set |
| `Line2.Line2.Intersect` | line2.js:319-370 | equal slopes give no point: `Coincident` exactly when both intercepts are also equal, `Parallel` otherwise; a vertical line against a non-vertical one always gives a point |
| `Line2.Line2.IntersectAsWritten` | line2.js:319-370 | the source's `intersect`, whose vertical branch takes the first truthy one of `this.xintercept()` and `line.xintercept()`; it agrees with `Intersect` whenever the non-vertical line's xintercept is unset |
| `Line2.IntersectSameSlope` | line2.js:322-326 | with identical slopes the answer is `Coincident` exactly when both intercepts match, else `Parallel`, in either argument order |
| `Line2.NotInfinite` | line2.js:18-20 | `finite` is false exactly for the infinite (vertical) slope; an unset slope counts as finite |
| `Line2.DetPoint` | line2.js:340-351 | the determinant formula gives a point exactly when its denominator `det(x1 − x2, y1 − y2, x3 − x4, y3 − y4)` is non-zero, and `NonFinite` otherwise; `Line2.DetPointMeets` and `Line2.DetPointSymmetric` state what the point is |
| `Line2.DetPointSymmetric` | line2.js:340-351 | exchanging the two lines given to the determinant formula does not change the computed point |
| `Line2.DetPointMeets` | line2.js:328-351 | for lines y = m1·x + b1 and y = m2·x + b2 with distinct non-zero slopes, the determinant formula on the samples at heights -1 and 1 gives a point on both lines |
| `Line2.IntersectDiagonal` | line2.js:328-351 | two diagonal lines with different slopes meet in a point that lies on both lines, and swapping receiver and argument gives the same point |
| `Line2.IntersectDiagonalUnique` | line2.js:328-351 | that point is the only point the two lines share |
| `Line2.IntersectHorizontalNonFinite` | line2.js:328-351 | two non-vertical lines with different slopes, one horizontal or unset, make the determinant branch divide by zero (`NonFinite`) |
| `Line2.IntersectVertical` | line2.js:352-370 | a vertical and a non-vertical line meet at x = the vertical line's xintercept and y = the other line's `solveForY` there (when its yintercept is set); the point does not depend on argument order, and lies on both lines when the vertical line's xintercept and the other line's yintercept are set |
| `Line2.IntersectAsWrittenMisses` | line2.js:353 | the source's choice of x puts the meeting point of y = x − 2 (xintercept 2) and x = 5 at (2, 0), off the vertical line; `Intersect` gives (5, 3) |
| `Line2.Line2.IntersectSegment` | line2.js:77-139 | a segment parallel to the line (vertical against vertical, horizontal against horizontal, diagonal with the line's slope) gives `Overlap` exactly when both endpoints lie on the line and `Miss` otherwise; any other segment gets the collaborator's answer for the padded line and the segment |
| `Line2.Line2.PaddedLine` | line2.js:105-132 | the finite stand-in for the line lies on the line when the intercept its regime reads is set (the xintercept for a vertical line, the yintercept otherwise), and runs exactly 10 units past the segment's x range; for a vertical line it runs 10 units past the y range |
| `Line2.Line2.FromPoints` | line2.js:373-404 | with x1 ≠ x2: slope (y2−y1)/(x2−x1), yintercept y1 − slope·x1, xintercept unset; with x1 = x2: a vertical line with xintercept x2; both given points satisfy `containsPoint` |
| `Line2.FromPointsReversed` | line2.js:373-404 | the lines built from two points in either order are reported by `intersect` as coincident |
| `Line2.ReversedRun` | line2.js:392-402 | the slope and the yintercept that `fromPoints` computes are the same whichever point comes first |
| `Line2.FromPointsSameLine` | line2.js:373-404 | any two pairs of distinct points on one non-vertical line build lines that `intersect` reports as coincident |
| `Line2.SlopeOfLine` | line2.js:392-402 | from two points of y = m·x + c, `fromPoints` computes the slope m and the yintercept c |
| `Line2.SameLineTestPair` | test/test.js:46-51 | the two lines of the test named "returns false when lines are parallel" are both y = x, and `intersect` reports them as coincident (`true`) |
| `Line2.ParallelTestPair` | test/test.js:46-51 | y = x and y = x − 5, built with `fromPoints`, are reported as parallel (`false`) |
| `Line2.Line2.CreatePerpendicular` | line2.js:141-153 | the new line contains v and is perpendicular: vertical gives horizontal through v.y, horizontal gives vertical through v.x, and a diagonal slope m gives slope −1/m (product −1) |
| `Line2.PerpendicularFoot` | line2.js:414-426 | on a diagonal line, intersecting with the perpendicular through v gives a point of the line whose offset from v is perpendicular to the line |
| `Line2.Line2.ClosestPointTo` | line2.js:414-426 | v − result is perpendicular to the line's direction; when the intercept the line's regime reads is set (the xintercept for a vertical line, the yintercept otherwise), the result lies on the line and no point of the line is closer to v |
| `Line2.ProjectionIsClosest` | line2.js:414-426 | a point of the line whose offset from v is perpendicular to the line is no farther from v than any other point of the line |
| `Line2.ProjectionIsClosestAll` | line2.js:414-426 | the same, for all points of the line at once |

## Findings

| source | as written | input that shows it | evidently intended | confidence | as-written member | corrected member |
|---|---|---|---|---|---|---|
| line2.js:353 | the vertical branch of `intersect` takes x as the first truthy one of `this.xintercept()` and `line.xintercept()`, so a set, non-zero xintercept on the receiver wins even when the receiver is the non-vertical line | the receiver is y = x − 2 with its xintercept set to 2, and the argument is the vertical line x = 5: the result is (2, 0), which is not on x = 5 | x is the vertical line's xintercept, giving (5, 3) | high; not executed | `Line2.IntersectAsWrittenMisses` | `Line2.Line2.Intersect` |
| test/test.js:46-51 | the test "returns false when lines are parallel" builds its lines from (0, 0), (10, 10) and from (5, 5), (50, 50) and expects `!l1.intersect(l2)`; both lines are y = x, so `intersect` returns `true` (line2.js:323-325) and the assertion fails | the test's own points | a second line parallel to y = x but distinct from it, such as the one through (5, 0) and (50, 45), for which `intersect` returns `false` | high; not executed | `Line2.SameLineTestPair` | `Line2.ParallelTestPair` |

`Line2.Line2.IntersectAsWritten` is the function that `Line2.IntersectAsWrittenMisses` is about. `ClosestPointTo` uses `Intersect`. In the one branch it reaches, two diagonal lines, the two versions compute the same thing.

## Left out

- `intersectCircle` (line2.js:155-208) and the commented-out version after it (line2.js:210-291) are not modelled. They rest on floating-point square roots, fixed sample points at ±5000, a tolerance-based `Vec2.equal` and debugging output.
- `Vec2.clean` rounding in the setters (line2.js:46, 58, 69) is the identity here. Coordinates are exact reals.
- The setters take a finite number or a `Slope`. Storing `null`, NaN or an infinite intercept through a setter is not modelled.
- IEEE artefacts are not modelled: `+Infinity` and `-Infinity` are one `Vertical` value, and NaN and −0 are absent. So two vertical lines of opposite orientation count as having the same slope here. In the source they compare unequal at line2.js:323.
- `Line2.FromPointsReversed`: holds in the model for vertical pairs too, but not in the source. From (5, 0), (5, 10) the source computes the slope +Infinity, and from (5, 10), (5, 0) it computes −Infinity. These differ at line2.js:323, so line2.js:352-370 returns the point (5, −Infinity) rather than `true`.
- Non-finite results are collapsed: which infinity or NaN the source computes is not modelled. `None` or `NonFinite` stands for all of them.
- `Line2.Line2.FromPoints`: requires the two points to differ. With coincident points the source computes the slope 0/0 = NaN (line2.js:392) and builds a horizontal line with a NaN slope.
- The source accepts several argument shapes: arrays and `{x, y}` objects in `fromPoints` (line2.js:375-389), the four-argument constructor (line2.js:28-29), `intersect` forwarding segment arguments to `intersectSegment` (line2.js:315-317), and the two-number form `containsPoint(x, y)` next to `containsPoint(vec)` (line2.js:428-433). Each is one named operation on coordinates here. `FromPoints` stands for the four-argument constructor too.
- `segseg` and `Vec2.fromArray` are library code outside this repository. `segseg` is a parameter of `IntersectSegment`, and its answer is passed through unchanged.
- Where a `null` intercept reaches `Vec2` as a coordinate (line2.js:115-116, 125-127, 353, 364, 368, 420, 422), the model takes it as 0. `Vec2` is not part of this model.
- In its horizontal branch `intersectSegment` assigns the undeclared name `y` (line2.js:115). That writes a global variable, or throws a `ReferenceError` in strict mode. The model keeps the value local and does not model the global write.
- Module export and `window` wiring (line2.js:445-451) are not modelled.
- Some documented behaviour does not exist in line2.js, and the model follows the code:
  - The setters only overwrite their own field. They never recompute the other intercept and never notify listeners, and there is no listener list at all.
  - `isHorizontal` also holds for an unset slope.
  - `intersect` has no horizontal shortcut in its equal-slope branch.
