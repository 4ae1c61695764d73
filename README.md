# bendy: cubic Bézier curves, modelled in Dafny

This project models the `CubicBezier` class of the `bendy` Python package
(bendy/cubic_bezier.py). A curve is given by four anchor points `a0`..`a3`.
The model covers these operations:

- `solve(t)` evaluates the curve at a parameter t in [0, 1].
- `points(count, start)` samples the curve at evenly spaced parameters.
- `lines(count)` turns those samples into consecutive line segments.
- `estimate_y(x, resolution)` walks the segments and yields every y at which
  the polyline crosses the vertical line at `x`.
- `join(a2, a3)` and `join_to_start(other)` build a new curve that continues
  this one with tangent continuity.
- `min`, `max` and `bounds` give the componentwise extrema of the anchors and
  the region between them.

A curve never changes after it is built, so it is a datatype. `join` returns a
new value. The three generators (`points`, `lines`, `estimate_y`) are methods.
Each method's loop builds the list its generator would yield, or the error it
would raise. Each method is proved equal to a specification function, and the
lemmas are stated over those functions.

Files:

- `vecked.dfy` holds `Point` and `Region`. They stand for the `Vector2f` and
  `Region2f` types of the external `vecked` package, reduced to the operations
  the curve uses.
- `bendy_math.dfy` holds `Lerp` and `InverseLerp` (bendy/math.py).
- `bendy_point.dfy` holds `XIsBetweenPoints` (bendy/point.py).
- `cubic_bezier.dfy` holds the curve itself.
- `fixtures.dfy` holds the test suite's example curve, with the values the
  tests expect, proved of the model.

bendy/math.py and bendy/point.py are not part of this model. `Lerp`,
`InverseLerp` and `XIsBetweenPoints` are given their usual definitions, and
those definitions are assumptions about the two files.

Coordinates are exact reals. Each exception is a `Result` error:

- `TOutOfRange(t)` is the `ValueError` from `solve`.
- `CountOutOfRange(count)` is the `ValueError` from `points` and `lines`.
- `DivisionByZero` is the `ZeroDivisionError` that `points(1)` raises.

The model follows the code where it differs from what one would expect. One
would expect `points` with count 1 to evaluate t = 0. The code computes `0 / 0`
and raises instead (see Findings).

## Model

| member | source | states |
|---|---|---|
| Bezier.Max | bendy/cubic_bezier.py:197-202 | Each coordinate of `max` bounds that coordinate of all four anchors from above, and equals one of them. |
| Bezier.Min | bendy/cubic_bezier.py:204-209 | Each coordinate of `min` bounds that coordinate of all four anchors from below, and equals one of them. |
| Bezier.Bounds | bendy/cubic_bezier.py:32-37 | `bounds` starts at `min`. Its far corner is `max`, its size is never negative, and it contains every anchor. |
| Bezier.Solve | bendy/cubic_bezier.py:231-250 | `solve(t)` fails exactly when t is outside [0, 1], and the error carries t. It returns `a0` at t = 0 and `a3` at t = 1. |
| Bezier.SolveIsBernstein | bendy/cubic_bezier.py:239-250 | The shortcuts at t = 0 and t = 1 agree with the Bernstein polynomial, so on all of [0, 1] `solve` is that polynomial. |
| Bezier.BernsteinWeights | bendy/cubic_bezier.py:245-250 | On [0, 1] the four weights that `solve` applies to the anchors are non-negative and sum to one. |
| Bezier.SolveWithinBounds | bendy/cubic_bezier.py:231-250 | Convex-hull property: for every t in [0, 1], `solve(t)` succeeds and lies between `min` and `max`, so inside `bounds`. |
| Bezier.Join | bendy/cubic_bezier.py:155-165 | `join(a2, a3)` starts at this curve's `a3` and ends with the given `a2` and `a3`. It leaves its start in the direction this curve arrives (tangent continuity). Its `a1` mirrors this curve's `a2` about the joint. |
| Bezier.JoinToStart | bendy/cubic_bezier.py:167-178 | `join_to_start(other)` runs from this curve's end to `other`'s start. It is tangent-continuous with this curve at its start and with `other` at its end. |
| Bezier.JoinToStartIsJoin | bendy/cubic_bezier.py:167-178 | `join_to_start(other)` is `join` applied to the mirror of `other.a1` about `other.a0`, ending at `other.a0`. |
| Vecked.Point.ReflectAcross | bendy/cubic_bezier.py:162 | The reflected control point and the original have the pivot as their midpoint, and point in opposite directions from it. |
| Vecked.ReflectAcrossInvolution | bendy/cubic_bezier.py:175-176 | Reflecting twice about the same pivot gives the point back. |
| Bezier.JoinToStartMirrorsBack | bendy/cubic_bezier.py:173-178 | Reflecting the joining curve's control points back about the joints gives `other.a1` and this curve's `a2`. |
| Bezier.Sample | bendy/cubic_bezier.py:229 | Sample i of n is the value of `solve(i / n)`, which succeeds for 0 <= i <= n. |
| Bezier.Samples | bendy/cubic_bezier.py:228-229 | `points(count, start)` yields count - start points. The first is `a0` when start is 0, and the last is always `a3`. |
| Bezier.SamplesAreSolutions | bendy/cubic_bezier.py:228-229 | Point k of `points(count, start)` is `solve((start + k) / (count - 1))`. |
| Bezier.SamplesStartIsSuffix | bendy/cubic_bezier.py:211-229 | Starting at `start` yields the tail of the full sample list from index `start` on. |
| Bezier.SamplesWithinBounds | bendy/cubic_bezier.py:228-229 | Every sampled point lies between `min` and `max`. |
| Bezier.Points | bendy/cubic_bezier.py:211-229 | Covers every case of `points(count, start)`. A count below 1 fails with that count. A count no larger than start yields nothing. Count 1 with start below 1 divides by zero. A negative start fails in `solve` with its negative t. Otherwise it yields the samples. |
| Bezier.IntendedPoints | bendy/cubic_bezier.py:225-229 | The corrected `points`: it fails only for a count below 1, or for count >= 2 with a negative start, and then with the same error as the code. Every admitted count with 0 <= start <= count yields count - start points, starting at `a0`. Count 1 samples t = 0 at every index, so a negative start there yields 1 - start copies of `a0`. It agrees with the code for count >= 2 and on empty ranges. |
| Bezier.Chain | bendy/cubic_bezier.py:191-195 | Pairing each point with the previous end gives one segment per point, in order. Segment k ends at point k, the first segment starts at the given start, and each segment starts where the one before ended. |
| Bezier.Segments | bendy/cubic_bezier.py:180-195 | `lines(count)` yields count segments. They run from `a0` to `a3`, each starting where the previous one ends. |
| Bezier.SegmentsEndAtSolutions | bendy/cubic_bezier.py:193-195 | Segment k of `lines(count)` ends at `solve((k + 1) / count)`. |
| Bezier.SegmentsWithinBounds | bendy/cubic_bezier.py:180-195 | Both ends of every segment lie between `min` and `max`. |
| Bezier.Lines | bendy/cubic_bezier.py:180-195 | `lines(count)` fails with the count below 1, and otherwise yields exactly the segments of `Segments`. |
| Bezier.StepEstimate | bendy/cubic_bezier.py:146-151 | One loop step yields at most one value. It yields exactly one if and only if the current point's x is `x`, or `x` lies strictly between the previous and current x. When the current point's x is `x`, the value is that point's own y. |
| Bezier.StepEstimateOnSegment | bendy/cubic_bezier.py:146-151 | A value yielded by one step is the y of a point that lies on the segment from the previous to the current point at `x`. |
| Bezier.Estimates | bendy/cubic_bezier.py:143-153 | The loop yields at most one value per segment. |
| Bezier.EstimatesOnSegments | bendy/cubic_bezier.py:143-153 | Soundness: every value the loop yields is the y at `x` of a point on one of the segments. |
| Bezier.EstimatesCoverHits | bendy/cubic_bezier.py:143-153 | Completeness: every segment that hits the vertical line at `x` contributes a y on that segment. |
| Bezier.ChainCrossing | bendy/cubic_bezier.py:143-153 | If a chain of segments starts and ends on opposite sides of `x`, the loop yields at least one value (a discrete intermediate-value theorem). |
| Bezier.EstimatesNoneRightOf | bendy/cubic_bezier.py:143-153 | If every segment starts at or right of `x` and ends strictly right of it, the loop yields nothing. |
| Bezier.EstimatedYs | bendy/cubic_bezier.py:123-153 | `estimate_y(x, resolution)` yields at most resolution + 2 values. When x is `a0.x`, `a0.y` comes first. When x is `a3.x`, `a3.y` comes next. Once there is at least one segment, the loop's last sample is `a3` itself, so `a3.y` is yielded a second time, as the last value after the endpoint values. |
| Bezier.EstimatedYsWithinBounds | bendy/cubic_bezier.py:123-153 | Every estimated y lies between the y coordinates of `min` and `max`. |
| Bezier.EstimatedYsFindsCrossing | bendy/cubic_bezier.py:123-153 | If x lies between the end anchors' x coordinates and resolution >= 1, `estimate_y` yields at least one value. |
| Bezier.WalkEstimates | bendy/cubic_bezier.py:143-153 | The loop over the sampled points, starting from `a0`, yields exactly `Estimates` of the segments it walks. |
| Bezier.EstimateY | bendy/cubic_bezier.py:123-153 | A negative resolution makes the inner `points` call fail with count resolution + 1. Otherwise `estimate_y` yields exactly `EstimatedYs`. |
| BendyMath.InverseLerp | bendy/cubic_bezier.py:150-151 | Interpolating at the fraction that `inverse_lerp` returns gives back `x`. A value strictly between the ends gives a fraction strictly inside (0, 1). |
| BendyMath.LerpBetween | bendy/cubic_bezier.py:151 | For a fraction in [0, 1], `lerp` lies between its two ends. |
| BendyPoint.XIsBetweenPoints | bendy/cubic_bezier.py:149 | `x` strictly between the two points' x coordinates implies the points differ in x, so the division in `inverse_lerp` is defined. |
| BezierFixture.FixtureSolve | tests/test_cubic_bezier.py:187-203 | On the test curve, `solve` gives (100, 100), (250, 250) and (400, 400) at 0, 0.5 and 1, and rejects -1. |
| BezierFixture.FixturePoints | tests/test_cubic_bezier.py:165-184 | On the test curve, `points(5)` gives the five expected points, and `points(5, start=2)` gives the last three. |
| BezierFixture.FixtureRightOfStart | tests/conftest.py:11-18 | After its start, the test curve lies strictly right of x = 100. |
| BezierFixture.FixtureEstimateY | tests/test_cubic_bezier.py:136-148 | On the test curve, `estimate_y(100)` yields exactly [100]. |

## Left out

- The default arguments `start=0` of `points` and `resolution=100` of `estimate_y` are not modelled. Callers pass them explicitly, and `FixtureEstimateY` passes the default 100.
- `draw` is left out. It renders through PIL, which is I/O.
- `__str__` is left out. It only formats the curve as text.
- Debug logging in `estimate_y` is left out, because it has no effect on results.
- The construction from tuples in `__init__` is left out. Anchors are always `Point` values.
- `CompositeCubicBezier` is not part of this model.
- Floating-point rounding is not modelled, because coordinates are exact reals. Division by zero is modelled only where the code can reach it, in `points` with count 1.
- Bezier.Points: the generator is lazy. The model gives what `list()` of it yields, or the error it raises.
- Bezier.Lines: the generator is lazy. The model gives what `list()` of it yields, or the error it raises.
- Bezier.EstimateY: values yielded before an error are not modelled. With a negative resolution, `estimate_y` yields the endpoint values and then raises; the model gives only the error.
- Error message texts are not modelled. Each error carries only the offending value.
- bendy/math.py and bendy/point.py are not part of this model. `Lerp`, `InverseLerp` and `XIsBetweenPoints` are given their usual definitions, which are assumptions about those files.
- `vecked` is an external package. `Point` and `Region` model only the arithmetic and reflection the curve uses, and a containment predicate used to state the bounds properties.

## Findings

| source | as written | input that shows it | evidently intended | confidence | as-written member | corrected member |
|---|---|---|---|---|---|---|
| bendy/cubic_bezier.py:225-229 | The guard admits count 1, and the sample is then taken at `i / (count - 1)`, which divides by zero. | `points(1)`: the only index is 0, so t is 0 / 0 and a ZeroDivisionError is raised. | Every count the guard admits yields count - start points, so `points(1)` yields `[a0]`, sampling t = 0. | medium, not executed | Bezier.Points | Bezier.IntendedPoints |

The methods follow the code as written. `lines` only asks `points` for
count >= 2. The only count-1 request `estimate_y` makes, at resolution 0, has
start 1, an empty range on which neither definition divides. So `IntendedPoints`
and `Points` give the same result at every call site.
