/** A cubic Bézier curve given by four anchor points (bendy/cubic_bezier.py):
    evaluation, sampling into points and line segments, estimating the y values
    at which the curve crosses a vertical line, joining curves with tangent
    continuity, and the curve's componentwise extrema and bounds.

    The curve never changes after construction, so it is a datatype and `join`
    returns a new value. Python's generators become methods whose loops build
    the sequence of yielded values; each is specified by a function over which
    the lemmas below are stated. */
module Bezier {
  import opened Vecked
  import opened BendyMath
  import opened BendyPoint

  /** The exceptions the curve code raises. */
  datatype Error =
    | TOutOfRange(t: real)         // ValueError naming t, outside [0, 1]
    | CountOutOfRange(count: int)  // ValueError naming count, below 1
    | DivisionByZero               // ZeroDivisionError from i / (count - 1) when count is 1

  datatype Result<T> = Ok(value: T) | Err(error: Error)

  datatype CubicBezier = CubicBezier(a0: Point, a1: Point, a2: Point, a3: Point)

  // ---------------------------------------------------------------------------
  // Extrema and bounds

  function Max4(a: real, b: real, c: real, d: real): (r: real)
    ensures a <= r && b <= r && c <= r && d <= r
    ensures r == a || r == b || r == c || r == d
  {
    var ab := if a >= b then a else b;
    var cd := if c >= d then c else d;
    if ab >= cd then ab else cd
  }

  function Min4(a: real, b: real, c: real, d: real): (r: real)
    ensures r <= a && r <= b && r <= c && r <= d
    ensures r == a || r == b || r == c || r == d
  {
    var ab := if a <= b then a else b;
    var cd := if c <= d then c else d;
    if ab <= cd then ab else cd
  }

  /** `p` lies componentwise between `lo` and `hi`. */
  predicate Within(lo: Point, p: Point, hi: Point) {
    lo.x <= p.x <= hi.x && lo.y <= p.y <= hi.y
  }

  /** The componentwise maximum of the four anchors. */
  function Max(c: CubicBezier): (r: Point)
    ensures c.a0.x <= r.x && c.a1.x <= r.x && c.a2.x <= r.x && c.a3.x <= r.x
    ensures c.a0.y <= r.y && c.a1.y <= r.y && c.a2.y <= r.y && c.a3.y <= r.y
    ensures r.x == c.a0.x || r.x == c.a1.x || r.x == c.a2.x || r.x == c.a3.x
    ensures r.y == c.a0.y || r.y == c.a1.y || r.y == c.a2.y || r.y == c.a3.y
  {
    Point(Max4(c.a0.x, c.a1.x, c.a2.x, c.a3.x), Max4(c.a0.y, c.a1.y, c.a2.y, c.a3.y))
  }

  /** The componentwise minimum of the four anchors. */
  function Min(c: CubicBezier): (r: Point)
    ensures r.x <= c.a0.x && r.x <= c.a1.x && r.x <= c.a2.x && r.x <= c.a3.x
    ensures r.y <= c.a0.y && r.y <= c.a1.y && r.y <= c.a2.y && r.y <= c.a3.y
    ensures r.x == c.a0.x || r.x == c.a1.x || r.x == c.a2.x || r.x == c.a3.x
    ensures r.y == c.a0.y || r.y == c.a1.y || r.y == c.a2.y || r.y == c.a3.y
  {
    Point(Min4(c.a0.x, c.a1.x, c.a2.x, c.a3.x), Min4(c.a0.y, c.a1.y, c.a2.y, c.a3.y))
  }

  /** The region from `min` spanning `max - min`: its size is never negative,
      its far corner is `max`, and it holds every anchor. */
  function Bounds(c: CubicBezier): (r: Region)
    ensures r.position == Min(c) && r.Far() == Max(c)
    ensures r.size.x >= 0.0 && r.size.y >= 0.0
    ensures r.Contains(c.a0) && r.Contains(c.a1) && r.Contains(c.a2) && r.Contains(c.a3)
  {
    Region(Min(c), Max(c).Sub(Min(c)))
  }

  // ---------------------------------------------------------------------------
  // Evaluation

  /** The four cubic Bernstein weights at t. */
  function W0(t: real): real { (1.0 - t) * (1.0 - t) * (1.0 - t) }
  function W1(t: real): real { 3.0 * (1.0 - t) * (1.0 - t) * t }
  function W2(t: real): real { 3.0 * (1.0 - t) * t * t }
  function W3(t: real): real { t * t * t }

  /** One coordinate of four values weighted by w0..w3. */
  function Weighted(w0: real, w1: real, w2: real, w3: real, v0: real, v1: real, v2: real, v3: real): real {
    v0 * w0 + v1 * w1 + v2 * w2 + v3 * w3
  }

  /** The anchors weighted by w0..w3 and summed, coordinate by coordinate. */
  function Combine(c: CubicBezier, w0: real, w1: real, w2: real, w3: real): Point {
    Point(Weighted(w0, w1, w2, w3, c.a0.x, c.a1.x, c.a2.x, c.a3.x),
          Weighted(w0, w1, w2, w3, c.a0.y, c.a1.y, c.a2.y, c.a3.y))
  }

  /** The cubic Bernstein polynomial at t. */
  function Bernstein(c: CubicBezier, t: real): Point {
    Combine(c, W0(t), W1(t), W2(t), W3(t))
  }

  /** `solve(t)`: rejects t outside [0, 1], returns the end anchors exactly at
      t = 0 and t = 1, and the Bernstein polynomial otherwise. */
  function Solve(c: CubicBezier, t: real): (r: Result<Point>)
    ensures r.Err? <==> t < 0.0 || t > 1.0
    ensures r.Err? ==> r.error == TOutOfRange(t)
    ensures t == 0.0 ==> r == Ok(c.a0)
    ensures t == 1.0 ==> r == Ok(c.a3)
  {
    if t < 0.0 || t > 1.0 then Err(TOutOfRange(t))
    else if t == 0.0 then Ok(c.a0)
    else if t == 1.0 then Ok(c.a3)
    else Ok(Bernstein(c, t))
  }

  /** The polynomial itself takes the first anchor at t = 0 ... */
  lemma BernsteinAtStart(c: CubicBezier)
    ensures Bernstein(c, 0.0) == c.a0
  {
    assert W0(0.0) == 1.0 && W1(0.0) == 0.0 && W2(0.0) == 0.0 && W3(0.0) == 0.0;
  }

  /** ... and the last anchor at t = 1. */
  lemma BernsteinAtEnd(c: CubicBezier)
    ensures Bernstein(c, 1.0) == c.a3
  {
    assert W0(1.0) == 0.0 && W1(1.0) == 0.0 && W2(1.0) == 0.0 && W3(1.0) == 1.0;
  }

  /** The endpoint shortcuts agree with the polynomial: on all of [0, 1], `solve`
      is exactly the Bernstein polynomial. */
  lemma SolveIsBernstein(c: CubicBezier, t: real)
    requires 0.0 <= t <= 1.0
    ensures Solve(c, t) == Ok(Bernstein(c, t))
  {
    BernsteinAtStart(c);
    BernsteinAtEnd(c);
  }

  /** The four Bernstein weights are non-negative and sum to one on [0, 1]. */
  lemma BernsteinWeights(t: real)
    requires 0.0 <= t <= 1.0
    ensures W0(t) >= 0.0 && W1(t) >= 0.0 && W2(t) >= 0.0 && W3(t) >= 0.0
    ensures W0(t) + W1(t) + W2(t) + W3(t) == 1.0
  {
    var s := 1.0 - t;
    MulNonNegative(s, s);
    MulNonNegative(t, t);
    MulNonNegative(s * s, s);
    MulNonNegative(s * s, t);
    MulNonNegative(s, t * t);
    MulNonNegative(t * t, t);
    assert W0(t) == s * s * s;
    assert W1(t) == 3.0 * (s * s * t);
    assert W2(t) == 3.0 * (s * (t * t));
    assert W3(t) == (t * t) * t;
    assert s * s * s + 3.0 * s * s * t + 3.0 * s * t * t + t * t * t == (s + t) * (s + t) * (s + t);
  }

  /** Weighting values no smaller than `lo` by non-negative weights summing to
      one gives a value no smaller than `lo` ... */
  lemma WeightedAtLeast(w0: real, w1: real, w2: real, w3: real,
                        v0: real, v1: real, v2: real, v3: real, lo: real)
    requires w0 >= 0.0 && w1 >= 0.0 && w2 >= 0.0 && w3 >= 0.0
    requires w0 + w1 + w2 + w3 == 1.0
    requires lo <= v0 && lo <= v1 && lo <= v2 && lo <= v3
    ensures lo <= Weighted(w0, w1, w2, w3, v0, v1, v2, v3)
  {
    MulNonNegative(v0 - lo, w0);
    MulNonNegative(v1 - lo, w1);
    MulNonNegative(v2 - lo, w2);
    MulNonNegative(v3 - lo, w3);
    assert lo * w0 + lo * w1 + lo * w2 + lo * w3 == lo * (w0 + w1 + w2 + w3);
  }

  /** ... and values no larger than `hi` give a value no larger than `hi`. */
  lemma WeightedAtMost(w0: real, w1: real, w2: real, w3: real,
                       v0: real, v1: real, v2: real, v3: real, hi: real)
    requires w0 >= 0.0 && w1 >= 0.0 && w2 >= 0.0 && w3 >= 0.0
    requires w0 + w1 + w2 + w3 == 1.0
    requires v0 <= hi && v1 <= hi && v2 <= hi && v3 <= hi
    ensures Weighted(w0, w1, w2, w3, v0, v1, v2, v3) <= hi
  {
    MulNonNegative(hi - v0, w0);
    MulNonNegative(hi - v1, w1);
    MulNonNegative(hi - v2, w2);
    MulNonNegative(hi - v3, w3);
    assert hi * w0 + hi * w1 + hi * w2 + hi * w3 == hi * (w0 + w1 + w2 + w3);
  }

  /** The convex-hull property: every point `solve` returns lies componentwise
      between `min` and `max`, so within `bounds`. */
  lemma SolveWithinBounds(c: CubicBezier, t: real)
    requires 0.0 <= t <= 1.0
    ensures Solve(c, t).Ok?
    ensures Within(Min(c), Solve(c, t).value, Max(c))
    ensures Bounds(c).Contains(Solve(c, t).value)
  {
    SolveIsBernstein(c, t);
    BernsteinWeights(t);
    var lo, hi := Min(c), Max(c);
    var w0, w1, w2, w3 := W0(t), W1(t), W2(t), W3(t);
    WeightedAtLeast(w0, w1, w2, w3, c.a0.x, c.a1.x, c.a2.x, c.a3.x, lo.x);
    WeightedAtMost(w0, w1, w2, w3, c.a0.x, c.a1.x, c.a2.x, c.a3.x, hi.x);
    WeightedAtLeast(w0, w1, w2, w3, c.a0.y, c.a1.y, c.a2.y, c.a3.y, lo.y);
    WeightedAtMost(w0, w1, w2, w3, c.a0.y, c.a1.y, c.a2.y, c.a3.y, hi.y);
  }

  // ---------------------------------------------------------------------------
  // Joining

  /** The direction in which the curve leaves `a0` (B'(0) is three times it). */
  function StartTangent(c: CubicBezier): Point {
    c.a1.Sub(c.a0)
  }

  /** The direction in which the curve arrives at `a3` (B'(1) is three times it). */
  function EndTangent(c: CubicBezier): Point {
    c.a3.Sub(c.a2)
  }

  /** `join(a2, a3)`: a curve that starts where this one ends, leaves in the
      direction this one arrives (tangent continuity at the shared anchor), and
      ends with the given control point and anchor. */
  function Join(c: CubicBezier, a2: Point, a3: Point): (r: CubicBezier)
    ensures r.a0 == c.a3 && r.a2 == a2 && r.a3 == a3
    ensures StartTangent(r) == EndTangent(c)
    ensures r.a1.Add(c.a2) == c.a3.Scale(2.0)
  {
    CubicBezier(c.a3, c.a2.ReflectAcross(c.a3), a2, a3)
  }

  /** `join_to_start(other)`: a curve from the end of this one to the start of
      `other`, tangent-continuous at both joints. */
  function JoinToStart(c: CubicBezier, other: CubicBezier): (r: CubicBezier)
    ensures r.a0 == c.a3 && r.a3 == other.a0
    ensures StartTangent(r) == EndTangent(c)
    ensures EndTangent(r) == StartTangent(other)
  {
    CubicBezier(c.a3, c.a2.ReflectAcross(c.a3), other.a1.ReflectAcross(other.a0), other.a0)
  }

  /** Joining to the start of `other` is `join` with the mirror of `other.a1`
      about `other.a0` as control point and `other.a0` as end anchor. */
  lemma JoinToStartIsJoin(c: CubicBezier, other: CubicBezier)
    ensures JoinToStart(c, other) == Join(c, other.a1.ReflectAcross(other.a0), other.a0)
  {
  }

  /** The joining curve's last control point mirrors back onto `other.a1`
      about the joint, and its first onto this curve's `a2`: both joints are
      exact reflections. */
  lemma JoinToStartMirrorsBack(c: CubicBezier, other: CubicBezier)
    ensures JoinToStart(c, other).a2.ReflectAcross(other.a0) == other.a1
    ensures JoinToStart(c, other).a1.ReflectAcross(c.a3) == c.a2
  {
    ReflectAcrossInvolution(other.a1, other.a0);
    ReflectAcrossInvolution(c.a2, c.a3);
  }

  // ---------------------------------------------------------------------------
  // Sampling: points and lines

  lemma UnitFraction(i: int, n: int)
    requires 0 <= i <= n && 0 < n
    ensures 0.0 <= i as real / n as real <= 1.0
  {
    assert (i as real / n as real) * n as real == i as real;
  }

  /** The sample `solve(i / n)` for 0 <= i <= n. */
  function Sample(c: CubicBezier, i: int, n: int): (r: Point)
    requires 0 <= i <= n && 0 < n
    ensures Solve(c, i as real / n as real) == Ok(r)
  {
    UnitFraction(i, n);
    Solve(c, i as real / n as real).value
  }

  /** The first and last samples are the end anchors exactly. */
  lemma SampleAtEnds(c: CubicBezier, n: int)
    requires 0 < n
    ensures Sample(c, 0, n) == c.a0 && Sample(c, n, n) == c.a3
  {
    assert 0 as real / n as real == 0.0;
    assert n as real / n as real == 1.0;
  }

  /** What `points(count, start)` yields for 2 <= count and 0 <= start <= count:
      one sample per index in [start, count), first `a0` when starting at 0 and
      last `a3`. SamplesAreSolutions says which parameter each sample is taken at. */
  function Samples(c: CubicBezier, count: int, start: int): (r: seq<Point>)
    requires 2 <= count && 0 <= start <= count
    ensures |r| == count - start
    ensures start == 0 ==> r[0] == c.a0
    ensures start < count ==> r[|r| - 1] == c.a3
  {
    SampleAtEnds(c, count - 1);
    seq(count - start, k requires 0 <= k < count - start => Sample(c, start + k, count - 1))
  }

  /** Sample k of `points(count, start)` is `solve((start + k) / (count - 1))`. */
  lemma SamplesAreSolutions(c: CubicBezier, count: int, start: int)
    requires 2 <= count && 0 <= start <= count
    ensures forall k :: 0 <= k < count - start ==>
      Solve(c, (start + k) as real / (count - 1) as real) == Ok(Samples(c, count, start)[k])
  {
    var r := Samples(c, count, start);
    forall k | 0 <= k < count - start
      ensures Solve(c, (start + k) as real / (count - 1) as real) == Ok(r[k])
    {
      assert r[k] == Sample(c, start + k, count - 1);
    }
  }

  /** `start` only skips the first samples: the sample grid does not move. */
  lemma SamplesStartIsSuffix(c: CubicBezier, count: int, start: int)
    requires 2 <= count && 0 <= start <= count
    ensures Samples(c, count, start) == Samples(c, count, 0)[start..]
  {
    var a, b := Samples(c, count, start), Samples(c, count, 0)[start..];
    forall k | 0 <= k < |a|
      ensures a[k] == b[k]
    {
      assert a[k] == Sample(c, start + k, count - 1);
      assert b[k] == Samples(c, count, 0)[start + k] == Sample(c, 0 + (start + k), count - 1);
    }
  }

  /** Every sample lies within the curve's bounds. */
  lemma SamplesWithinBounds(c: CubicBezier, count: int, start: int)
    requires 2 <= count && 0 <= start <= count
    ensures forall k :: 0 <= k < count - start ==> Within(Min(c), Samples(c, count, start)[k], Max(c))
  {
    var r := Samples(c, count, start);
    SamplesAreSolutions(c, count, start);
    forall k | 0 <= k < count - start
      ensures Within(Min(c), r[k], Max(c))
    {
      UnitFraction(start + k, count - 1);
      SolveWithinBounds(c, (start + k) as real / (count - 1) as real);
    }
  }

  /** `points(count, start)`, as the list its generator yields or the error it
      raises: count below 1 is rejected; an empty range yields nothing; count 1
      divides by zero; a negative start asks `solve` for a negative t. */
  method Points(c: CubicBezier, count: int, start: int) returns (r: Result<seq<Point>>)
    ensures count < 1 ==> r == Err(CountOutOfRange(count))
    ensures 1 <= count <= start ==> r == Ok([])
    ensures count == 1 && start < 1 ==> r == Err(DivisionByZero)
    ensures 2 <= count && start < 0 ==> r == Err(TOutOfRange(start as real / (count - 1) as real))
    ensures 2 <= count && 0 <= start < count ==> r == Ok(Samples(c, count, start))
  {
    if count < 1 {
      return Err(CountOutOfRange(count));
    }
    var points: seq<Point> := [];
    var i := start;
    while i < count
      invariant i == start || (2 <= count && 0 <= start < i <= count)
      invariant i == start ==> points == []
      invariant i != start ==> points == Samples(c, count, start)[..i - start]
    {
      if count - 1 == 0 {
        return Err(DivisionByZero);
      }
      if i < 0 {
        assert i as real / (count - 1) as real < 0.0 by {
          assert (i as real / (count - 1) as real) * (count - 1) as real == i as real;
        }
      } else {
        UnitFraction(i, count - 1);
      }
      var p := Solve(c, i as real / (count - 1) as real);
      assert 0 <= i ==> Samples(c, count, start)[i - start] == Sample(c, i, count - 1);
      if p.Err? {
        return Err(p.error);
      }
      points := points + [p.value];
      i := i + 1;
    }
    if 2 <= count && 0 <= start < count {
      assert i == count;
      assert points == Samples(c, count, start);
    }
    return Ok(points);
  }

  /** `points(count, start)` as evidently intended: the lone sample of a
      one-point request is taken at t = 0 instead of at 0 / 0, so every count
      the guard admits yields count - start points. Where the source does not
      divide by zero, the two agree. `lines` asks for count >= 2, and the only
      count-1 request `estimate_y` makes (resolution 0) has start 1, an empty
      range on which both give no points. */
  function IntendedPoints(c: CubicBezier, count: int, start: int): (r: Result<seq<Point>>)
    ensures r.Err? <==> count < 1 || (2 <= count && start < 0)
    ensures 1 <= count && 0 <= start <= count ==> |r.value| == count - start
    ensures 1 <= count && start == 0 ==> r.value[0] == c.a0
    ensures 1 <= count <= start ==> r == Ok([])
    ensures 2 <= count && start < 0 ==> r == Err(TOutOfRange(start as real / (count - 1) as real))
    ensures 2 <= count && 0 <= start < count ==> r == Ok(Samples(c, count, start))
  {
    if count < 1 then Err(CountOutOfRange(count))
    else if count <= start then Ok([])
    else if count == 1 then Ok(seq(1 - start, _ => c.a0))
    else if start < 0 then Err(TOutOfRange(start as real / (count - 1) as real))
    else Ok(Samples(c, count, start))
  }

  /** Pairs each point with the one before it, the first with `start`: the
      walk of `lines` (`prev_end`) and of `estimate_y` (`previous`). The pairs
      chain end to start, from `start` to the last point. */
  function Chain(start: Point, ps: seq<Point>): (r: seq<(Point, Point)>)
    ensures |r| == |ps|
    ensures |ps| >= 1 ==> r[0].0 == start
    ensures forall k :: 0 <= k < |ps| ==> r[k].1 == ps[k]
    ensures forall k :: 0 <= k < |ps| - 1 ==> r[k].1 == r[k + 1].0
  {
    seq(|ps|, k requires 0 <= k < |ps| => (if k == 0 then start else ps[k - 1], ps[k]))
  }

  /** The segments `lines(count)` yields for count >= 0 (none for 0): `a0`
      followed by `points(count + 1, start=1)`, paired consecutively. They chain
      end to start and run from `a0` to `a3`. */
  function Segments(c: CubicBezier, count: int): (r: seq<(Point, Point)>)
    requires count >= 0
    ensures |r| == count
    ensures count >= 1 ==> r[0].0 == c.a0 && r[count - 1].1 == c.a3
    ensures forall k :: 0 <= k < count - 1 ==> r[k].1 == r[k + 1].0
  {
    if count == 0 then [] else Chain(c.a0, Samples(c, count + 1, 1))
  }

  /** Segment k of `lines(count)` ends at `solve((k + 1) / count)`. */
  lemma SegmentsEndAtSolutions(c: CubicBezier, count: int)
    requires count >= 1
    ensures forall k :: 0 <= k < count ==> Solve(c, (k + 1) as real / count as real) == Ok(Segments(c, count)[k].1)
  {
    SamplesAreSolutions(c, count + 1, 1);
  }

  /** Both ends of every segment lie within the curve's bounds. */
  lemma SegmentsWithinBounds(c: CubicBezier, count: int)
    requires count >= 0
    ensures forall k :: 0 <= k < count ==>
      Within(Min(c), Segments(c, count)[k].0, Max(c)) && Within(Min(c), Segments(c, count)[k].1, Max(c))
  {
    if count >= 1 {
      var segs := Segments(c, count);
      SamplesWithinBounds(c, count + 1, 1);
      forall k | 0 <= k < count
        ensures Within(Min(c), segs[k].1, Max(c))
      {
        assert segs[k].1 == Samples(c, count + 1, 1)[k];
      }
      forall k | 0 <= k < count
        ensures Within(Min(c), segs[k].0, Max(c))
      {
        if k > 0 {
          assert segs[k].0 == segs[k - 1].1;
        }
      }
    }
  }

  /** `lines(count)`: rejects count below 1, otherwise walks
      `points(count + 1, start=1)` pairing each point with the previous end. */
  method Lines(c: CubicBezier, count: int) returns (r: Result<seq<(Point, Point)>>)
    ensures count < 1 ==> r == Err(CountOutOfRange(count))
    ensures count >= 1 ==> r == Ok(Segments(c, count))
  {
    if count < 1 {
      return Err(CountOutOfRange(count));
    }
    var points := Points(c, count + 1, 1);
    var ps := points.value;
    var lines: seq<(Point, Point)> := [];
    var prevEnd := c.a0;
    var i := 0;
    while i < |ps|
      invariant |ps| == count && 0 <= i <= count
      invariant lines == Segments(c, count)[..i]
      invariant prevEnd == if i == 0 then c.a0 else ps[i - 1]
    {
      lines := lines + [(prevEnd, ps[i])];
      prevEnd := ps[i];
      i := i + 1;
    }
    assert lines == Segments(c, count);
    return Ok(lines);
  }

  // ---------------------------------------------------------------------------
  // Estimating y

  /** `v` lies on the closed segment from `p` to `q`. */
  predicate OnSegment(p: Point, q: Point, v: Point) {
    Between(v.x, p.x, q.x) && Between(v.y, p.y, q.y)
    && (v.x - p.x) * (q.y - p.y) == (v.y - p.y) * (q.x - p.x)
  }

  /** The segment from `previous` to `point` meets the vertical line at `x`
      where one loop step of `estimate_y` yields a value. */
  predicate Hits(previous: Point, point: Point, x: real) {
    point.x == x || XIsBetweenPoints(x, previous, point)
  }

  /** What one loop step of `estimate_y` yields for the segment from `previous`
      to `point`: at most one value, and exactly one when the segment hits the
      vertical line at `x`; a sample lying on that line gives its own y. */
  function StepEstimate(previous: Point, point: Point, x: real): (r: seq<real>)
    ensures |r| <= 1
    ensures |r| == 1 <==> Hits(previous, point, x)
    ensures point.x == x ==> r == [point.y]
  {
    if point.x == x then
      [point.y]
    else if XIsBetweenPoints(x, previous, point) then
      [Lerp(previous.y, point.y, InverseLerp(previous.x, point.x, x))]
    else
      []
  }

  /** The value a step yields lies on its segment, at horizontal position `x`. */
  lemma StepEstimateOnSegment(previous: Point, point: Point, x: real)
    requires Hits(previous, point, x)
    ensures OnSegment(previous, point, Point(x, StepEstimate(previous, point, x)[0]))
  {
    if point.x != x {
      var xt := InverseLerp(previous.x, point.x, x);
      LerpBetween(previous.y, point.y, xt);
      var y := Lerp(previous.y, point.y, xt);
      assert x - previous.x == (point.x - previous.x) * xt;
      assert y - previous.y == (point.y - previous.y) * xt;
      assert (y - previous.y) * (point.x - previous.x) == (point.y - previous.y) * (x - previous.x);
    }
  }

  /** The values the loop of `estimate_y` yields over `segs`, in order: at most
      one per segment. */
  function Estimates(segs: seq<(Point, Point)>, x: real): (r: seq<real>)
    ensures |r| <= |segs|
    decreases |segs|
  {
    if segs == [] then []
    else
      var last := segs[|segs| - 1];
      Estimates(segs[..|segs| - 1], x) + StepEstimate(last.0, last.1, x)
  }

  /** Walking one more segment appends that segment's step to the estimates. */
  lemma EstimatesSnoc(segs: seq<(Point, Point)>, i: int, x: real)
    requires 0 <= i < |segs|
    ensures Estimates(segs[..i + 1], x) == Estimates(segs[..i], x) + StepEstimate(segs[i].0, segs[i].1, x)
  {
    assert segs[..i + 1][..i] == segs[..i];
  }

  /** Every value the loop yields is the y of a point at `x` on one of the segments. */
  lemma {:induction false} EstimatesOnSegments(segs: seq<(Point, Point)>, x: real)
    ensures forall y :: y in Estimates(segs, x) ==>
      exists k :: 0 <= k < |segs| && OnSegment(segs[k].0, segs[k].1, Point(x, y))
    decreases |segs|
  {
    if segs != [] {
      var n := |segs| - 1;
      var prefix := segs[..n];
      EstimatesOnSegments(prefix, x);
      forall y | y in Estimates(segs, x)
        ensures exists k :: 0 <= k < |segs| && OnSegment(segs[k].0, segs[k].1, Point(x, y))
      {
        if y in Estimates(prefix, x) {
          var k :| 0 <= k < |prefix| && OnSegment(prefix[k].0, prefix[k].1, Point(x, y));
          assert segs[k] == prefix[k];
        } else {
          StepEstimateOnSegment(segs[n].0, segs[n].1, x);
          assert OnSegment(segs[n].0, segs[n].1, Point(x, y));
        }
      }
    }
  }

  /** Every segment that hits the vertical line at `x` contributes a value on it. */
  lemma {:induction false} EstimatesCoverHits(segs: seq<(Point, Point)>, x: real, k: int)
    requires 0 <= k < |segs| && Hits(segs[k].0, segs[k].1, x)
    ensures exists y :: y in Estimates(segs, x) && OnSegment(segs[k].0, segs[k].1, Point(x, y))
    decreases |segs|
  {
    var n := |segs| - 1;
    var step := StepEstimate(segs[n].0, segs[n].1, x);
    assert Estimates(segs, x) == Estimates(segs[..n], x) + step;
    if k == n {
      StepEstimateOnSegment(segs[n].0, segs[n].1, x);
      assert step[0] in Estimates(segs, x);
    } else {
      EstimatesCoverHits(segs[..n], x, k);
      var y :| y in Estimates(segs[..n], x) && OnSegment(segs[k].0, segs[k].1, Point(x, y));
      assert y in Estimates(segs, x);
    }
  }

  /** Consecutive segments share their joint. */
  predicate Chained(segs: seq<(Point, Point)>) {
    forall k :: 0 <= k < |segs| - 1 ==> segs[k].1 == segs[k + 1].0
  }

  /** A chain of segments whose ends lie on opposite sides of `x` crosses the
      vertical line at `x` somewhere: the loop yields at least one value. */
  lemma {:induction false} ChainCrossing(segs: seq<(Point, Point)>, x: real)
    requires |segs| >= 1 && Chained(segs)
    requires (segs[0].0.x < x < segs[|segs| - 1].1.x) || (segs[|segs| - 1].1.x < x < segs[0].0.x)
    ensures Estimates(segs, x) != []
    decreases |segs|
  {
    var n := |segs| - 1;
    var p, q := segs[n].0, segs[n].1;
    assert Estimates(segs, x) == Estimates(segs[..n], x) + StepEstimate(p, q, x);
    if !Hits(p, q, x) {
      assert n > 0;
      var prefix := segs[..n];
      assert prefix[n - 1].1 == p;
      if p.x == x {
        assert Hits(prefix[n - 1].0, prefix[n - 1].1, x);
        EstimatesCoverHits(prefix, x, n - 1);
      } else {
        ChainCrossing(prefix, x);
      }
    }
  }

  /** A chain lying entirely at or to the right of `x`, and touching it at most
      at its segments' starts, yields nothing. */
  lemma {:induction false} EstimatesNoneRightOf(segs: seq<(Point, Point)>, x: real)
    requires forall k :: 0 <= k < |segs| ==> segs[k].0.x >= x && segs[k].1.x > x
    ensures Estimates(segs, x) == []
    decreases |segs|
  {
    if segs != [] {
      EstimatesNoneRightOf(segs[..|segs| - 1], x);
    }
  }

  /** The boundary values `estimate_y` yields before its loop. */
  function EndpointEstimates(c: CubicBezier, x: real): seq<real> {
    (if x == c.a0.x then [c.a0.y] else []) + (if x == c.a3.x then [c.a3.y] else [])
  }

  /** What `estimate_y(x, resolution)` yields for resolution >= 0: `a0.y` first
      when x is `a0.x`, then `a3.y` when x is `a3.x`, then one value per sampled
      segment that hits x. At most resolution + 2 values; when x is `a3.x` the
      last segment ends exactly at `a3`, so `a3.y` comes again, as the last value,
      after the endpoint values. */
  function EstimatedYs(c: CubicBezier, x: real, resolution: int): (r: seq<real>)
    requires resolution >= 0
    ensures |r| <= resolution + 2
    ensures x == c.a0.x ==> |r| >= 1 && r[0] == c.a0.y
    ensures x != c.a0.x && x == c.a3.x ==> |r| >= 1 && r[0] == c.a3.y
    ensures x == c.a0.x && x == c.a3.x ==> |r| >= 2 && r[1] == c.a3.y
    ensures x == c.a3.x && resolution >= 1 ==> |r| >= |EndpointEstimates(c, x)| + 1 && r[|r| - 1] == c.a3.y
  {
    var segs := Segments(c, resolution);
    assert resolution >= 1 ==>
      Estimates(segs, x) == Estimates(segs[..resolution - 1], x)
                            + StepEstimate(segs[resolution - 1].0, segs[resolution - 1].1, x);
    EndpointEstimates(c, x) + Estimates(segs, x)
  }

  /** Every estimated y lies within the curve's vertical bounds. */
  lemma EstimatedYsWithinBounds(c: CubicBezier, x: real, resolution: int)
    requires resolution >= 0
    ensures forall y :: y in EstimatedYs(c, x, resolution) ==> Min(c).y <= y <= Max(c).y
  {
    var segs := Segments(c, resolution);
    EstimatesOnSegments(segs, x);
    SegmentsWithinBounds(c, resolution);
    forall y | y in EstimatedYs(c, x, resolution)
      ensures Min(c).y <= y <= Max(c).y
    {
      if y !in EndpointEstimates(c, x) {
        assert y in Estimates(segs, x);
        var k :| 0 <= k < |segs| && OnSegment(segs[k].0, segs[k].1, Point(x, y));
        assert Within(Min(c), segs[k].0, Max(c)) && Within(Min(c), segs[k].1, Max(c));
      }
    }
  }

  /** When x lies between the end anchors' x coordinates, `estimate_y` finds at
      least one crossing (given at least one segment). */
  lemma EstimatedYsFindsCrossing(c: CubicBezier, x: real, resolution: int)
    requires resolution >= 1
    requires Between(x, c.a0.x, c.a3.x)
    ensures EstimatedYs(c, x, resolution) != []
  {
    if x != c.a0.x && x != c.a3.x {
      var segs := Segments(c, resolution);
      ChainCrossing(segs, x);
    }
  }

  /** The loop of `estimate_y`: walks `ps` from `start`, yielding a point's y
      when its x is exactly `x` and otherwise the interpolated y when `x` lies
      strictly between the previous and current points' x. */
  method WalkEstimates(start: Point, ps: seq<Point>, x: real) returns (ys: seq<real>)
    ensures ys == Estimates(Chain(start, ps), x)
  {
    ghost var segs := Chain(start, ps);
    ys := [];
    var previous := start;
    var i := 0;
    while i < |ps|
      invariant 0 <= i <= |ps|
      invariant ys == Estimates(segs[..i], x)
      invariant previous == if i == 0 then start else ps[i - 1]
    {
      var point := ps[i];
      assert segs[i] == (previous, point);
      EstimatesSnoc(segs, i, x);
      if point.x == x {
        ys := ys + [point.y];
      } else if XIsBetweenPoints(x, previous, point) {
        var xt := InverseLerp(previous.x, point.x, x);
        ys := ys + [Lerp(previous.y, point.y, xt)];
      }
      previous := point;
      i := i + 1;
    }
    assert segs[..i] == segs;
  }

  /** `estimate_y(x, resolution)`: yields `a0.y` when x is `a0.x`, then `a3.y`
      when x is `a3.x`, then walks `points(resolution + 1, start=1)` from `a0`.
      A negative resolution makes `points` raise. */
  method EstimateY(c: CubicBezier, x: real, resolution: int) returns (r: Result<seq<real>>)
    ensures resolution < 0 ==> r == Err(CountOutOfRange(resolution + 1))
    ensures resolution >= 0 ==> r == Ok(EstimatedYs(c, x, resolution))
  {
    var ys: seq<real> := [];
    if x == c.a0.x {
      ys := ys + [c.a0.y];
    }
    if x == c.a3.x {
      ys := ys + [c.a3.y];
    }
    var points := Points(c, resolution + 1, 1);
    if points.Err? {
      return Err(points.error);
    }
    assert ys == EndpointEstimates(c, x);
    var walked := WalkEstimates(c.a0, points.value, x);
    assert Chain(c.a0, points.value) == Segments(c, resolution);
    return Ok(ys + walked);
  }
}
