/** The curve the test suite builds its cases on, with the values the tests
    expect of it, proved of the model. */
module BezierFixture {
  import opened Vecked
  import opened BendyMath
  import opened Bezier

  /** The "S" curve from (100, 100) to (400, 400). */
  function Fixture(): CubicBezier {
    CubicBezier(Point(100.0, 100.0), Point(300.0, 50.0), Point(200.0, 450.0), Point(400.0, 400.0))
  }

  /** The curve's midpoint is (250, 250). */
  lemma FixtureSolveMiddle()
    ensures Solve(Fixture(), 0.5) == Ok(Point(250.0, 250.0))
  {
    assert W0(0.5) == 0.125 && W1(0.5) == 0.375 && W2(0.5) == 0.375 && W3(0.5) == 0.125;
  }

  /** `solve` at 0, 0.5 and 1, and its rejection of t = -1. */
  lemma FixtureSolve()
    ensures Solve(Fixture(), 0.0) == Ok(Point(100.0, 100.0))
    ensures Solve(Fixture(), 0.5) == Ok(Point(250.0, 250.0))
    ensures Solve(Fixture(), 1.0) == Ok(Point(400.0, 400.0))
    ensures Solve(Fixture(), -1.0) == Err(TOutOfRange(-1.0))
  {
    FixtureSolveMiddle();
  }

  lemma FixtureSolveQuarter()
    ensures Solve(Fixture(), 0.25) == Ok(Point(203.125, 132.8125))
  {
    assert W0(0.25) == 0.421875 && W1(0.25) == 0.421875 && W2(0.25) == 0.140625 && W3(0.25) == 0.015625;
  }

  lemma FixtureSolveThreeQuarters()
    ensures Solve(Fixture(), 0.75) == Ok(Point(296.875, 367.1875))
  {
    assert W0(0.75) == 0.015625 && W1(0.75) == 0.140625 && W2(0.75) == 0.421875 && W3(0.75) == 0.421875;
  }

  /** `points(5)` yields the curve at quarter steps, and `points(5, start=2)`
      the last three of them. */
  lemma FixturePoints()
    ensures Samples(Fixture(), 5, 0) ==
      [Point(100.0, 100.0), Point(203.125, 132.8125), Point(250.0, 250.0),
       Point(296.875, 367.1875), Point(400.0, 400.0)]
    ensures Samples(Fixture(), 5, 2) ==
      [Point(250.0, 250.0), Point(296.875, 367.1875), Point(400.0, 400.0)]
  {
    var f := Fixture();
    var s := Samples(f, 5, 0);
    SamplesAreSolutions(f, 5, 0);
    assert Solve(f, 1 as real / 4 as real) == Ok(s[1]);
    assert Solve(f, 2 as real / 4 as real) == Ok(s[2]);
    assert Solve(f, 3 as real / 4 as real) == Ok(s[3]);
    FixtureSolveQuarter();
    FixtureSolveMiddle();
    FixtureSolveThreeQuarters();
    SamplesStartIsSuffix(f, 5, 2);
  }

  /** Everywhere after its start, the curve lies strictly right of x = 100. */
  lemma FixtureRightOfStart(t: real)
    requires 0.0 < t <= 1.0
    ensures Solve(Fixture(), t).Ok? && Solve(Fixture(), t).value.x > 100.0
  {
    var f := Fixture();
    SolveIsBernstein(f, t);
    BernsteinWeights(t);
    assert t * t > 0.0;
    assert W3(t) > 0.0;
    assert Bernstein(f, t).x == 100.0 * W0(t) + 300.0 * W1(t) + 200.0 * W2(t) + 400.0 * W3(t);
  }

  /** `estimate_y(100)` yields only the start anchor's y: no sampled segment
      reaches back to x = 100. */
  lemma FixtureEstimateY()
    ensures EstimatedYs(Fixture(), 100.0, 100) == [100.0]
  {
    var f := Fixture();
    var segs := Segments(f, 100);
    SegmentsEndAtSolutions(f, 100);
    forall k | 0 <= k < 100
      ensures segs[k].1.x > 100.0
    {
      UnitFraction(k + 1, 100);
      FixtureRightOfStart((k + 1) as real / 100 as real);
    }
    forall k | 0 <= k < 100
      ensures segs[k].0.x >= 100.0 && segs[k].1.x > 100.0
    {
      if k > 0 {
        assert segs[k].0 == segs[k - 1].1;
      }
    }
    EstimatesNoneRightOf(segs, 100.0);
  }
}
