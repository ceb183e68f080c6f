/** The least-squares line through the weekly costs and its value one week ahead. */
module Regression {
  function SumY(ys: seq<real>): real
  {
    if ys == [] then 0.0 else SumY(ys[..|ys| - 1]) + ys[|ys| - 1]
  }

  /** The five running sums of the fit over the points (x, y) with x = 1 .. n. */
  datatype Sums = Sums(n: real, sx: real, sxx: real, sy: real, sxy: real)

  /** One step of the reductions: the next point, at x = n + 1, with value `y`. */
  function Step(s: Sums, y: real): (r: Sums)
    ensures r.n == s.n + 1.0 && r.sy == s.sy + y
  {
    var x := s.n + 1.0;
    Sums(x, s.sx + x, s.sxx + x * x, s.sy + y, s.sxy + x * y)
  }

  /** `n`, `sumX`, `sumXX`, `sumY` and `sumXY` for the week costs `ys`, the i-th at x = i + 1. */
  function SumsOf(ys: seq<real>): (s: Sums)
    ensures s.sy == SumY(ys)
  {
    if ys == [] then Sums(0.0, 0.0, 0.0, 0.0, 0.0) else Step(SumsOf(ys[..|ys| - 1]), ys[|ys| - 1])
  }

  /** Σx and Σx² have their closed forms n(n+1)/2 and n(n+1)(2n+1)/6. */
  predicate Closed(s: Sums)
  {
    2.0 * s.sx == s.n * (s.n + 1.0) && 6.0 * s.sxx == s.n * (s.n + 1.0) * (2.0 * s.n + 1.0)
  }

  lemma StepClosed(s: Sums, y: real)
    requires Closed(s)
    ensures Closed(Step(s, y))
  {
    var m := s.n;
    assert 2.0 * (s.sx + (m + 1.0)) == (m + 1.0) * (m + 2.0);
    assert 6.0 * (s.sxx + (m + 1.0) * (m + 1.0)) == (m + 1.0) * (m + 2.0) * (2.0 * m + 3.0);
  }

  /** The count is the number of weeks, and Σx, Σx² have their closed forms. */
  lemma {:induction false} SumsClosed(ys: seq<real>)
    ensures SumsOf(ys).n == |ys| as real
    ensures Closed(SumsOf(ys))
  {
    if ys != [] {
      var init := ys[..|ys| - 1];
      SumsClosed(init);
      StepClosed(SumsOf(init), ys[|ys| - 1]);
    }
  }

  /** The denominator of the slope, `n·Σx² − (Σx)²`. */
  function Denominator(s: Sums): real
  {
    s.n * s.sxx - s.sx * s.sx
  }

  /** The sums admit a fit: at least one point and a positive denominator. */
  predicate Fits(s: Sums)
  {
    s.n > 0.0 && Denominator(s) > 0.0
  }

  /** With x = 1 .. n the denominator is n²(n²−1)/12, positive from two points on. */
  lemma ClosedDenominator(s: Sums)
    requires s.n >= 2.0 && Closed(s)
    ensures 12.0 * Denominator(s) == (s.n * s.n) * (s.n * s.n - 1.0)
    ensures Fits(s)
  {
    var n, sx, sxx := s.n, s.sx, s.sxx;
    assert 12.0 * (n * sxx - sx * sx) == 2.0 * n * (6.0 * sxx) - 3.0 * (2.0 * sx) * (2.0 * sx);
    assert n * n >= 4.0 by { assert n * n >= 2.0 * n; }
    assert (n * n) * (n * n - 1.0) >= 3.0 * (n * n);
  }

  /** From two weeks on the fit is defined. */
  lemma FitsFromTwoWeeks(ys: seq<real>)
    requires |ys| >= 2
    ensures Fits(SumsOf(ys))
  {
    SumsClosed(ys);
    ClosedDenominator(SumsOf(ys));
  }

  /** `slope = (n·sumXY − sumX·sumY) / (n·sumXX − sumX·sumX)`. */
  function Slope(s: Sums): real
    requires Fits(s)
  {
    (s.n * s.sxy - s.sx * s.sy) / Denominator(s)
  }

  /** `intercept = (sumY − slope·sumX) / n`. */
  function Intercept(s: Sums): real
    requires Fits(s)
  {
    (s.sy - Slope(s) * s.sx) / s.n
  }

  /** The line evaluated at `nextWeekIndex = n + 1`, before the floor. */
  function NextWeekCost(s: Sums): real
    requires Fits(s)
  {
    Slope(s) * (s.n + 1.0) + Intercept(s)
  }

  /** The sums of points lying on the line y = a·x + b. */
  predicate OnLine(s: Sums, a: real, b: real)
  {
    s.sy == a * s.sx + b * s.n && s.sxy == a * s.sxx + b * s.sx
  }

  /** The week costs `ys` lie on the line y = a·x + b, the i-th at x = i + 1. */
  predicate Linear(ys: seq<real>, a: real, b: real)
  {
    forall i :: 0 <= i < |ys| ==> ys[i] == a * ((i + 1) as real) + b
  }

  lemma LineStep(s: Sums, a: real, b: real, y: real)
    requires OnLine(s, a, b) && y == a * (s.n + 1.0) + b
    ensures OnLine(Step(s, y), a, b)
  {
    var x := s.n + 1.0;
    assert x * y == a * (x * x) + b * x;
  }

  lemma LinearInit(ys: seq<real>, a: real, b: real)
    requires ys != [] && Linear(ys, a, b)
    ensures Linear(ys[..|ys| - 1], a, b)
    ensures ys[|ys| - 1] == a * (|ys| as real) + b
  {
    var init := ys[..|ys| - 1];
    forall i | 0 <= i < |init| ensures init[i] == a * ((i + 1) as real) + b {
      assert init[i] == ys[i];
    }
  }

  lemma {:induction false} LineSums(ys: seq<real>, a: real, b: real)
    requires Linear(ys, a, b)
    ensures OnLine(SumsOf(ys), a, b)
  {
    if ys != [] {
      var init := ys[..|ys| - 1];
      LinearInit(ys, a, b);
      LineSums(init, a, b);
      SumsClosed(init);
      LineStep(SumsOf(init), a, b, ys[|ys| - 1]);
    }
  }

  /** The value of the line y = a·x + b at x. */
  function LinePoint(a: real, b: real, x: real): real
  {
    a * x + b
  }

  /** The fit of `s` is the line y = a·x + b, and so is its next-week value. */
  predicate FitIsLine(s: Sums, a: real, b: real)
  {
    Fits(s) && Slope(s) == a && Intercept(s) == b && NextWeekCost(s) == LinePoint(a, b, s.n + 1.0)
  }

  lemma FitOfLine(s: Sums, a: real, b: real)
    requires Fits(s) && OnLine(s, a, b)
    ensures FitIsLine(s, a, b)
  {
    var d := Denominator(s);
    assert s.n * s.sxy == a * (s.n * s.sxx) + b * (s.n * s.sx);
    assert s.sx * s.sy == a * (s.sx * s.sx) + b * (s.sx * s.n);
    assert s.n * s.sxy - s.sx * s.sy == a * d;
    assert s.sy - a * s.sx == b * s.n;
  }

  /** Fed week costs that lie on a line, the fit returns that very line. */
  lemma OlsRecoversLine(ys: seq<real>, a: real, b: real)
    requires |ys| >= 2 && Linear(ys, a, b)
    ensures SumsOf(ys).n == |ys| as real
    ensures FitIsLine(SumsOf(ys), a, b)
    ensures NextWeekCost(SumsOf(ys)) == LinePoint(a, b, |ys| as real + 1.0)
  {
    FitsFromTwoWeeks(ys);
    SumsClosed(ys);
    LineSums(ys, a, b);
    FitOfLine(SumsOf(ys), a, b);
  }

}
