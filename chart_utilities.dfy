/** `ChartUtilities`: building series and pie segments from raw values, and
    the statistics helpers (summary statistics, moving-average smoothing,
    least-squares regression). */
module ChartUtilities {
  import opened Numbers
  import opened ChartData

  // ---------------------------------------------------------------------
  // Series and segment generation
  // ---------------------------------------------------------------------

  /** `generateSeries`: point i sits at x = startX + i*stepX, carries the i-th
      value as y and the printed x (`Float.toString`, a parameter here) as label.
      As in the source, startX defaults to 0 and stepX to 1. */
  function GenerateSeries(values: seq<real>, name: string, color: Color, format: real -> string,
                          startX: real := 0.0, stepX: real := 1.0): (r: DataSeries)
    ensures r.name == name && r.color == color
    ensures Ys(r.points) == values
    ensures forall i :: 0 <= i < |values| ==>
      r.points[i].x == startX + i as real * stepX && r.points[i].tag == format(r.points[i].x)
  {
    var points := seq(|values|, i requires 0 <= i < |values| =>
      DataPoint(startX + i as real * stepX, values[i], format(startX + i as real * stepX)));
    assert Ys(points) == values;
    DataSeries(name, color, points)
  }

  /** Consecutive generated points are `stepX` apart. */
  lemma {:induction false} GeneratedSpacing(values: seq<real>, name: string, color: Color, format: real -> string,
                                           startX: real, stepX: real, i: nat)
    requires 0 < i < |values|
    ensures var ps := GenerateSeries(values, name, color, format, startX, stepX).points;
      ps[i].x - ps[i - 1].x == stepX
  {
    var k := (i - 1) as real;
    assert i as real == k + 1.0;
    Distribute(stepX, k, 1.0);
    assert (k + 1.0) * stepX == k * stepX + stepX;
  }

  /** With the default start and step, point i sits at x = i. */
  lemma {:induction false} GeneratedDefaults(values: seq<real>, name: string, color: Color, format: real -> string,
                                            i: nat)
    requires i < |values|
    ensures GenerateSeries(values, name, color, format).points[i].x == i as real
  {
  }

  /** `generatePieSegments`: the map's entries, in iteration order, become
      segments coloured cyclically from `colors`. `index % colors.size` throws
      when the colour list is empty and there is at least one entry. */
  function GeneratePieSegments(entries: seq<(string, real)>, colors: seq<Color>): (r: seq<PieChartSegment>)
    requires |entries| == 0 || |colors| > 0
    ensures |r| == |entries|
    ensures forall i :: 0 <= i < |entries| ==>
      r[i].tag == entries[i].0 && r[i].value == entries[i].1 && r[i].color == colors[i % |colors|]
  {
    var r := seq(|entries|, i requires 0 <= i < |entries| =>
      PieChartSegment(entries[i].0, entries[i].1, colors[i % |colors|]));
    r
  }

  // ---------------------------------------------------------------------
  // Summary statistics
  // ---------------------------------------------------------------------

  ghost predicate IsSorted(s: seq<real>)
  {
    forall i, j :: 0 <= i < j < |s| ==> s[i] <= s[j]
  }

  /** Insert `x` into the sorted sequence `s`. */
  function Insert(x: real, s: seq<real>): (r: seq<real>)
    requires IsSorted(s)
    ensures |r| == |s| + 1
    ensures IsSorted(r)
    ensures multiset(r) == multiset(s) + multiset{x}
  {
    if s == [] then [x]
    else if x <= s[0] then
      SortedCons(x, s);
      [x] + s
    else
      var r0 := Insert(x, s[1..]);
      assert s == [s[0]] + s[1..];
      BoundedBelow(s[0], x, s[1..], r0);
      SortedCons(s[0], r0);
      [s[0]] + r0
  }

  /** A sequence whose elements are those of `t` and `x`, all at least `lo`,
      is itself bounded below by `lo`. */
  lemma {:induction false} BoundedBelow(lo: real, x: real, t: seq<real>, r: seq<real>)
    requires lo <= x && forall i :: 0 <= i < |t| ==> lo <= t[i]
    requires multiset(r) == multiset(t) + multiset{x}
    ensures forall i :: 0 <= i < |r| ==> lo <= r[i]
  {
    forall i | 0 <= i < |r|
      ensures lo <= r[i]
    {
      assert r[i] in multiset(r);
      if r[i] != x {
        assert r[i] in multiset(t);
        var j :| 0 <= j < |t| && t[j] == r[i];
      }
    }
  }

  /** Prefixing a lower bound keeps a sequence sorted. */
  lemma {:induction false} SortedCons(a: real, r: seq<real>)
    requires IsSorted(r) && forall i :: 0 <= i < |r| ==> a <= r[i]
    ensures IsSorted([a] + r)
  {
    var s := [a] + r;
    forall i, j | 0 <= i < j < |s|
      ensures s[i] <= s[j]
    {
      assert s[j] == r[j - 1];
      if i > 0 {
        assert s[i] == r[i - 1];
      }
    }
  }

  /** `sorted()`: the values in ascending order. */
  function SortAscending(s: seq<real>): (r: seq<real>)
    ensures IsSorted(r) && multiset(r) == multiset(s) && |r| == |s|
  {
    if s == [] then []
    else
      assert s == s[..|s| - 1] + [s[|s| - 1]];
      Insert(s[|s| - 1], SortAscending(s[..|s| - 1]))
  }

  /** Every element of a sorted copy is one of the original values, so it lies
      between their minimum and maximum. */
  lemma {:induction false} SortedWithinBounds(s: seq<real>, k: nat)
    requires k < |s|
    ensures Min(s) <= SortAscending(s)[k] <= Max(s)
  {
    var r := SortAscending(s);
    assert r[k] in multiset(r);
    assert r[k] in multiset(s);
    var i :| 0 <= i < |s| && s[i] == r[k];
  }

  /** The mean, `sum / size`; it lies between the minimum and the maximum. */
  function Mean(values: seq<real>): (m: real)
    requires |values| > 0
    ensures Min(values) <= m <= Max(values)
  {
    MeanBounds(values);
    Sum(values) / |values| as real
  }

  /** sum / n lies between the smallest and the largest value. */
  lemma {:induction false} MeanBounds(values: seq<real>)
    requires |values| > 0
    ensures Min(values) <= Sum(values) / |values| as real <= Max(values)
  {
    MeanBetween(values, Min(values), Max(values));
  }

  /** The median of the sorted values: the middle element for an odd count,
      the mean of the two middle elements for an even count. */
  function Median(values: seq<real>): (m: real)
    requires |values| > 0
    ensures Min(values) <= m <= Max(values)
  {
    var sorted := SortAscending(values);
    var n := |values|;
    if n % 2 == 0 then
      SortedWithinBounds(values, n / 2 - 1);
      SortedWithinBounds(values, n / 2);
      (sorted[n / 2 - 1] + sorted[n / 2]) / 2.0
    else
      SortedWithinBounds(values, n / 2);
      sorted[n / 2]
  }

  /** The squared deviations from the mean, in order. */
  function SquaredDeviations(values: seq<real>, mean: real): (r: seq<real>)
    ensures |r| == |values|
    ensures forall i :: 0 <= i < |values| ==> r[i] == (values[i] - mean) * (values[i] - mean)
  {
    seq(|values|, i requires 0 <= i < |values| => (values[i] - mean) * (values[i] - mean))
  }

  /** The population variance: the squared deviations summed and divided by
      the count (not by count - 1). It is never negative. */
  function Variance(values: seq<real>): (v: real)
    requires |values| > 0
    ensures 0.0 <= v
  {
    VarianceNonNegative(values);
    Sum(SquaredDeviations(values, Mean(values))) / |values| as real
  }

  lemma {:induction false} VarianceNonNegative(values: seq<real>)
    requires |values| > 0
    ensures 0.0 <= Sum(SquaredDeviations(values, Mean(values))) / |values| as real
  {
    SquaredDeviationsNonNegative(values, Mean(values));
  }

  lemma {:induction false} SquaredDeviationsNonNegative(values: seq<real>, m: real)
    requires |values| > 0
    ensures 0.0 <= Sum(SquaredDeviations(values, m)) / |values| as real
  {
    var d := SquaredDeviations(values, m);
    forall i | 0 <= i < |d| ensures 0.0 <= d[i] {
      SquareNonNegative(values[i] - m);
    }
    SumNonNegative(d);
    DivNonNegative(Sum(d), |values| as real);
  }

  lemma {:induction false} SquareNonNegative(x: real)
    ensures 0.0 <= x * x
  {
  }

  /** `calculateStatistics`: empty input gives the empty map; otherwise the
      five statistics, with `sqrt` standing for `kotlin.math.sqrt`. */
  function CalculateStatistics(values: seq<real>, sqrt: real -> real): (r: map<string, real>)
    ensures values == [] <==> r == map[]
    ensures values != [] ==>
      && r.Keys == {"min", "max", "mean", "median", "stdDev"}
      && (forall i :: 0 <= i < |values| ==> r["min"] <= values[i] <= r["max"])
      && r["min"] in values && r["max"] in values
      && r["min"] <= r["median"] <= r["max"]
      && r["min"] <= r["mean"] <= r["max"]
      && r["mean"] == Mean(values)
      && r["median"] == Median(values)
      && r["stdDev"] == sqrt(Variance(values))
  {
    if values == [] then map[]
    else StatisticsMap(Min(values), Max(values), Mean(values), Median(values), sqrt(Variance(values)))
  }

  /** The five-entry result map of `calculateStatistics`. */
  function StatisticsMap(min: real, max: real, mean: real, median: real, stdDev: real): (r: map<string, real>)
    ensures r.Keys == {"min", "max", "mean", "median", "stdDev"}
    ensures r["min"] == min && r["max"] == max && r["mean"] == mean
    ensures r["median"] == median && r["stdDev"] == stdDev
  {
    map["min" := min, "max" := max, "mean" := mean, "median" := median, "stdDev" := stdDev]
  }

  // ---------------------------------------------------------------------
  // Moving-average smoothing
  // ---------------------------------------------------------------------

  /** The y values of the `w` points starting at index `lo`. */
  function WindowYs(points: seq<DataPoint>, lo: nat, w: nat): (r: seq<real>)
    requires lo + w <= |points|
    ensures |r| == w && forall j :: 0 <= j < w ==> r[j] == points[lo + j].y
  {
    seq(w, j requires 0 <= j < w => points[lo + j].y)
  }

  /** Point i of the smoothed series: the first and last `w / 2` points are
      kept; an interior point keeps its x and label and takes as y the mean of
      the `w` values starting at `i - w / 2`. */
  function SmoothedAt(points: seq<DataPoint>, w: int, i: nat): DataPoint
    requires 1 < w < |points| && i < |points|
  {
    if i < w / 2 || i >= |points| - w / 2 then points[i]
    else DataPoint(points[i].x, Sum(WindowYs(points, i - w / 2, w)) / w as real, points[i].tag)
  }

  /** `smoothSeries`: three loops append the kept head, the averaged interior
      and the kept tail to a fresh list. The window size defaults to 3. */
  method SmoothSeries(series: DataSeries, windowSize: int := 3) returns (r: DataSeries)
    ensures windowSize <= 1 || |series.points| <= windowSize ==> r == series
    ensures windowSize > 1 && |series.points| > windowSize ==>
      && r.name == series.name + " (lissé)"
      && r.color == series.color
      && |r.points| == |series.points|
      && (forall i :: 0 <= i < |r.points| ==> r.points[i] == SmoothedAt(series.points, windowSize, i))
      && (forall i :: 0 <= i < |r.points| ==> r.points[i].x == series.points[i].x && r.points[i].tag == series.points[i].tag)
  {
    if windowSize <= 1 || |series.points| <= windowSize {
      return series;
    }
    var points := series.points;
    var n := |points|;
    var half := windowSize / 2;
    var smoothed: seq<DataPoint> := [];
    for i := 0 to half
      invariant SmoothedUpTo(points, windowSize, smoothed, i)
    {
      SmoothedKept(points, windowSize, i);
      SmoothedExtend(points, windowSize, smoothed, i, points[i]);
      smoothed := smoothed + [points[i]];
    }
    for i := half to n - half
      invariant SmoothedUpTo(points, windowSize, smoothed, i)
    {
      var sum := WindowSum(points, i - half, windowSize);
      var p := DataPoint(points[i].x, sum / windowSize as real, points[i].tag);
      SmoothedAveraged(points, windowSize, i, sum);
      SmoothedExtend(points, windowSize, smoothed, i, p);
      smoothed := smoothed + [p];
    }
    for i := n - half to n
      invariant SmoothedUpTo(points, windowSize, smoothed, i)
    {
      SmoothedKept(points, windowSize, i);
      SmoothedExtend(points, windowSize, smoothed, i, points[i]);
      smoothed := smoothed + [points[i]];
    }
    r := DataSeries(series.name + " (lissé)", series.color, smoothed);
  }

  /** The first i smoothed points. */
  predicate SmoothedUpTo(points: seq<DataPoint>, w: int, smoothed: seq<DataPoint>, i: nat)
    requires 1 < w < |points| && i <= |points|
  {
    |smoothed| == i && forall k :: 0 <= k < i ==> smoothed[k] == SmoothedAt(points, w, k)
  }

  /** Appending smoothed point i extends the first i smoothed points. */
  lemma {:induction false} SmoothedExtend(points: seq<DataPoint>, w: int, smoothed: seq<DataPoint>, i: nat, p: DataPoint)
    requires 1 < w < |points| && i < |points|
    requires SmoothedUpTo(points, w, smoothed, i) && p == SmoothedAt(points, w, i)
    ensures SmoothedUpTo(points, w, smoothed + [p], i + 1)
  {
  }

  /** The head and tail points are kept. */
  lemma {:induction false} SmoothedKept(points: seq<DataPoint>, w: int, i: nat)
    requires 1 < w < |points| && i < |points| && (i < w / 2 || i >= |points| - w / 2)
    ensures SmoothedAt(points, w, i) == points[i]
  {
  }

  /** An interior point takes the window mean. */
  lemma {:induction false} SmoothedAveraged(points: seq<DataPoint>, w: int, i: nat, sum: real)
    requires 1 < w < |points| && w / 2 <= i < |points| - w / 2
    requires sum == Sum(WindowYs(points, i - w / 2, w))
    ensures SmoothedAt(points, w, i) == DataPoint(points[i].x, sum / w as real, points[i].tag)
  {
  }

  /** The inner loop of `smoothSeries`: the sum of the `w` y values starting at `lo`. */
  method WindowSum(points: seq<DataPoint>, lo: nat, w: nat) returns (sum: real)
    requires lo + w <= |points|
    ensures sum == Sum(WindowYs(points, lo, w))
  {
    sum := 0.0;
    for j := 0 to w
      invariant sum == Sum(WindowYs(points, lo, j))
    {
      assert WindowYs(points, lo, j + 1)[..j] == WindowYs(points, lo, j);
      sum := sum + points[lo + j].y;
    }
  }

  /** Every smoothed y lies between the smallest and the largest original y. */
  lemma {:induction false} SmoothingStaysInRange(points: seq<DataPoint>, w: int, i: nat)
    requires 1 < w < |points| && i < |points|
    ensures Min(Ys(points)) <= SmoothedAt(points, w, i).y <= Max(Ys(points))
  {
    if !(i < w / 2 || i >= |points| - w / 2) {
      var lo := i - w / 2;
      WindowMeanBounds(points, lo, w);
      assert SmoothedAt(points, w, i).y == Sum(WindowYs(points, lo, w)) / w as real;
    } else {
      assert SmoothedAt(points, w, i) == points[i] && Ys(points)[i] == points[i].y;
    }
  }

  lemma {:induction false} WindowMeanBounds(points: seq<DataPoint>, lo: nat, w: nat)
    requires 0 < w && lo + w <= |points|
    ensures Min(Ys(points)) <= Sum(WindowYs(points, lo, w)) / w as real <= Max(Ys(points))
  {
    var ys := Ys(points);
    var win := WindowYs(points, lo, w);
    assert forall j :: 0 <= j < w ==> win[j] == ys[lo + j];
    MeanBetween(win, Min(ys), Max(ys));
  }

  /** A sequence of `n` copies of `c` sums to `n * c`. */
  lemma {:induction false} SumConstant(s: seq<real>, c: real)
    requires forall i :: 0 <= i < |s| ==> s[i] == c
    ensures Sum(s) == |s| as real * c
  {
    if s != [] {
      var p := s[..|s| - 1];
      assert forall i :: 0 <= i < |p| ==> p[i] == s[i];
      SumConstant(p, c);
    }
  }

  /** Smoothing a series whose points all have the same y leaves every point unchanged. */
  lemma {:induction false} SmoothingConstantSeries(points: seq<DataPoint>, w: int, c: real, i: nat)
    requires 1 < w < |points| && i < |points|
    requires forall k :: 0 <= k < |points| ==> points[k].y == c
    ensures SmoothedAt(points, w, i) == points[i]
  {
    if !(i < w / 2 || i >= |points| - w / 2) {
      SumConstant(WindowYs(points, i - w / 2, w), c);
      assert Sum(WindowYs(points, i - w / 2, w)) / w as real == c;
    }
  }

  // ---------------------------------------------------------------------
  // Least-squares regression
  // ---------------------------------------------------------------------

  /** The regression term x*y of one point. */
  function XY(d: DataPoint): real { d.x * d.y }

  /** The regression term x*x of one point. */
  function XSquare(d: DataPoint): real { d.x * d.x }

  /** The products x*y of a list of points. */
  function XYs(points: seq<DataPoint>): (r: seq<real>)
    ensures |r| == |points| && forall i :: 0 <= i < |points| ==> r[i] == XY(points[i])
  {
    seq(|points|, i requires 0 <= i < |points| => XY(points[i]))
  }

  /** The squares x*x of a list of points. */
  function XSquares(points: seq<DataPoint>): (r: seq<real>)
    ensures |r| == |points| && forall i :: 0 <= i < |points| ==> r[i] == XSquare(points[i])
  {
    seq(|points|, i requires 0 <= i < |points| => XSquare(points[i]))
  }

  /** The denominator `n*sumX2 - sumX*sumX` of the closed-form slope. */
  function DenominatorFrom(n: real, sumX: real, sumX2: real): real
  {
    n * sumX2 - sumX * sumX
  }

  /** The slope's denominator for a list of points. */
  function Denominator(points: seq<DataPoint>): real
  {
    DenominatorFrom(|points| as real, Sum(Xs(points)), Sum(XSquares(points)))
  }

  /** The closed-form slope `(n*sumXY - sumX*sumY) / (n*sumX2 - sumX*sumX)`
      computed from the count and the running sums. */
  function SlopeFrom(n: real, sumX: real, sumY: real, sumXY: real, sumX2: real): real
    requires DenominatorFrom(n, sumX, sumX2) != 0.0
  {
    (n * sumXY - sumX * sumY) / DenominatorFrom(n, sumX, sumX2)
  }

  /** The closed-form intercept computed from the count, two running sums and the slope. */
  function InterceptFrom(n: real, sumX: real, sumY: real, slope: real): real
    requires n != 0.0
  {
    (sumY - slope * sumX) / n
  }

  /** The ordinary-least-squares slope of a list of points. */
  function Slope(points: seq<DataPoint>): real
    requires Denominator(points) != 0.0
  {
    SlopeFrom(|points| as real, Sum(Xs(points)), Sum(Ys(points)), Sum(XYs(points)), Sum(XSquares(points)))
  }

  /** The ordinary-least-squares intercept of a list of points, given the slope. */
  function Intercept(points: seq<DataPoint>, slope: real): real
    requires |points| > 0
  {
    InterceptFrom(|points| as real, Sum(Xs(points)), Sum(Ys(points)), slope)
  }

  /** The fitted line `slope * x + intercept` at x. */
  function Fitted(slope: real, intercept: real, x: real): real
  {
    slope * x + intercept
  }

  /** Extending a prefix by one point adds that point's terms to each sum. */
  lemma {:induction false} SumsStep(points: seq<DataPoint>, i: nat)
    requires i < |points|
    ensures Sum(Xs(points[..i + 1])) == Sum(Xs(points[..i])) + points[i].x
    ensures Sum(Ys(points[..i + 1])) == Sum(Ys(points[..i])) + points[i].y
    ensures Sum(XYs(points[..i + 1])) == Sum(XYs(points[..i])) + XY(points[i])
    ensures Sum(XSquares(points[..i + 1])) == Sum(XSquares(points[..i])) + XSquare(points[i])
  {
    var p := points[..i + 1];
    assert Xs(p)[..i] == Xs(points[..i]);
    assert Ys(p)[..i] == Ys(points[..i]);
    assert XYs(p)[..i] == XYs(points[..i]);
    assert XSquares(p)[..i] == XSquares(points[..i]);
  }

  /** The closed forms applied to a list's own sums give its regression line. */
  lemma {:induction false} ClosedFormIsRegression(points: seq<DataPoint>, sumX: real, sumY: real, sumXY: real, sumX2: real)
    requires |points| > 0 && Denominator(points) != 0.0
    requires sumX == Sum(Xs(points)) && sumY == Sum(Ys(points))
    requires sumXY == Sum(XYs(points)) && sumX2 == Sum(XSquares(points))
    ensures DenominatorFrom(|points| as real, sumX, sumX2) != 0.0
    ensures SlopeFrom(|points| as real, sumX, sumY, sumXY, sumX2) == Slope(points)
    ensures forall a :: InterceptFrom(|points| as real, sumX, sumY, a) == Intercept(points, a)
  {
  }

  /** The summing loop of `linearRegression`: one pass accumulates the sums
      of x, y, x*y and x*x. */
  method RunningSums(points: seq<DataPoint>) returns (sumX: real, sumY: real, sumXY: real, sumX2: real)
    ensures sumX == Sum(Xs(points)) && sumY == Sum(Ys(points))
    ensures sumXY == Sum(XYs(points)) && sumX2 == Sum(XSquares(points))
  {
    sumX, sumY, sumXY, sumX2 := 0.0, 0.0, 0.0, 0.0;
    for i := 0 to |points|
      invariant sumX == Sum(Xs(points[..i])) && sumY == Sum(Ys(points[..i]))
      invariant sumXY == Sum(XYs(points[..i])) && sumX2 == Sum(XSquares(points[..i]))
    {
      SumsStep(points, i);
      sumX := sumX + points[i].x;
      sumY := sumY + points[i].y;
      sumXY := sumXY + XY(points[i]);
      sumX2 := sumX2 + XSquare(points[i]);
    }
    assert points[..|points|] == points;
  }

  /** `linearRegression`: fewer than two points return the series itself;
      otherwise a two-point series on the fitted line at the smallest and the
      largest x. The slope's denominator is not checked by the code (all x
      equal divides by zero), hence the precondition. */
  method LinearRegression(series: DataSeries) returns (r: DataSeries)
    requires |series.points| < 2 || Denominator(series.points) != 0.0
    ensures |series.points| < 2 ==> r == series
    ensures |series.points| >= 2 ==>
      var ps := series.points;
      var a := Slope(ps);
      var b := Intercept(ps, a);
      && r.name == "Régression (" + series.name + ")"
      && r.color == series.color.(alpha := 0.7)
      && r.points == [DataPoint(Min(Xs(ps)), Fitted(a, b, Min(Xs(ps))), "Début"),
                      DataPoint(Max(Xs(ps)), Fitted(a, b, Max(Xs(ps))), "Fin")]
  {
    var points := series.points;
    var n := |points|;
    if n < 2 {
      return series;
    }
    var sumX, sumY, sumXY, sumX2 := RunningSums(points);
    ClosedFormIsRegression(points, sumX, sumY, sumXY, sumX2);
    var slope := SlopeFrom(n as real, sumX, sumY, sumXY, sumX2);
    var intercept := InterceptFrom(n as real, sumX, sumY, slope);
    var startX := Min(Xs(points));
    var endX := Max(Xs(points));
    r := DataSeries("Régression (" + series.name + ")", series.color.(alpha := 0.7),
                    [DataPoint(startX, Fitted(slope, intercept, startX), "Début"),
                     DataPoint(endX, Fitted(slope, intercept, endX), "Fin")]);
  }

  /** One point on the line y = a*x + b has x*y == a*x*x + b*x. */
  lemma {:induction false} PointOnLine(d: DataPoint, a: real, b: real)
    requires d.y == a * d.x + b
    ensures XY(d) == a * XSquare(d) + b * d.x
  {
    Distribute(d.x, a * d.x, b);
  }

  /** For points on the line y = a*x + b, the sum of the y is determined by the sum of the x. */
  lemma {:induction false} CollinearYSum(points: seq<DataPoint>, a: real, b: real)
    requires forall i :: 0 <= i < |points| ==> points[i].y == a * points[i].x + b
    ensures Sum(Ys(points)) == a * Sum(Xs(points)) + |points| as real * b
  {
    SumAffine(Ys(points), Xs(points), a, b);
  }

  /** For points on the line y = a*x + b, the sum of the x*y is determined by the x-sums. */
  lemma {:induction false} CollinearXYSum(points: seq<DataPoint>, a: real, b: real)
    requires forall i :: 0 <= i < |points| ==> points[i].y == a * points[i].x + b
    ensures Combines(Sum(XYs(points)), Sum(XSquares(points)), Sum(Xs(points)), a, b)
  {
    LineTerms(points, a, b);
    SumLinear(XYs(points), XSquares(points), Xs(points), a, b);
  }

  /** Term by term, the x*y of points on the line are a*x*x + b*x. */
  lemma {:induction false} LineTerms(points: seq<DataPoint>, a: real, b: real)
    requires forall i :: 0 <= i < |points| ==> points[i].y == a * points[i].x + b
    ensures forall i :: 0 <= i < |points| ==> Combines(XYs(points)[i], XSquares(points)[i], Xs(points)[i], a, b)
  {
    forall i | 0 <= i < |points|
      ensures Combines(XYs(points)[i], XSquares(points)[i], Xs(points)[i], a, b)
    {
      PointOnLine(points[i], a, b);
    }
  }

  /** Sums of n points on the line y = a*x + b: the y-sum and the xy-sum
      are fixed by the x-sum and the sum of squares. */
  predicate LineSums(n: real, sumX: real, sumY: real, sumXY: real, sumX2: real, a: real, b: real)
  {
    sumY == a * sumX + n * b && Combines(sumXY, sumX2, sumX, a, b)
  }

  /** The sums of points on a line are line sums. */
  lemma {:induction false} CollinearSums(points: seq<DataPoint>, a: real, b: real)
    requires forall i :: 0 <= i < |points| ==> points[i].y == a * points[i].x + b
    ensures LineSums(|points| as real, Sum(Xs(points)), Sum(Ys(points)), Sum(XYs(points)), Sum(XSquares(points)), a, b)
  {
    CollinearYSum(points, a, b);
    CollinearXYSum(points, a, b);
  }

  /** The closed-form slope of line sums is a. */
  lemma {:induction false} SlopeOfLineSums(n: real, sumX: real, sumY: real, sumXY: real, sumX2: real, a: real, b: real)
    requires DenominatorFrom(n, sumX, sumX2) != 0.0
    requires LineSums(n, sumX, sumY, sumXY, sumX2, a, b)
    ensures SlopeFrom(n, sumX, sumY, sumXY, sumX2) == a
  {
    var num, den := n * sumXY - sumX * sumY, DenominatorFrom(n, sumX, sumX2);
    assert num == a * den;
    QuotientOf(num, den, a);
  }

  /** The closed-form intercept for slope a of line sums is b. */
  lemma {:induction false} InterceptOfLineSums(n: real, sumX: real, sumY: real, sumXY: real, sumX2: real, a: real, b: real)
    requires n != 0.0 && LineSums(n, sumX, sumY, sumXY, sumX2, a, b)
    ensures InterceptFrom(n, sumX, sumY, a) == b
  {
    assert sumY - a * sumX == b * n;
    QuotientOf(sumY - a * sumX, n, b);
  }

  /** Regression of points that already lie on a line recovers that line. */
  lemma {:induction false} RegressionRecoversLine(points: seq<DataPoint>, a: real, b: real)
    requires |points| > 0 && Denominator(points) != 0.0
    requires forall i :: 0 <= i < |points| ==> points[i].y == a * points[i].x + b
    ensures Slope(points) == a && Intercept(points, a) == b
  {
    var n, sumX, sumY := |points| as real, Sum(Xs(points)), Sum(Ys(points));
    var sumXY, sumX2 := Sum(XYs(points)), Sum(XSquares(points));
    CollinearSums(points, a, b);
    SlopeOfLineSums(n, sumX, sumY, sumXY, sumX2, a, b);
    InterceptOfLineSums(n, sumX, sumY, sumXY, sumX2, a, b);
  }

  /** When every x is c, the x's sum to n*c and their squares to n*c*c. */
  lemma {:induction false} SameXSums(points: seq<DataPoint>, c: real)
    requires forall i :: 0 <= i < |points| ==> points[i].x == c
    ensures Sum(Xs(points)) == |points| as real * c
    ensures Sum(XSquares(points)) == |points| as real * (c * c)
  {
    SumConstant(Xs(points), c);
    SumConstant(XSquares(points), c * c);
  }

  /** When every x is the same the regression denominator vanishes: the code's
      division by it is then undefined, which is what the precondition of
      `LinearRegression` excludes. */
  lemma {:induction false} EqualXsDegenerate(points: seq<DataPoint>, c: real)
    requires forall i :: 0 <= i < |points| ==> points[i].x == c
    ensures Denominator(points) == 0.0
  {
    SameXSums(points, c);
    var n := |points| as real;
    assert n * (n * (c * c)) == (n * c) * (n * c);
  }
}
