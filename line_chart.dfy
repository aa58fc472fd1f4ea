/** `LineChart`: the axis ranges, the data-to-pixel mapping, the line and
    fill paths of each series (straight or cubic Bézier), and the selection
    of the point nearest to a tap. */
module LineChart {
  import opened Wrappers
  import opened Numbers
  import opened Geometry
  import opened ChartData

  // ---------------------------------------------------------------------
  // Axis ranges
  // ---------------------------------------------------------------------

  /** The x range: the smallest and the largest x over all points, or (0, 0)
      when there are no points. */
  function XRange(allPoints: seq<DataPoint>): (r: (real, real))
    ensures allPoints == [] ==> r == (0.0, 0.0)
    ensures allPoints != [] ==>
      && r.0 <= r.1
      && (forall i :: 0 <= i < |allPoints| ==> r.0 <= allPoints[i].x <= r.1)
      && (exists i :: 0 <= i < |allPoints| && allPoints[i].x == r.0)
      && (exists i :: 0 <= i < |allPoints| && allPoints[i].x == r.1)
  {
    if allPoints == [] then (0.0, 0.0)
    else
      var xs := Xs(allPoints);
      (Min(xs), Max(xs))
  }

  /** The y range: the override unchanged when given; otherwise the bottom is
      0 for a filled chart and the smallest y otherwise, and the top is the
      largest y plus 10% of its distance to the bottom. */
  function YRange(allPoints: seq<DataPoint>, yAxisRange: Option<(real, real)>, fillArea: bool): (real, real)
  {
    match yAxisRange
    case Some(range) => range
    case None =>
      var yMin := if fillArea then 0.0 else MinY(allPoints);
      var top := MaxY(allPoints);
      (yMin, top + (top - yMin) * 0.1)
  }

  /** Without an override every point lies between the bottom and the top of
      the y range, and the top is 10% of the data's height above the largest y. */
  lemma {:induction false} YRangeCoversPoints(allPoints: seq<DataPoint>, fillArea: bool)
    requires allPoints != []
    requires fillArea ==> forall i :: 0 <= i < |allPoints| ==> allPoints[i].y >= 0.0
    ensures var r := YRange(allPoints, None, fillArea);
      && r.0 <= MaxY(allPoints) <= r.1
      && r.1 - MaxY(allPoints) == (MaxY(allPoints) - r.0) * 0.1
      && forall i :: 0 <= i < |allPoints| ==> r.0 <= allPoints[i].y <= r.1
  {
    var ys := Ys(allPoints);
    assert ys[0] == allPoints[0].y;
    var yMin := if fillArea then 0.0 else MinY(allPoints);
    assert yMin <= MaxY(allPoints);
    HeadroomAbove(MaxY(allPoints), yMin);
  }

  /** Adding 10% of a non-negative gap keeps the top at or above itself. */
  lemma {:induction false} HeadroomAbove(top: real, bottom: real)
    requires bottom <= top
    ensures top <= top + (top - bottom) * 0.1
  {
  }

  /** With an override both bounds come from it unchanged. */
  lemma {:induction false} YRangeOverride(allPoints: seq<DataPoint>, lo: real, hi: real, fillArea: bool)
    ensures YRange(allPoints, Some((lo, hi)), fillArea) == (lo, hi)
  {
  }

  // ---------------------------------------------------------------------
  // Data to pixels
  // ---------------------------------------------------------------------

  /** The canvas position of a point: `(x - xMin) / (xMax - xMin) * width`
      across and `height - (y - yMin) / (yMax - yMin) * height * progress`
      down. Neither difference is checked by the code, hence the precondition. */
  function ToPixel(p: DataPoint, xMin: real, xMax: real, yMin: real, yMax: real,
                   width: real, height: real, progress: real): Offset
    requires xMax != xMin && yMax != yMin
  {
    Offset((p.x - xMin) / (xMax - xMin) * width,
           height - (p.y - yMin) / (yMax - yMin) * height * progress)
  }

  /** At progress 0 every vertex is on the baseline. */
  lemma {:induction false} ProgressZeroOnBaseline(p: DataPoint, xMin: real, xMax: real, yMin: real, yMax: real,
                               width: real, height: real)
    requires xMax != xMin && yMax != yMin
    ensures ToPixel(p, xMin, xMax, yMin, yMax, width, height, 0.0).y == height
  {
  }

  /** A point inside the ranges maps inside the canvas: across between 0 and
      the width, and down between `height * (1 - progress)` and the baseline. */
  lemma {:induction false} PixelInsideCanvas(p: DataPoint, xMin: real, xMax: real, yMin: real, yMax: real,
                          width: real, height: real, progress: real)
    requires xMin < xMax && yMin < yMax && width >= 0.0 && height >= 0.0 && 0.0 <= progress <= 1.0
    requires xMin <= p.x <= xMax && yMin <= p.y <= yMax
    ensures var o := ToPixel(p, xMin, xMax, yMin, yMax, width, height, progress);
      && 0.0 <= o.x <= width
      && height - height * progress <= o.y <= height
  {
    var fx := (p.x - xMin) / (xMax - xMin);
    var fy := (p.y - yMin) / (yMax - yMin);
    DivBounds(p.x - xMin, xMax - xMin, 0.0, 1.0);
    DivBounds(p.y - yMin, yMax - yMin, 0.0, 1.0);
    ScaledFraction(fx, width);
    var a := height * progress;
    ScaledFraction(progress, height);
    assert 0.0 <= a <= height;
    ScaledFraction(fy, a);
    assert fy * height * progress == fy * a;
    var o := ToPixel(p, xMin, xMax, yMin, yMax, width, height, progress);
    assert o.y == height - fy * a;
  }

  /** The chart coordinates of a tap: `xMin + tapX / width * (xMax - xMin)` and
      `yMax - tapY / height * (yMax - yMin)`. The tap handler computes them
      and then does not use them. */
  function TapToChart(tap: Offset, xMin: real, xMax: real, yMin: real, yMax: real,
                      width: real, height: real): DataPoint
    requires width != 0.0 && height != 0.0
  {
    DataPoint(xMin + tap.x / width * (xMax - xMin), yMax - tap.y / height * (yMax - yMin), "")
  }

  /** Mapping the chart coordinates of a tap back to pixels (at full
      progress) gives the tap position again. */
  lemma {:induction false} TapToChartRoundTrip(tap: Offset, xMin: real, xMax: real, yMin: real, yMax: real,
                            width: real, height: real)
    requires width != 0.0 && height != 0.0 && xMax != xMin && yMax != yMin
    ensures ToPixel(TapToChart(tap, xMin, xMax, yMin, yMax, width, height),
                    xMin, xMax, yMin, yMax, width, height, 1.0) == tap
  {
    var p := TapToChart(tap, xMin, xMax, yMin, yMax, width, height);
    ScaleBack(tap.x, width, xMax - xMin);
    assert p.x - xMin == tap.x / width * (xMax - xMin);
    ScaleBack(tap.y, height, yMax - yMin);
    assert p.y - yMin == (yMax - yMin) - tap.y / height * (yMax - yMin);
  }

  /** Scaling a tap offset t by d / w and mapping it back through d and w
      gives t again, both across and measured down from the top. */
  lemma {:induction false} ScaleBack(t: real, w: real, d: real)
    requires w != 0.0 && d != 0.0
    ensures t / w * d / d * w == t
    ensures w - (d - t / w * d) / d * w * 1.0 == t
  {
    var x := t / w;
    QuotientOf(x * d, d, x);
    QuotientOf(d - x * d, d, 1.0 - x);
    assert (1.0 - x) * w == w - t;
  }

  // ---------------------------------------------------------------------
  // Paths
  // ---------------------------------------------------------------------

  /** The command that draws up to point i (i >= 1): a straight `lineTo`, or a
      `cubicTo` whose control points sit a third and two thirds of the way
      across, at the previous and at the current height. */
  function Segment(prev: Offset, curr: Offset, smooth: bool): PathCommand
  {
    if smooth then
      CubicTo(Offset(prev.x + (curr.x - prev.x) / 3.0, prev.y),
              Offset(prev.x + 2.0 * (curr.x - prev.x) / 3.0, curr.y),
              curr)
    else LineTo(curr)
  }

  /** The position of point i of a series. */
  function PixelAt(points: seq<DataPoint>, i: nat, xMin: real, xMax: real, yMin: real, yMax: real,
                   width: real, height: real, progress: real): Offset
    requires i < |points| && xMax != xMin && yMax != yMin
  {
    ToPixel(points[i], xMin, xMax, yMin, yMax, width, height, progress)
  }

  /** The commands for points 1 to k - 1, in order. */
  function Segments(points: seq<DataPoint>, k: nat, smooth: bool, xMin: real, xMax: real, yMin: real, yMax: real,
                    width: real, height: real, progress: real): (r: seq<PathCommand>)
    requires 1 <= k <= |points| && xMax != xMin && yMax != yMin
    ensures |r| == k - 1
    ensures forall i :: 1 <= i < k ==>
      r[i - 1] == Segment(PixelAt(points, i - 1, xMin, xMax, yMin, yMax, width, height, progress),
                          PixelAt(points, i, xMin, xMax, yMin, yMax, width, height, progress), smooth)
  {
    if k == 1 then []
    else
      Segments(points, k - 1, smooth, xMin, xMax, yMin, yMax, width, height, progress)
        + [Segment(PixelAt(points, k - 2, xMin, xMax, yMin, yMax, width, height, progress),
                   PixelAt(points, k - 1, xMin, xMax, yMin, yMax, width, height, progress), smooth)]
  }

  /** The paths of one series. */
  datatype SeriesPaths = SeriesPaths(line: seq<PathCommand>, fill: seq<PathCommand>)

  /** The paths of one series with at least two points, as the drawing pass
      builds them: the line is a `moveTo` to point 0 followed by one command
      per later point. The fill starts at point 0's foot on the baseline, rises
      to point 0, repeats the line's commands and, when the area is filled,
      drops to the last point's foot and closes. */
  method BuildPaths(points: seq<DataPoint>, smooth: bool, fillArea: bool,
                    xMin: real, xMax: real, yMin: real, yMax: real,
                    width: real, height: real, progress: real)
    returns (r: SeriesPaths)
    requires |points| >= 2 && xMax != xMin && yMax != yMin
    ensures var first := PixelAt(points, 0, xMin, xMax, yMin, yMax, width, height, progress);
      var last := PixelAt(points, |points| - 1, xMin, xMax, yMin, yMax, width, height, progress);
      var segments := Segments(points, |points|, smooth, xMin, xMax, yMin, yMax, width, height, progress);
      && r.line == [MoveTo(first)] + segments
      && r.fill == [MoveTo(Offset(first.x, height)), LineTo(first)] + segments
                   + (if fillArea then [LineTo(Offset(last.x, height)), Close] else [])
  {
    var first := ToPixel(points[0], xMin, xMax, yMin, yMax, width, height, progress);
    var path := [MoveTo(first)];
    var fillPath := [MoveTo(Offset(first.x, height)), LineTo(first)];
    ghost var segments: seq<PathCommand> := [];
    for i := 1 to |points|
      invariant segments == Segments(points, i, smooth, xMin, xMax, yMin, yMax, width, height, progress)
      invariant path == [MoveTo(first)] + segments
      invariant fillPath == [MoveTo(Offset(first.x, height)), LineTo(first)] + segments
    {
      var prev := ToPixel(points[i - 1], xMin, xMax, yMin, yMax, width, height, progress);
      var curr := ToPixel(points[i], xMin, xMax, yMin, yMax, width, height, progress);
      var command := Segment(prev, curr, smooth);
      path := path + [command];
      fillPath := fillPath + [command];
      segments := segments + [command];
    }
    if fillArea {
      var lastX := ToPixel(points[|points| - 1], xMin, xMax, yMin, yMax, width, height, progress).x;
      fillPath := fillPath + [LineTo(Offset(lastX, height)), Close];
    }
    r := SeriesPaths(path, fillPath);
  }

  /** Every command of the line ends on the mapped point it draws to: command i
      ends at point i, so the line has one command per point, in order. */
  lemma {:induction false} LineVisitsEveryPoint(points: seq<DataPoint>, smooth: bool, xMin: real, xMax: real, yMin: real, yMax: real,
                             width: real, height: real, progress: real, i: nat)
    requires 1 <= i < |points| && xMax != xMin && yMax != yMin
    ensures var segments := Segments(points, |points|, smooth, xMin, xMax, yMin, yMax, width, height, progress);
      var line := [MoveTo(PixelAt(points, 0, xMin, xMax, yMin, yMax, width, height, progress))] + segments;
      && |line| == |points|
      && !line[i].Close?
      && line[i].to == PixelAt(points, i, xMin, xMax, yMin, yMax, width, height, progress)
      && (smooth <==> line[i].CubicTo?)
  {
    var segments := Segments(points, |points|, smooth, xMin, xMax, yMin, yMax, width, height, progress);
    var line := [MoveTo(PixelAt(points, 0, xMin, xMax, yMin, yMax, width, height, progress))] + segments;
    var prev := PixelAt(points, i - 1, xMin, xMax, yMin, yMax, width, height, progress);
    var curr := PixelAt(points, i, xMin, xMax, yMin, yMax, width, height, progress);
    assert segments[i - 1] == Segment(prev, curr, smooth);
    assert line[i] == segments[i - 1];
  }

  /** The two control points of a cubic segment split its horizontal extent
      into three equal parts; the first keeps the previous height and the
      second takes the current one. */
  lemma {:induction false} ControlPointsTrisect(prev: Offset, curr: Offset)
    ensures var c := Segment(prev, curr, true);
      && c.CubicTo?
      && c.control1.x - prev.x == (curr.x - prev.x) / 3.0
      && c.control2.x - c.control1.x == (curr.x - prev.x) / 3.0
      && curr.x - c.control2.x == (curr.x - prev.x) / 3.0
      && c.control1.y == prev.y && c.control2.y == curr.y && c.to == curr
  {
  }

  /** The drawing pass over all series: a series with fewer than two points
      gets no paths. */
  method BuildAllPaths(dataSeries: seq<DataSeries>, smooth: bool, fillArea: bool,
                       xMin: real, xMax: real, yMin: real, yMax: real,
                       width: real, height: real, progress: real)
    returns (r: seq<Option<SeriesPaths>>)
    requires xMax != xMin && yMax != yMin
    ensures |r| == |dataSeries|
    ensures forall k :: 0 <= k < |dataSeries| ==> (r[k].None? <==> |dataSeries[k].points| < 2)
    ensures forall k :: 0 <= k < |dataSeries| && r[k].Some? ==>
      |r[k].value.line| == |dataSeries[k].points| && r[k].value.line[0].MoveTo?
  {
    r := [];
    for k := 0 to |dataSeries|
      invariant |r| == k
      invariant forall j :: 0 <= j < k ==> (r[j].None? <==> |dataSeries[j].points| < 2)
      invariant forall j :: 0 <= j < k && r[j].Some? ==>
        |r[j].value.line| == |dataSeries[j].points| && r[j].value.line[0].MoveTo?
    {
      var points := dataSeries[k].points;
      if |points| < 2 {
        r := r + [None];
      } else {
        var paths := BuildPaths(points, smooth, fillArea, xMin, xMax, yMin, yMax, width, height, progress);
        r := r + [Some(paths)];
      }
    }
  }

  // ---------------------------------------------------------------------
  // Nearest point
  // ---------------------------------------------------------------------

  /** `x` multiplied by itself n times. */
  function Power(x: real, n: nat): real
  {
    if n == 0 then 1.0 else Power(x, n - 1) * x
  }

  /** `Float.pow(n)`: a loop multiplying an accumulator, starting at 1, n times by x. */
  method Pow(x: real, n: nat) returns (r: real)
    ensures r == Power(x, n)
  {
    r := 1.0;
    for i := 0 to n
      invariant r == Power(x, i)
    {
      r := r * x;
    }
  }

  /** Squaring with `pow(2)` is `x * x`. */
  lemma {:induction false} PowerTwo(x: real)
    ensures Power(x, 2) == x * x
  {
    assert Power(x, 1) == x;
  }

  /** `Float.MAX_VALUE`, the initial minimum distance. */
  const FloatMax: real := 340282346638528859811704183484516925440.0

  /** The distance from the tap to point p of series s, measured on the fully
      drawn chart (progress 1); `sqrt` is the library function. */
  function DistanceTo(dataSeries: seq<DataSeries>, s: nat, p: nat, tap: Offset,
                      xMin: real, xMax: real, yMin: real, yMax: real, width: real, height: real,
                      sqrt: real -> real): real
    requires s < |dataSeries| && p < |dataSeries[s].points| && xMax != xMin && yMax != yMin
  {
    var o := ToPixel(dataSeries[s].points[p], xMin, xMax, yMin, yMax, width, height, 1.0);
    sqrt(Power(tap.x - o.x, 2) + Power(tap.y - o.y, 2))
  }

  /** Position (s, p) comes before (s', p') in the series-major search order. */
  predicate Before(s: nat, p: nat, s2: nat, p2: nat)
  {
    s < s2 || (s == s2 && p < p2)
  }

  /** The nearest-point search over all series and their points: the result
      is the first point, in series-major order, at the smallest distance
      below 30 pixels, together with its series; none when no point is within
      30 pixels. */
  method NearestPoint(dataSeries: seq<DataSeries>, tap: Offset,
                      xMin: real, xMax: real, yMin: real, yMax: real, width: real, height: real,
                      sqrt: real -> real)
    returns (closest: Option<(DataPoint, DataSeries)>)
    requires xMax != xMin && yMax != yMin
    ensures closest.None? <==>
      forall s, p :: 0 <= s < |dataSeries| && 0 <= p < |dataSeries[s].points| ==>
        DistanceTo(dataSeries, s, p, tap, xMin, xMax, yMin, yMax, width, height, sqrt) >= 30.0
    ensures closest.Some? ==> exists s, p ::
      && 0 <= s < |dataSeries| && 0 <= p < |dataSeries[s].points|
      && closest.value == (dataSeries[s].points[p], dataSeries[s])
      && var d := DistanceTo(dataSeries, s, p, tap, xMin, xMax, yMin, yMax, width, height, sqrt);
      && d < 30.0
      && (forall s2, p2 :: 0 <= s2 < |dataSeries| && 0 <= p2 < |dataSeries[s2].points| ==>
            d <= DistanceTo(dataSeries, s2, p2, tap, xMin, xMax, yMin, yMax, width, height, sqrt))
      && (forall s2, p2 :: 0 <= s2 < |dataSeries| && 0 <= p2 < |dataSeries[s2].points| && Before(s2, p2, s, p) ==>
            d < DistanceTo(dataSeries, s2, p2, tap, xMin, xMax, yMin, yMax, width, height, sqrt))
  {
    closest := None;
    var minDistance := FloatMax;
    ghost var bestS, bestP := 0, 0;
    for s := 0 to |dataSeries|
      invariant Searched(dataSeries, closest, minDistance, bestS, bestP, s, 0,
                         tap, xMin, xMax, yMin, yMax, width, height, sqrt)
    {
      closest, minDistance, bestS, bestP :=
        SearchSeries(dataSeries, s, tap, xMin, xMax, yMin, yMax, width, height, sqrt,
                     closest, minDistance, bestS, bestP);
      NextSeries(dataSeries, closest, minDistance, bestS, bestP, s, tap, xMin, xMax, yMin, yMax, width, height, sqrt);
    }
  }

  /** The inner loop of the search, over the points of series s. */
  method SearchSeries(dataSeries: seq<DataSeries>, s: nat, tap: Offset,
                      xMin: real, xMax: real, yMin: real, yMax: real, width: real, height: real,
                      sqrt: real -> real, closest0: Option<(DataPoint, DataSeries)>, minDistance0: real,
                      ghost bestS0: nat, ghost bestP0: nat)
    returns (closest: Option<(DataPoint, DataSeries)>, minDistance: real, ghost bestS: nat, ghost bestP: nat)
    requires s < |dataSeries| && xMax != xMin && yMax != yMin
    requires Searched(dataSeries, closest0, minDistance0, bestS0, bestP0, s, 0,
                      tap, xMin, xMax, yMin, yMax, width, height, sqrt)
    ensures Searched(dataSeries, closest, minDistance, bestS, bestP, s, |dataSeries[s].points|,
                     tap, xMin, xMax, yMin, yMax, width, height, sqrt)
    ensures minDistance <= minDistance0
    ensures || (closest == closest0 && minDistance == minDistance0)
            || exists p :: 0 <= p < |dataSeries[s].points|
                 && closest == Some((dataSeries[s].points[p], dataSeries[s])) && minDistance < 30.0
                 && minDistance == DistanceTo(dataSeries, s, p, tap, xMin, xMax, yMin, yMax, width, height, sqrt)
  {
    closest, minDistance, bestS, bestP := closest0, minDistance0, bestS0, bestP0;
    var points := dataSeries[s].points;
    for p := 0 to |points|
      invariant Searched(dataSeries, closest, minDistance, bestS, bestP, s, p,
                         tap, xMin, xMax, yMin, yMax, width, height, sqrt)
      invariant minDistance <= minDistance0
      invariant || (closest == closest0 && minDistance == minDistance0)
                || exists p0 :: 0 <= p0 < p
                     && closest == Some((points[p0], dataSeries[s])) && minDistance < 30.0
                     && minDistance == DistanceTo(dataSeries, s, p0, tap, xMin, xMax, yMin, yMax, width, height, sqrt)
    {
      var distance := TapDistance(dataSeries, s, p, tap, xMin, xMax, yMin, yMax, width, height, sqrt);
      if distance < minDistance && distance < 30.0 {
        SearchTake(dataSeries, closest, minDistance, bestS, bestP, s, p, tap, xMin, xMax, yMin, yMax, width, height, sqrt);
        minDistance := distance;
        closest := Some((points[p], dataSeries[s]));
        bestS, bestP := s, p;
      } else {
        SearchKeep(dataSeries, closest, minDistance, bestS, bestP, s, p, tap, xMin, xMax, yMin, yMax, width, height, sqrt);
      }
    }
  }

  /** The distance from the tap to point p of series s, in pixels:
      `sqrt((tap.x - x)^2 + (tap.y - y)^2)` at full progress. */
  method TapDistance(dataSeries: seq<DataSeries>, s: nat, p: nat, tap: Offset,
                     xMin: real, xMax: real, yMin: real, yMax: real, width: real, height: real,
                     sqrt: real -> real)
    returns (distance: real)
    requires s < |dataSeries| && p < |dataSeries[s].points| && xMax != xMin && yMax != yMin
    ensures distance == DistanceTo(dataSeries, s, p, tap, xMin, xMax, yMin, yMax, width, height, sqrt)
  {
    var o := ToPixel(dataSeries[s].points[p], xMin, xMax, yMin, yMax, width, height, 1.0);
    var dx2 := Pow(tap.x - o.x, 2);
    var dy2 := Pow(tap.y - o.y, 2);
    distance := sqrt(dx2 + dy2);
  }

  /** The positions before (s, p + 1) are those before (s, p) and (s, p) itself. */
  lemma {:induction false} BeforeNext(s: nat, p: nat)
    ensures forall s0: nat, p0: nat :: Before(s0, p0, s, p + 1) <==> Before(s0, p0, s, p) || (s0 == s && p0 == p)
  {
    forall s0: nat, p0: nat
      ensures Before(s0, p0, s, p + 1) <==> Before(s0, p0, s, p) || (s0 == s && p0 == p)
    {
    }
  }

  /** A point strictly nearer than the best so far and below 30 pixels
      becomes the new best. */
  lemma {:induction false} SearchTake(dataSeries: seq<DataSeries>, closest: Option<(DataPoint, DataSeries)>,
                   minDistance: real, bs: nat, bp: nat, s: nat, p: nat, tap: Offset,
                   xMin: real, xMax: real, yMin: real, yMax: real, width: real, height: real,
                   sqrt: real -> real)
    requires s < |dataSeries| && p < |dataSeries[s].points| && xMax != xMin && yMax != yMin
    requires Searched(dataSeries, closest, minDistance, bs, bp, s, p, tap, xMin, xMax, yMin, yMax, width, height, sqrt)
    requires var d := DistanceTo(dataSeries, s, p, tap, xMin, xMax, yMin, yMax, width, height, sqrt);
      d < minDistance && d < 30.0
    ensures Searched(dataSeries, Some((dataSeries[s].points[p], dataSeries[s])),
                     DistanceTo(dataSeries, s, p, tap, xMin, xMax, yMin, yMax, width, height, sqrt), s, p, s, p + 1,
                     tap, xMin, xMax, yMin, yMax, width, height, sqrt)
  {
    BeforeNext(s, p);
  }

  /** Any other point leaves the best so far as it is. */
  lemma {:induction false} SearchKeep(dataSeries: seq<DataSeries>, closest: Option<(DataPoint, DataSeries)>,
                   minDistance: real, bs: nat, bp: nat, s: nat, p: nat, tap: Offset,
                   xMin: real, xMax: real, yMin: real, yMax: real, width: real, height: real,
                   sqrt: real -> real)
    requires s < |dataSeries| && p < |dataSeries[s].points| && xMax != xMin && yMax != yMin
    requires Searched(dataSeries, closest, minDistance, bs, bp, s, p, tap, xMin, xMax, yMin, yMax, width, height, sqrt)
    requires var d := DistanceTo(dataSeries, s, p, tap, xMin, xMax, yMin, yMax, width, height, sqrt);
      !(d < minDistance && d < 30.0)
    ensures Searched(dataSeries, closest, minDistance, bs, bp, s, p + 1, tap, xMin, xMax, yMin, yMax, width, height, sqrt)
  {
    BeforeNext(s, p);
  }

  /** The state of the search before position (s, p): with nothing found,
      every examined point is 30 pixels away or more; otherwise the best so
      far is as `Found` describes. */
  ghost predicate Searched(dataSeries: seq<DataSeries>, closest: Option<(DataPoint, DataSeries)>,
                           minDistance: real, bs: nat, bp: nat, s: nat, p: nat, tap: Offset,
                           xMin: real, xMax: real, yMin: real, yMax: real, width: real, height: real,
                           sqrt: real -> real)
    requires xMax != xMin && yMax != yMin
  {
    && (closest.None? ==> minDistance == FloatMax)
    && (closest.None? ==> forall s0, p0 ::
          (0 <= s0 < |dataSeries| && 0 <= p0 < |dataSeries[s0].points| && Before(s0, p0, s, p)) ==>
            DistanceTo(dataSeries, s0, p0, tap, xMin, xMax, yMin, yMax, width, height, sqrt) >= 30.0)
    && (closest.Some? ==> Found(dataSeries, closest.value, bs, bp, minDistance, s, p,
                                tap, xMin, xMax, yMin, yMax, width, height, sqrt))
  }

  /** Having examined every point of series s is having examined everything
      before the first point of series s + 1. */
  lemma {:induction false} NextSeries(dataSeries: seq<DataSeries>, closest: Option<(DataPoint, DataSeries)>,
                   minDistance: real, bs: nat, bp: nat, s: nat, tap: Offset,
                   xMin: real, xMax: real, yMin: real, yMax: real, width: real, height: real,
                   sqrt: real -> real)
    requires s < |dataSeries| && xMax != xMin && yMax != yMin
    requires Searched(dataSeries, closest, minDistance, bs, bp, s, |dataSeries[s].points|,
                      tap, xMin, xMax, yMin, yMax, width, height, sqrt)
    ensures Searched(dataSeries, closest, minDistance, bs, bp, s + 1, 0,
                     tap, xMin, xMax, yMin, yMax, width, height, sqrt)
  {
    assert forall s0, p0 :: 0 <= s0 < |dataSeries| && 0 <= p0 < |dataSeries[s0].points| ==>
      (Before(s0, p0, s + 1, 0) <==> Before(s0, p0, s, |dataSeries[s].points|));
  }

  /** The search state after every position before (s, p) was examined: the
      current best (bs, bp) is below 30 pixels, at most as far as every
      examined point and strictly nearer than every examined point before it. */
  ghost predicate Found(dataSeries: seq<DataSeries>, best: (DataPoint, DataSeries), bs: nat, bp: nat,
                        minDistance: real, s: nat, p: nat, tap: Offset,
                        xMin: real, xMax: real, yMin: real, yMax: real, width: real, height: real,
                        sqrt: real -> real)
    requires xMax != xMin && yMax != yMin
  {
    && bs < |dataSeries| && bp < |dataSeries[bs].points| && Before(bs, bp, s, p)
    && best == (dataSeries[bs].points[bp], dataSeries[bs])
    && minDistance == DistanceTo(dataSeries, bs, bp, tap, xMin, xMax, yMin, yMax, width, height, sqrt)
    && minDistance < 30.0
    && (forall s0, p0 :: 0 <= s0 < |dataSeries| && 0 <= p0 < |dataSeries[s0].points| && Before(s0, p0, s, p) ==>
          minDistance <= DistanceTo(dataSeries, s0, p0, tap, xMin, xMax, yMin, yMax, width, height, sqrt))
    && (forall s0, p0 :: 0 <= s0 < |dataSeries| && 0 <= p0 < |dataSeries[s0].points| && Before(s0, p0, bs, bp) ==>
          minDistance < DistanceTo(dataSeries, s0, p0, tap, xMin, xMax, yMin, yMax, width, height, sqrt))
  }

  /** The selection state of the chart: the selected point with its series,
      and where the tooltip is shown. */
  datatype Selection = Selection(point: Option<(DataPoint, DataSeries)>, tooltip: Option<Offset>)

  /** A tap: nothing happens when tooltips are off; otherwise the nearest
      point within 30 pixels becomes the selection with the tooltip at the
      tap, and a tap far from every point clears both. */
  method HandleTap(state: Selection, showTooltip: bool, dataSeries: seq<DataSeries>, tap: Offset,
                   xMin: real, xMax: real, yMin: real, yMax: real, width: real, height: real,
                   sqrt: real -> real)
    returns (r: Selection)
    requires xMax != xMin && yMax != yMin
    ensures !showTooltip ==> r == state
    ensures showTooltip ==> (r.point.Some? <==> r.tooltip == Some(tap))
    ensures showTooltip ==> (r.point.None? <==> r.tooltip.None?)
    ensures showTooltip && r.point.None? ==>
      forall s, p :: 0 <= s < |dataSeries| && 0 <= p < |dataSeries[s].points| ==>
        DistanceTo(dataSeries, s, p, tap, xMin, xMax, yMin, yMax, width, height, sqrt) >= 30.0
    ensures showTooltip && r.point.Some? ==> exists s, p ::
      && 0 <= s < |dataSeries| && 0 <= p < |dataSeries[s].points|
      && r.point.value == (dataSeries[s].points[p], dataSeries[s])
      && DistanceTo(dataSeries, s, p, tap, xMin, xMax, yMin, yMax, width, height, sqrt) < 30.0
  {
    if !showTooltip {
      return state;
    }
    var closest := NearestPoint(dataSeries, tap, xMin, xMax, yMin, yMax, width, height, sqrt);
    if closest.Some? {
      r := Selection(closest, Some(tap));
    } else {
      r := Selection(None, None);
    }
  }
}
