/** The value types every chart consumes: data points, data series and pie
    segments. They are immutable records compared structurally, like the
    Kotlin data classes they model. */
module ChartData {
  import opened Wrappers
  import opened Numbers

  /** A colour, opaque to the layout code: an RGB value and an alpha channel.
      `Color.copy(alpha = a)` is written `c.(alpha := a)`. */
  datatype Color = Color(rgb: nat, alpha: real)

  /** One point of a series. The Kotlin field `label` is called `tag` here,
      because `label` is a Dafny keyword; like it, the label defaults to "". */
  datatype DataPoint = DataPoint(x: real, y: real, tag: string := "")

  /** A named, coloured, ordered list of points; layout code only reads it. */
  datatype DataSeries = DataSeries(name: string, color: Color, points: seq<DataPoint>)

  /** One slice of a pie chart. */
  datatype PieChartSegment = PieChartSegment(tag: string, value: real, color: Color)

  /** The x coordinates of a list of points, in order. */
  function Xs(points: seq<DataPoint>): (r: seq<real>)
    ensures |r| == |points| && forall i :: 0 <= i < |points| ==> r[i] == points[i].x
  {
    seq(|points|, i requires 0 <= i < |points| => points[i].x)
  }

  /** The y coordinates of a list of points, in order. */
  function Ys(points: seq<DataPoint>): (r: seq<real>)
    ensures |r| == |points| && forall i :: 0 <= i < |points| ==> r[i] == points[i].y
  {
    seq(|points|, i requires 0 <= i < |points| => points[i].y)
  }

  /** The labels of a list of points, in order. */
  function Labels(points: seq<DataPoint>): (r: seq<string>)
    ensures |r| == |points| && forall i :: 0 <= i < |points| ==> r[i] == points[i].tag
  {
    seq(|points|, i requires 0 <= i < |points| => points[i].tag)
  }

  /** `dataSeries.flatMap { it.points }`: all points, series after series. */
  function AllPoints(series: seq<DataSeries>): (r: seq<DataPoint>)
    ensures forall k, p :: 0 <= k < |series| && p in series[k].points ==> p in r
    ensures forall p :: p in r ==> exists k :: 0 <= k < |series| && p in series[k].points
  {
    if series == [] then []
    else
      var init := series[..|series| - 1];
      var r0 := AllPoints(init);
      assert forall k :: 0 <= k < |init| ==> init[k] == series[k];
      r0 + series[|series| - 1].points
  }

  /** Flattening works series by series: the points of two runs of series
      are those of the first run followed by those of the second. */
  lemma {:induction false} AllPointsConcat(s1: seq<DataSeries>, s2: seq<DataSeries>)
    ensures AllPoints(s1 + s2) == AllPoints(s1) + AllPoints(s2)
  {
    if s2 == [] {
      assert s1 + s2 == s1;
    } else {
      var init := s2[..|s2| - 1];
      AllPointsConcat(s1, init);
      assert (s1 + s2)[..|s1 + s2| - 1] == s1 + init;
    }
  }

  /** Series-major order with multiplicity: point j of series k sits in the
      flattened list right after all points of the series before k. */
  lemma {:induction false} AllPointsLayout(series: seq<DataSeries>, k: nat, j: nat)
    requires k < |series| && j < |series[k].points|
    ensures |AllPoints(series[..k])| + j < |AllPoints(series)|
    ensures AllPoints(series)[|AllPoints(series[..k])| + j] == series[k].points[j]
  {
    var rest := series[k + 1..];
    assert series == series[..k] + ([series[k]] + rest);
    AllPointsConcat(series[..k], [series[k]] + rest);
    AllPointsConcat([series[k]], rest);
    assert [series[k]][..0] == [];
    assert AllPoints([series[k]]) == series[k].points;
  }

  /** `minOfOrNull { it.y } ?: 0f`: the smallest y, or 0 when there are no points. */
  function MinY(points: seq<DataPoint>): (m: real)
    ensures points == [] ==> m == 0.0
    ensures points != [] ==>
      && (forall i :: 0 <= i < |points| ==> m <= points[i].y)
      && (exists i :: 0 <= i < |points| && points[i].y == m)
  {
    if points == [] then 0.0 else Min(Ys(points))
  }

  /** `maxOfOrNull { it.y } ?: 0f`: the largest y, or 0 when there are no points. */
  function MaxY(points: seq<DataPoint>): (m: real)
    ensures points == [] ==> m == 0.0
    ensures points != [] ==>
      && (forall i :: 0 <= i < |points| ==> points[i].y <= m)
      && (exists i :: 0 <= i < |points| && points[i].y == m)
  {
    if points == [] then 0.0 else Max(Ys(points))
  }

  /** `points.find { it.label == key }`: the first point labelled `key`. */
  function FindByLabel(points: seq<DataPoint>, key: string): (r: Option<DataPoint>)
    ensures r.None? <==> forall i :: 0 <= i < |points| ==> points[i].tag != key
    ensures r.Some? ==>
      exists k :: 0 <= k < |points| && points[k] == r.value && points[k].tag == key &&
        forall j :: 0 <= j < k ==> points[j].tag != key
  {
    if points == [] then None
    else if points[0].tag == key then Some(points[0])
    else
      var r0 := FindByLabel(points[1..], key);
      assert forall i :: 1 <= i < |points| ==> points[1..][i - 1] == points[i];
      r0
  }
}
