/** `RadarChart`: the scale maximum, the category axes, the value looked up
    for each category, the polygon of each series and the concentric rings. */
module RadarChart {
  import opened Wrappers
  import opened Numbers
  import opened Geometry
  import opened ChartData

  /** The scale maximum: the `maxValue` argument when given, otherwise the
      largest y over all points of all series, or 0 when there are none. */
  function CalculatedMaxValue(dataSeries: seq<DataSeries>, maxValue: Option<real>): (m: real)
    ensures maxValue.Some? ==> m == maxValue.value
    ensures maxValue.None? && AllPoints(dataSeries) == [] ==> m == 0.0
    ensures maxValue.None? ==>
      forall k, p :: 0 <= k < |dataSeries| && p in dataSeries[k].points ==> p.y <= m
    ensures maxValue.None? && AllPoints(dataSeries) != [] ==>
      exists k, p :: 0 <= k < |dataSeries| && p in dataSeries[k].points && p.y == m
  {
    match maxValue
    case Some(v) => v
    case None =>
      var all := AllPoints(dataSeries);
      var m := MaxY(all);
      assert forall k, p :: 0 <= k < |dataSeries| && p in dataSeries[k].points ==> p.y <= m by {
        forall k, p | 0 <= k < |dataSeries| && p in dataSeries[k].points
          ensures p.y <= m
        {
          assert p in all;
          var i :| 0 <= i < |all| && all[i] == p;
        }
      }
      assert all != [] ==> exists k, p :: 0 <= k < |dataSeries| && p in dataSeries[k].points && p.y == m by {
        if all != [] {
          var i :| 0 <= i < |all| && all[i].y == m;
          assert all[i] in all;
        }
      }
      m
  }

  /** The angle, in radians, of category i of n: `2 * PI * i / n - PI / 2`. */
  function CategoryAngle(i: nat, n: nat): real
    requires n > 0
  {
    2.0 * PI * i as real / n as real - PI / 2.0
  }

  /** The first category points straight up, the axes are evenly spaced a
      full turn divided by n apart, and together they cover less than one turn. */
  lemma {:induction false} CategoryAnglesEvenlySpaced(i: nat, n: nat)
    requires n > 0 && i < n
    ensures CategoryAngle(0, n) == -PI / 2.0
    ensures CategoryAngle(i + 1, n) - CategoryAngle(i, n) == 2.0 * PI / n as real
    ensures -PI / 2.0 <= CategoryAngle(i, n) < 3.0 * PI / 2.0
  {
    var m := n as real;
    var t := 2.0 * PI;
    assert (i + 1) as real == i as real + 1.0;
    AngleAlgebra(t, i as real, m);
  }

  /** `t * (i + 1) / m` is `t / m` past `t * i / m`, and `t * i / m` lies in
      [0, t) for `0 <= i < m` and positive t. */
  lemma {:induction false} AngleAlgebra(t: real, i: real, m: real)
    requires t > 0.0 && 0.0 <= i < m
    ensures t * (i + 1.0) / m - t * i / m == t / m
    ensures 0.0 <= t * i / m < t
  {
    assert t * (i + 1.0) == t * i + t;
    assert t * i < t * m;
    QuotientOf(t * m, m, t);
  }

  /** A category's value: the y of the first point labelled with it, or 0. */
  function CategoryValue(points: seq<DataPoint>, category: string): (v: real)
    ensures (forall i :: 0 <= i < |points| ==> points[i].tag != category) ==> v == 0.0
    ensures (exists i :: 0 <= i < |points| && points[i].tag == category) ==>
      exists k :: 0 <= k < |points| && points[k].tag == category && v == points[k].y
        && forall j :: 0 <= j < k ==> points[j].tag != category
  {
    match FindByLabel(points, category)
    case Some(p) => p.y
    case None => 0.0
  }

  /** The outer radius: 80% of half the smaller side. */
  function Radius(width: real, height: real): (r: real)
    ensures width >= 0.0 && height >= 0.0 ==> 0.0 <= r <= width / 2.0 && r <= height / 2.0
  {
    (if width < height then width else height) / 2.0 * 0.8
  }

  /** The centre of the canvas. */
  function Center(width: real, height: real): Offset
  {
    Offset(width / 2.0, height / 2.0)
  }

  /** The point at `distance` from the centre along an axis whose direction
      has the given cosine and sine. */
  function AlongAxis(center: Offset, c: real, s: real, distance: real): Offset
  {
    Offset(center.x + c * distance, center.y + s * distance)
  }

  /** The distance of a vertex from the centre: `value / max * radius * progress`.
      The maximum is not checked by the code, hence the precondition. */
  function VertexDistance(value: real, maxValue: real, radius: real, progress: real): real
    requires maxValue != 0.0
  {
    value / maxValue * radius * progress
  }

  /** The vertex of category i of n. */
  function Vertex(points: seq<DataPoint>, categories: seq<string>, i: nat, center: Offset, radius: real,
                  maxValue: real, progress: real, cos: real -> real, sin: real -> real): Offset
    requires i < |categories| && maxValue != 0.0
  {
    var angle := CategoryAngle(i, |categories|);
    AlongAxis(center, cos(angle), sin(angle),
              VertexDistance(CategoryValue(points, categories[i]), maxValue, radius, progress))
  }

  /** The end of the axis line drawn for category i. */
  function AxisEnd(categories: seq<string>, i: nat, center: Offset, radius: real,
                   cos: real -> real, sin: real -> real): Offset
    requires i < |categories|
  {
    var angle := CategoryAngle(i, |categories|);
    AlongAxis(center, cos(angle), sin(angle), radius)
  }

  /** Vertices lie on their category's axis: a missing category sits at the
      centre, and a category at the maximum reaches the axis end once fully
      drawn. */
  lemma {:induction false} VertexOnAxis(points: seq<DataPoint>, categories: seq<string>, i: nat, center: Offset, radius: real,
                     maxValue: real, cos: real -> real, sin: real -> real)
    requires i < |categories| && maxValue != 0.0
    ensures (forall j :: 0 <= j < |points| ==> points[j].tag != categories[i]) ==>
      Vertex(points, categories, i, center, radius, maxValue, 1.0, cos, sin) == center
    ensures CategoryValue(points, categories[i]) == maxValue ==>
      Vertex(points, categories, i, center, radius, maxValue, 1.0, cos, sin)
        == AxisEnd(categories, i, center, radius, cos, sin)
  {
    var d := VertexDistance(CategoryValue(points, categories[i]), maxValue, radius, 1.0);
    if CategoryValue(points, categories[i]) == maxValue {
      assert maxValue / maxValue == 1.0;
      assert d == radius;
    }
  }

  /** At progress 0 every vertex is at the centre. */
  lemma {:induction false} ProgressZeroAtCenter(points: seq<DataPoint>, categories: seq<string>, i: nat, center: Offset, radius: real,
                             maxValue: real, cos: real -> real, sin: real -> real)
    requires i < |categories| && maxValue != 0.0
    ensures Vertex(points, categories, i, center, radius, maxValue, 0.0, cos, sin) == center
  {
  }

  /** The vertices of one series, one per category, in category order. */
  function Vertices(points: seq<DataPoint>, categories: seq<string>, center: Offset, radius: real,
                    maxValue: real, progress: real, cos: real -> real, sin: real -> real): (vs: seq<Offset>)
    requires maxValue != 0.0
    ensures |vs| == |categories|
    ensures forall i :: 0 <= i < |categories| ==>
      vs[i] == Vertex(points, categories, i, center, radius, maxValue, progress, cos, sin)
  {
    seq(|categories|, i requires 0 <= i < |categories| =>
      Vertex(points, categories, i, center, radius, maxValue, progress, cos, sin))
  }

  /** The polygon of one series, built with the `first` flag: a `moveTo` to
      the first category's vertex, a `lineTo` to each later one in category
      order, and a `close`. */
  method Polygon(points: seq<DataPoint>, categories: seq<string>, center: Offset, radius: real,
                 maxValue: real, progress: real, cos: real -> real, sin: real -> real)
    returns (path: seq<PathCommand>)
    requires |categories| > 0 && maxValue != 0.0
    ensures var vs := Vertices(points, categories, center, radius, maxValue, progress, cos, sin);
      && |path| == |categories| + 1
      && path[0] == MoveTo(vs[0])
      && (forall i :: 0 < i < |categories| ==> path[i] == LineTo(vs[i]))
      && path[|categories|] == Close
  {
    ghost var vs := Vertices(points, categories, center, radius, maxValue, progress, cos, sin);
    path := [];
    var first := true;
    for i := 0 to |categories|
      invariant |path| == i
      invariant first <==> i == 0
      invariant i > 0 ==> path[0] == MoveTo(vs[0])
      invariant forall j :: 0 < j < i ==> path[j] == LineTo(vs[j])
    {
      var value := CategoryValue(points, categories[i]);
      var angle := CategoryAngle(i, |categories|);
      var c := cos(angle);
      var s := sin(angle);
      var distance := VertexDistance(value, maxValue, radius, progress);
      var vertex := AlongAxis(center, c, s, distance);
      assert vs[i] == Vertex(points, categories, i, center, radius, maxValue, progress, cos, sin) == vertex;
      if first {
        path := path + [MoveTo(vertex)];
        first := false;
      } else {
        path := path + [LineTo(vertex)];
      }
    }
    path := path + [Close];
  }

  /** The polygon of every series, in series order. */
  method Polygons(dataSeries: seq<DataSeries>, categories: seq<string>, center: Offset, radius: real,
                  maxValue: real, progress: real, cos: real -> real, sin: real -> real)
    returns (paths: seq<seq<PathCommand>>)
    requires |categories| > 0 && maxValue != 0.0
    ensures |paths| == |dataSeries|
    ensures forall k :: 0 <= k < |dataSeries| ==>
      var vs := Vertices(dataSeries[k].points, categories, center, radius, maxValue, progress, cos, sin);
      && |paths[k]| == |categories| + 1
      && paths[k][0] == MoveTo(vs[0])
      && (forall i :: 0 < i < |categories| ==> paths[k][i] == LineTo(vs[i]))
      && paths[k][|categories|] == Close
  {
    paths := [];
    for k := 0 to |dataSeries|
      invariant |paths| == k
      invariant forall j :: 0 <= j < k ==>
        var vs := Vertices(dataSeries[j].points, categories, center, radius, maxValue, progress, cos, sin);
        && |paths[j]| == |categories| + 1
        && paths[j][0] == MoveTo(vs[0])
        && (forall i :: 0 < i < |categories| ==> paths[j][i] == LineTo(vs[i]))
        && paths[j][|categories|] == Close
    {
      var path := Polygon(dataSeries[k].points, categories, center, radius, maxValue, progress, cos, sin);
      paths := paths + [path];
    }
  }

  /** A concentric ring: its radius and the value printed on it. */
  datatype Ring = Ring(radius: real, value: real)

  /** Ring i of 5: `radius * i / 5`, labelled `max * i / 5`. */
  function RingAt(i: nat, radius: real, maxValue: real): Ring
  {
    Ring(radius * i as real / 5.0, maxValue * i as real / 5.0)
  }

  /** The five concentric rings, for i from 1 to 5. */
  method Rings(radius: real, maxValue: real) returns (rings: seq<Ring>)
    ensures |rings| == 5
    ensures forall i :: 0 <= i < 5 ==> rings[i] == RingAt(i + 1, radius, maxValue)
  {
    rings := [];
    for i := 1 to 6
      invariant |rings| == i - 1
      invariant forall j :: 0 <= j < i - 1 ==> rings[j] == RingAt(j + 1, radius, maxValue)
    {
      rings := rings + [Ring(radius * i as real / 5.0, maxValue * i as real / 5.0)];
    }
  }

  /** The rings grow outwards in equal steps, the outermost has the full
      radius and carries the maximum, and each ring's label is the value a
      vertex on that ring stands for. */
  lemma {:induction false} RingsScale(i: nat, radius: real, maxValue: real)
    requires 1 <= i < 5 && radius > 0.0
    ensures RingAt(i, radius, maxValue).radius < RingAt(i + 1, radius, maxValue).radius
    ensures RingAt(i + 1, radius, maxValue).radius - RingAt(i, radius, maxValue).radius == radius / 5.0
    ensures RingAt(5, radius, maxValue) == Ring(radius, maxValue)
    ensures maxValue != 0.0 ==>
      VertexDistance(RingAt(i, radius, maxValue).value, maxValue, radius, 1.0) == RingAt(i, radius, maxValue).radius
  {
    if maxValue != 0.0 {
      var f := i as real / 5.0;
      assert maxValue * i as real / 5.0 == maxValue * f;
      QuotientOf(maxValue * f, maxValue, f);
      assert radius * i as real / 5.0 == f * radius;
    }
  }
}
