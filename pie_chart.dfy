/** `PieChart`: the total, the arc layout (cumulative start angles and
    sweeps, in degrees), the percentage labels, the tap-to-segment lookup and
    the highlight arc of the selected segment. */
module PieChart {
  import opened Wrappers
  import opened Numbers
  import opened Geometry
  import opened ChartData

  /** An arc: start angle and sweep, in degrees, clockwise from the right. */
  datatype Arc = Arc(start: real, sweep: real)

  /** A percentage label: the segment's index, its percentage, the middle
      angle of its arc and the text position. */
  datatype PercentLabel = PercentLabel(index: nat, percentage: real, middleAngle: real, position: Offset)

  // ---------------------------------------------------------------------
  // Total and sweeps
  // ---------------------------------------------------------------------

  /** The values of the segments, in order. */
  function Values(segments: seq<PieChartSegment>): (r: seq<real>)
    ensures |r| == |segments| && forall i :: 0 <= i < |segments| ==> r[i] == segments[i].value
  {
    seq(|segments|, i requires 0 <= i < |segments| => segments[i].value)
  }

  /** `total`: the sum of the segment values. */
  function Total(segments: seq<PieChartSegment>): real
  {
    Sum(Values(segments))
  }

  /** The sweep of a segment of value v: `v / total * 360 * progress`. */
  function Sweep(v: real, total: real, progress: real): real
    requires total != 0.0
  {
    v / total * 360.0 * progress
  }

  /** The sweeps of all segments, in order. */
  function Sweeps(segments: seq<PieChartSegment>, total: real, progress: real): (r: seq<real>)
    requires total != 0.0
    ensures |r| == |segments|
    ensures forall i :: 0 <= i < |segments| ==> r[i] == Sweep(segments[i].value, total, progress)
  {
    seq(|segments|, i requires 0 <= i < |segments| => Sweep(segments[i].value, total, progress))
  }

  /** The start angle of arc i: the sum of the sweeps before it. */
  function StartAngle(sweeps: seq<real>, i: nat): real
    requires i <= |sweeps|
  {
    Sum(sweeps[..i])
  }

  /** The start angle of arc i + 1 is where arc i ends. */
  lemma {:induction false} StartAngleStep(sweeps: seq<real>, i: nat)
    requires i < |sweeps|
    ensures StartAngle(sweeps, i + 1) == StartAngle(sweeps, i) + sweeps[i]
  {
    assert sweeps[..i + 1][..i] == sweeps[..i];
  }

  /** With progress 1 the sweeps of the segments add up to the full circle:
      the last arc ends at 360 degrees. */
  lemma {:induction false} FullCircle(segments: seq<PieChartSegment>)
    requires Total(segments) != 0.0
    ensures Sum(Sweeps(segments, Total(segments), 1.0)) == 360.0
  {
    var total := Total(segments);
    var sweeps := Sweeps(segments, total, 1.0);
    var k := 360.0 / total;
    forall i | 0 <= i < |segments|
      ensures sweeps[i] == k * Values(segments)[i] + 0.0
    {
      SweepIsScaled(segments[i].value, total);
    }
    SumAffine(sweeps, Values(segments), k, 0.0);
    ScaledTotal(Sum(Values(segments)), total, |segments| as real);
  }

  /** One full sweep is `360 / total` times the value. */
  lemma {:induction false} SweepIsScaled(v: real, total: real)
    requires total != 0.0
    ensures Sweep(v, total, 1.0) == 360.0 / total * v + 0.0
  {
  }

  /** `360 / t * t + n * 0` is 360. */
  lemma {:induction false} ScaledTotal(s: real, t: real, n: real)
    requires t != 0.0 && s == t
    ensures 360.0 / t * s + n * 0.0 == 360.0
  {
  }

  // ---------------------------------------------------------------------
  // Radii and labels
  // ---------------------------------------------------------------------

  /** The hole of a donut: `radius * donutRatio`, or 0 for a full pie. */
  function InnerRadius(radius: real, donut: bool, donutRatio: real): real
  {
    if donut then radius * donutRatio else 0.0
  }

  /** The distance of a percentage label from the centre: half way across the
      ring of a donut, `0.7 * radius` on a pie. */
  function TextRadius(radius: real, donut: bool, innerRadius: real): real
  {
    if donut then (radius + innerRadius) / 2.0 else radius * 0.7
  }

  /** With a ratio in [0, 1] the hole fits in the pie and every label sits on
      the painted ring, between the hole and the rim. */
  lemma {:induction false} LabelsOnRing(radius: real, donut: bool, donutRatio: real)
    requires radius >= 0.0 && 0.0 <= donutRatio <= 1.0
    ensures var inner := InnerRadius(radius, donut, donutRatio);
      0.0 <= inner <= TextRadius(radius, donut, inner) <= radius
  {
    if donut {
      ScaledFraction(donutRatio, radius);
    }
  }

  /** The percentage printed for a segment: `value / total * 100`. */
  function Percentage(v: real, total: real): real
    requires total != 0.0
  {
    v / total * 100.0
  }

  /** The label of segment i when its animated arc is `arc`: at the arc's
      middle angle, `textRadius` away from the centre. `cosDeg` and `sinDeg`
      are `cos(toRadians(a))` and `sin(toRadians(a))`. */
  function LabelAt(i: nat, v: real, total: real, arc: Arc, center: Offset, textRadius: real,
                   cosDeg: real -> real, sinDeg: real -> real): PercentLabel
    requires total != 0.0
  {
    var middle := arc.start + arc.sweep / 2.0;
    PercentLabel(i, Percentage(v, total), middle,
                 Offset(center.x + cosDeg(middle) * textRadius, center.y + sinDeg(middle) * textRadius))
  }

  /** The labels drawn among the first k segments: those whose animated sweep
      exceeds 15 degrees, when percentages are shown. */
  function ShownLabels(segments: seq<PieChartSegment>, total: real, progress: real, k: nat,
                       showPercentages: bool, center: Offset, textRadius: real,
                       cosDeg: real -> real, sinDeg: real -> real): seq<PercentLabel>
    requires total != 0.0 && k <= |segments|
  {
    if k == 0 then []
    else
      var sweeps := Sweeps(segments, total, progress);
      var arc := Arc(StartAngle(sweeps, k - 1), sweeps[k - 1]);
      ShownLabels(segments, total, progress, k - 1, showPercentages, center, textRadius, cosDeg, sinDeg)
        + (if showPercentages && arc.sweep > 15.0
           then [LabelAt(k - 1, segments[k - 1].value, total, arc, center, textRadius, cosDeg, sinDeg)]
           else [])
  }

  /** Every drawn label belongs to one of the first k segments, shown with
      percentages on, whose arc sweeps more than 15 degrees. */
  lemma {:induction false} ShownLabelsSound(segments: seq<PieChartSegment>, total: real, progress: real,
                                            k: nat, showPercentages: bool, center: Offset, textRadius: real,
                                            cosDeg: real -> real, sinDeg: real -> real)
    requires total != 0.0 && k <= |segments|
    ensures forall l :: l in ShownLabels(segments, total, progress, k, showPercentages, center, textRadius, cosDeg, sinDeg) ==>
      l.index < k && showPercentages && Sweeps(segments, total, progress)[l.index] > 15.0
  {
    if k > 0 {
      ShownLabelsSound(segments, total, progress, k - 1, showPercentages, center, textRadius, cosDeg, sinDeg);
    }
  }

  /** Every one of the first k segments whose arc sweeps more than 15 degrees
      gets a label when percentages are shown. */
  lemma {:induction false} ShownLabelsComplete(segments: seq<PieChartSegment>, total: real, progress: real,
                                               k: nat, showPercentages: bool, center: Offset, textRadius: real,
                                               cosDeg: real -> real, sinDeg: real -> real)
    requires total != 0.0 && k <= |segments|
    ensures forall j :: 0 <= j < k && showPercentages && Sweeps(segments, total, progress)[j] > 15.0 ==>
      exists l :: l in ShownLabels(segments, total, progress, k, showPercentages, center, textRadius, cosDeg, sinDeg)
        && l.index == j
  {
    if k > 0 {
      ShownLabelsComplete(segments, total, progress, k - 1, showPercentages, center, textRadius, cosDeg, sinDeg);
      var sweeps := Sweeps(segments, total, progress);
      var arc := Arc(StartAngle(sweeps, k - 1), sweeps[k - 1]);
      var prev := ShownLabels(segments, total, progress, k - 1, showPercentages, center, textRadius, cosDeg, sinDeg);
      var last := LabelAt(k - 1, segments[k - 1].value, total, arc, center, textRadius, cosDeg, sinDeg);
      var cur := ShownLabels(segments, total, progress, k, showPercentages, center, textRadius, cosDeg, sinDeg);
      assert cur == prev + (if showPercentages && arc.sweep > 15.0 then [last] else []);
      forall j | 0 <= j < k && showPercentages && sweeps[j] > 15.0
        ensures exists l :: l in cur && l.index == j
      {
        if j < k - 1 {
          var l :| l in prev && l.index == j;
          assert l in cur;
        } else {
          assert last in cur;
        }
      }
    }
  }

  /** The drawn labels come in segment order. */
  lemma {:induction false} ShownLabelsOrdered(segments: seq<PieChartSegment>, total: real, progress: real,
                                              k: nat, showPercentages: bool, center: Offset, textRadius: real,
                                              cosDeg: real -> real, sinDeg: real -> real)
    requires total != 0.0 && k <= |segments|
    ensures forall a, b ::
      0 <= a < b < |ShownLabels(segments, total, progress, k, showPercentages, center, textRadius, cosDeg, sinDeg)| ==>
        ShownLabels(segments, total, progress, k, showPercentages, center, textRadius, cosDeg, sinDeg)[a].index
        < ShownLabels(segments, total, progress, k, showPercentages, center, textRadius, cosDeg, sinDeg)[b].index
  {
    if k > 0 {
      ShownLabelsOrdered(segments, total, progress, k - 1, showPercentages, center, textRadius, cosDeg, sinDeg);
      ShownLabelsSound(segments, total, progress, k - 1, showPercentages, center, textRadius, cosDeg, sinDeg);
      var sweeps := Sweeps(segments, total, progress);
      var arc := Arc(StartAngle(sweeps, k - 1), sweeps[k - 1]);
      var prev := ShownLabels(segments, total, progress, k - 1, showPercentages, center, textRadius, cosDeg, sinDeg);
      var last := LabelAt(k - 1, segments[k - 1].value, total, arc, center, textRadius, cosDeg, sinDeg);
      var cur := ShownLabels(segments, total, progress, k, showPercentages, center, textRadius, cosDeg, sinDeg);
      assert cur == prev + (if showPercentages && arc.sweep > 15.0 then [last] else []);
      forall a, b | 0 <= a < b < |cur|
        ensures cur[a].index < cur[b].index
      {
        assert cur[a] == prev[a] && prev[a] in prev;
        if b >= |prev| {
          assert cur[b] == last && last.index == k - 1;
          assert prev[a].index < k - 1;
        } else {
          assert cur[b] == prev[b];
          assert prev[a].index < prev[b].index;
        }
      }
    }
  }

  /** The drawing pass: one arc per segment, each starting where the previous
      one ended, and a percentage label on every arc wider than 15 degrees.
      The drawing uses the canvas size as `Float`, so the centre is
      `(width / 2, height / 2)` and the radius `min(width, height) / 2`. */
  method LayoutPie(segments: seq<PieChartSegment>, total: real, progress: real, width: real, height: real,
                   donut: bool, donutRatio: real, showPercentages: bool,
                   cosDeg: real -> real, sinDeg: real -> real)
    returns (arcs: seq<Arc>, labels: seq<PercentLabel>)
    requires total != 0.0
    ensures |arcs| == |segments|
    ensures forall i :: 0 <= i < |segments| ==>
      arcs[i] == Arc(StartAngle(Sweeps(segments, total, progress), i), Sweeps(segments, total, progress)[i])
    ensures var radius := (if width <= height then width else height) / 2.0;
      labels == ShownLabels(segments, total, progress, |segments|, showPercentages,
                            Offset(width / 2.0, height / 2.0),
                            TextRadius(radius, donut, InnerRadius(radius, donut, donutRatio)), cosDeg, sinDeg)
  {
    var radius := (if width <= height then width else height) / 2.0;
    var innerRadius := InnerRadius(radius, donut, donutRatio);
    var center := Offset(width / 2.0, height / 2.0);
    var textRadius := TextRadius(radius, donut, innerRadius);
    arcs, labels := DrawSegments(segments, total, progress, showPercentages, center, textRadius, cosDeg, sinDeg);
  }

  /** The loop over the segments: arc i starts at the running start angle and
      sweeps its own share; its label is added when it is wider than 15 degrees. */
  method DrawSegments(segments: seq<PieChartSegment>, total: real, progress: real, showPercentages: bool,
                      center: Offset, textRadius: real, cosDeg: real -> real, sinDeg: real -> real)
    returns (arcs: seq<Arc>, labels: seq<PercentLabel>)
    requires total != 0.0
    ensures |arcs| == |segments|
    ensures forall i :: 0 <= i < |segments| ==>
      arcs[i] == Arc(StartAngle(Sweeps(segments, total, progress), i), Sweeps(segments, total, progress)[i])
    ensures labels == ShownLabels(segments, total, progress, |segments|, showPercentages, center, textRadius, cosDeg, sinDeg)
  {
    ghost var sweeps := Sweeps(segments, total, progress);
    var startAngle := 0.0;
    arcs, labels := [], [];
    for i := 0 to |segments|
      invariant |arcs| == i && startAngle == StartAngle(sweeps, i)
      invariant forall k :: 0 <= k < i ==> arcs[k] == Arc(StartAngle(sweeps, k), sweeps[k])
      invariant labels == ShownLabels(segments, total, progress, i, showPercentages, center, textRadius, cosDeg, sinDeg)
    {
      var sweepAngle := Sweep(segments[i].value, total, progress);
      var arc := Arc(startAngle, sweepAngle);
      arcs := arcs + [arc];
      ShownLabelsStep(segments, total, progress, i, showPercentages, center, textRadius, cosDeg, sinDeg);
      if showPercentages && sweepAngle > 15.0 {
        labels := labels + [LabelAt(i, segments[i].value, total, arc, center, textRadius, cosDeg, sinDeg)];
      }
      StartAngleStep(sweeps, i);
      startAngle := startAngle + sweepAngle;
    }
  }

  /** The labels after segment i are those before it and, when its arc is
      wide enough, its own. */
  lemma {:induction false} ShownLabelsStep(segments: seq<PieChartSegment>, total: real, progress: real, i: nat,
                        showPercentages: bool, center: Offset, textRadius: real,
                        cosDeg: real -> real, sinDeg: real -> real)
    requires total != 0.0 && i < |segments|
    ensures var sweeps := Sweeps(segments, total, progress);
      var arc := Arc(StartAngle(sweeps, i), sweeps[i]);
      ShownLabels(segments, total, progress, i + 1, showPercentages, center, textRadius, cosDeg, sinDeg)
      == ShownLabels(segments, total, progress, i, showPercentages, center, textRadius, cosDeg, sinDeg)
         + (if showPercentages && arc.sweep > 15.0
            then [LabelAt(i, segments[i].value, total, arc, center, textRadius, cosDeg, sinDeg)]
            else [])
  {
  }

  /** Consecutive arcs of the layout touch: each starts where the previous ends. */
  lemma {:induction false} ArcsAreContiguous(segments: seq<PieChartSegment>, total: real, progress: real, i: nat)
    requires total != 0.0 && i + 1 < |segments|
    ensures var sweeps := Sweeps(segments, total, progress);
      StartAngle(sweeps, i + 1) == StartAngle(sweeps, i) + sweeps[i]
  {
    StartAngleStep(Sweeps(segments, total, progress), i);
  }

  // ---------------------------------------------------------------------
  // Tapping
  // ---------------------------------------------------------------------

  /** The tap angle in degrees from `atan2(dy, dx)`, moved into [0, 360). */
  function TapAngle(atan: real): real
  {
    var angle := atan * 180.0 / PI;
    if angle < 0.0 then angle + 360.0 else angle
  }

  /** For an `atan2` result in [-PI, PI] the tap angle lies in [0, 360). */
  lemma {:induction false} TapAngleRange(atan: real)
    requires -PI <= atan <= PI
    ensures 0.0 <= TapAngle(atan) < 360.0
  {
  }

  /** Arc i of the sweeps contains the angle: `start <= angle <= start + sweep`. */
  predicate Contains(sweeps: seq<real>, i: nat, angle: real)
    requires i < |sweeps|
  {
    StartAngle(sweeps, i) <= angle <= StartAngle(sweeps, i) + sweeps[i]
  }

  /** The angle lies strictly inside arc i, away from both of its ends. */
  predicate StrictlyInside(sweeps: seq<real>, i: nat, angle: real)
    requires i < |sweeps|
  {
    StartAngle(sweeps, i) < angle < StartAngle(sweeps, i) + sweeps[i]
  }

  /** No sweep is negative. */
  predicate NonNegative(sweeps: seq<real>)
  {
    forall i :: 0 <= i < |sweeps| ==> sweeps[i] >= 0.0
  }

  /** With non-negative sweeps the start angles never decrease. */
  lemma {:induction false} StartMonotone(sweeps: seq<real>, i: nat, j: nat)
    requires i <= j <= |sweeps| && NonNegative(sweeps)
    ensures StartAngle(sweeps, i) <= StartAngle(sweeps, j)
  {
    if i < j {
      StartMonotone(sweeps, i, j - 1);
      StartAngleStep(sweeps, j - 1);
    }
  }

  /** An angle strictly inside arc i is in arc i and in no earlier arc, so
      the lookup, which takes the first arc holding it, finds arc i. */
  lemma {:induction false} StrictlyInsideIsFirst(sweeps: seq<real>, i: nat, angle: real)
    requires i < |sweeps| && NonNegative(sweeps) && StrictlyInside(sweeps, i, angle)
    ensures Contains(sweeps, i, angle)
    ensures forall j :: 0 <= j < i ==> !Contains(sweeps, j, angle)
  {
    forall j | 0 <= j < i
      ensures !Contains(sweeps, j, angle)
    {
      StartAngleStep(sweeps, j);
      StartMonotone(sweeps, j + 1, i);
    }
  }

  /** The tap lookup: the first segment whose closed interval, over the
      unanimated sweeps, contains the angle; none when no interval does.
      A shared boundary therefore belongs to the earlier segment, and with
      non-negative sweeps an angle strictly inside arc i selects segment i. */
  method SegmentAtAngle(segments: seq<PieChartSegment>, total: real, angle: real) returns (r: Option<nat>)
    requires total != 0.0
    ensures var sweeps := Sweeps(segments, total, 1.0);
      && (r.None? <==> forall i :: 0 <= i < |segments| ==> !Contains(sweeps, i, angle))
      && (r.Some? ==>
            && r.value < |segments| && Contains(sweeps, r.value, angle)
            && forall j :: 0 <= j < r.value ==> !Contains(sweeps, j, angle))
    ensures var sweeps := Sweeps(segments, total, 1.0);
      NonNegative(sweeps) ==>
        forall i :: 0 <= i < |segments| && StrictlyInside(sweeps, i, angle) ==> r == Some(i)
  {
    ghost var sweeps := Sweeps(segments, total, 1.0);
    var startAngle := 0.0;
    for i := 0 to |segments|
      invariant startAngle == StartAngle(sweeps, i)
      invariant forall j :: 0 <= j < i ==> !Contains(sweeps, j, angle)
    {
      var sweepAngle := segments[i].value / total * 360.0;
      assert sweepAngle == sweeps[i];
      if angle >= startAngle && angle <= startAngle + sweepAngle {
        assert Contains(sweeps, i, angle);
        if NonNegative(sweeps) {
          forall i' | 0 <= i' < |segments| && StrictlyInside(sweeps, i', angle)
            ensures i' == i
          {
            StrictlyInsideIsFirst(sweeps, i', angle);
          }
        }
        return Some(i);
      }
      StartAngleStep(sweeps, i);
      startAngle := startAngle + sweepAngle;
    }
    if NonNegative(sweeps) {
      forall i' | 0 <= i' < |segments| && StrictlyInside(sweeps, i', angle)
        ensures false
      {
        StrictlyInsideIsFirst(sweeps, i', angle);
      }
    }
    return None;
  }

  /** With non-negative sweeps, every angle from 0 up to their sum lies in some arc. */
  lemma {:induction false} ArcsCover(sweeps: seq<real>, angle: real)
    requires |sweeps| > 0 && forall i :: 0 <= i < |sweeps| ==> sweeps[i] >= 0.0
    requires 0.0 <= angle <= Sum(sweeps)
    ensures exists i :: 0 <= i < |sweeps| && Contains(sweeps, i, angle)
  {
    var n := |sweeps| - 1;
    assert sweeps[..n + 1] == sweeps;
    if n > 0 && angle <= Sum(sweeps[..n]) {
      var p := sweeps[..n];
      ArcsCover(p, angle);
      var i :| 0 <= i < |p| && Contains(p, i, angle);
      assert p[..i] == sweeps[..i];
      assert Contains(sweeps, i, angle);
    } else {
      assert Contains(sweeps, n, angle);
    }
  }

  /** With non-negative values and a positive total every tap angle in
      [0, 360) selects some segment. */
  lemma {:induction false} TapAlwaysHits(segments: seq<PieChartSegment>, angle: real)
    requires |segments| > 0 && Total(segments) > 0.0
    requires forall i :: 0 <= i < |segments| ==> segments[i].value >= 0.0
    requires 0.0 <= angle < 360.0
    ensures exists i :: 0 <= i < |segments| && Contains(Sweeps(segments, Total(segments), 1.0), i, angle)
  {
    var total := Total(segments);
    var sweeps := Sweeps(segments, total, 1.0);
    forall i | 0 <= i < |segments|
      ensures sweeps[i] >= 0.0
    {
      SweepNonNegative(segments[i].value, total);
    }
    FullCircle(segments);
    ArcsCover(sweeps, angle);
  }

  /** A non-negative value over a positive total has a non-negative sweep. */
  lemma {:induction false} SweepNonNegative(v: real, total: real)
    requires v >= 0.0 && total > 0.0
    ensures Sweep(v, total, 1.0) >= 0.0
  {
    DivNonNegative(v, total);
  }

  /** The radius the tap handler uses: half the smaller side, in integer division. */
  function TapRadius(width: nat, height: nat): real
  {
    ((if width <= height then width else height) / 2) as real
  }

  /** A tap at distance d from the centre is on the pie: no farther than the
      radius and, for a donut, no nearer than `radius * donutRatio`. */
  predicate InRing(d: real, radius: real, donut: bool, donutRatio: real)
  {
    d <= radius && (!donut || d >= radius * donutRatio)
  }

  /** A tap on the chart. The gesture reports the size as integers, so the
      centre is `(width / 2, height / 2)` and the radius `min(width, height) / 2`
      in integer division. A tap outside the radius, in the donut hole, or at
      an angle no arc contains keeps the previous selection; otherwise the
      first segment whose arc contains the angle is selected. `distance` is
      the length of the vector from the centre (`Offset.getDistance`) and
      `atan2` the library function, both parameters. */
  method HandleTap(segments: seq<PieChartSegment>, total: real, selected: Option<PieChartSegment>,
                   width: nat, height: nat, tap: Offset, donut: bool, donutRatio: real,
                   distance: (real, real) -> real, atan2: (real, real) -> real)
    returns (newSelected: Option<PieChartSegment>)
    requires total != 0.0
    ensures var dx := tap.x - (width / 2) as real;
      var dy := tap.y - (height / 2) as real;
      var d := distance(dx, dy);
      var sweeps := Sweeps(segments, total, 1.0);
      var angle := TapAngle(atan2(dy, dx));
      if InRing(d, TapRadius(width, height), donut, donutRatio) then
        && (newSelected == selected || exists i :: 0 <= i < |segments| && newSelected == Some(segments[i]))
        && ((forall i :: 0 <= i < |segments| ==> !Contains(sweeps, i, angle)) ==> newSelected == selected)
        && (forall i ::
              (0 <= i < |segments| && Contains(sweeps, i, angle)
               && forall j :: 0 <= j < i ==> !Contains(sweeps, j, angle)) ==> newSelected == Some(segments[i]))
      else newSelected == selected
  {
    var centerX, centerY := (width / 2) as real, (height / 2) as real;
    var radius := TapRadius(width, height);
    var dx, dy := tap.x - centerX, tap.y - centerY;
    var d := distance(dx, dy);
    newSelected := selected;
    if InRing(d, radius, donut, donutRatio) {
      var angle := TapAngle(atan2(dy, dx));
      var hit := SegmentAtAngle(segments, total, angle);
      if hit.Some? {
        newSelected := Some(segments[hit.value]);
      }
    }
  }

  // ---------------------------------------------------------------------
  // Highlight
  // ---------------------------------------------------------------------

  /** The outline drawn around the selected segment: the unanimated arc of the
      first segment structurally equal to it, or nothing when none is. */
  method HighlightArc(segments: seq<PieChartSegment>, total: real, selected: PieChartSegment)
    returns (r: Option<Arc>)
    requires total != 0.0
    ensures var sweeps := Sweeps(segments, total, 1.0);
      && (r.None? <==> selected !in segments)
      && (r.Some? ==> exists k ::
            && 0 <= k < |segments| && segments[k] == selected
            && (forall j :: 0 <= j < k ==> segments[j] != selected)
            && r.value == Arc(StartAngle(sweeps, k), sweeps[k]))
  {
    ghost var sweeps := Sweeps(segments, total, 1.0);
    var highlightStartAngle := 0.0;
    for i := 0 to |segments|
      invariant highlightStartAngle == StartAngle(sweeps, i)
      invariant forall j :: 0 <= j < i ==> segments[j] != selected
    {
      var segmentAngle := segments[i].value / total * 360.0;
      assert segmentAngle == sweeps[i];
      if segments[i] == selected {
        return Some(Arc(highlightStartAngle, segmentAngle));
      }
      StartAngleStep(sweeps, i);
      highlightStartAngle := highlightStartAngle + segmentAngle;
    }
    return None;
  }
}
