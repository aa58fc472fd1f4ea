/** `BarChart`: the category labels, the y range, the rectangles of the
    grouped and stacked vertical bars, and the grid lines of `drawGrid`. */
module BarChart {
  import opened Wrappers
  import opened Numbers
  import opened Geometry
  import opened ChartData

  // ---------------------------------------------------------------------
  // Labels and range
  // ---------------------------------------------------------------------

  /** The position of the first occurrence of x in s. */
  function FirstIndex(s: seq<string>, x: string): (k: nat)
    requires x in s
    ensures k < |s| && s[k] == x && forall j :: 0 <= j < k ==> s[j] != x
  {
    if s[0] == x then 0 else 1 + FirstIndex(s[1..], x)
  }

  /** `distinct()`: each element once, in the order of first occurrence. */
  function Distinct(s: seq<string>): (r: seq<string>)
    ensures forall x :: x in r <==> x in s
    ensures forall i, j :: 0 <= i < j < |r| ==> r[i] != r[j]
  {
    if s == [] then []
    else
      var init := s[..|s| - 1];
      var r0 := Distinct(init);
      assert forall x :: x in init ==> x in s;
      assert forall x :: x in s ==> x in init || x == s[|s| - 1];
      if s[|s| - 1] in r0 then r0 else r0 + [s[|s| - 1]]
  }

  /** The distinct labels keep the order in which each label first occurs. */
  lemma {:induction false} DistinctKeepsFirstOccurrenceOrder(s: seq<string>, i: nat, j: nat)
    requires i < j < |Distinct(s)|
    ensures FirstIndex(s, Distinct(s)[i]) < FirstIndex(s, Distinct(s)[j])
  {
    var init := s[..|s| - 1];
    var r0 := Distinct(init);
    var last := s[|s| - 1];
    assert Distinct(s) == if last in r0 then r0 else r0 + [last];
    FirstIndexOfPrefix(s, Distinct(s)[i]);
    if j < |r0| {
      assert Distinct(s)[i] == r0[i] && Distinct(s)[j] == r0[j];
      DistinctKeepsFirstOccurrenceOrder(init, i, j);
      FirstIndexOfPrefix(s, Distinct(s)[j]);
    } else {
      assert Distinct(s)[j] == last && last !in init;
      assert FirstIndex(s, last) == |s| - 1;
    }
  }

  /** A label occurring before the last position has the same first
      occurrence in the sequence without its last element. */
  lemma {:induction false} FirstIndexOfPrefix(s: seq<string>, x: string)
    requires |s| > 0 && x in s[..|s| - 1]
    ensures FirstIndex(s, x) == FirstIndex(s[..|s| - 1], x)
  {
    var k := FirstIndex(s[..|s| - 1], x);
    assert s[k] == x && forall j :: 0 <= j < k ==> s[j] != x;
    FirstIndexUnique(s, x, k);
  }

  /** The first occurrence is the only position holding x with no x before it. */
  lemma {:induction false} FirstIndexUnique(s: seq<string>, x: string, k: nat)
    requires k < |s| && s[k] == x && forall j :: 0 <= j < k ==> s[j] != x
    ensures FirstIndex(s, x) == k
  {
  }

  /** The category labels: the distinct labels of all points of all series. */
  function XLabels(dataSeries: seq<DataSeries>): seq<string>
  {
    Distinct(Labels(AllPoints(dataSeries)))
  }

  /** Every point's label is a category, and every category is some point's label. */
  lemma {:induction false} XLabelsAreLabels(dataSeries: seq<DataSeries>)
    ensures forall k, p :: 0 <= k < |dataSeries| && p in dataSeries[k].points ==> p.tag in XLabels(dataSeries)
    ensures forall x :: x in XLabels(dataSeries) ==>
      exists k, p :: 0 <= k < |dataSeries| && p in dataSeries[k].points && p.tag == x
  {
    var all := AllPoints(dataSeries);
    var labels := Labels(all);
    forall k, p | 0 <= k < |dataSeries| && p in dataSeries[k].points
      ensures p.tag in XLabels(dataSeries)
    {
      assert p in all;
      var i :| 0 <= i < |all| && all[i] == p;
      assert labels[i] == p.tag;
    }
    forall x | x in XLabels(dataSeries)
      ensures exists k, p :: 0 <= k < |dataSeries| && p in dataSeries[k].points && p.tag == x
    {
      var i :| 0 <= i < |labels| && labels[i] == x;
      assert all[i] in all;
    }
  }

  /** The y range: the override when given, otherwise the smallest and the
      largest y over all points (0 for no points), with no headroom. */
  function YRange(dataSeries: seq<DataSeries>, yAxisRange: Option<(real, real)>): (r: (real, real))
    ensures yAxisRange.Some? ==> r == yAxisRange.value
    ensures yAxisRange.None? && AllPoints(dataSeries) != [] ==>
      && r.0 <= r.1
      && (forall k, p :: 0 <= k < |dataSeries| && p in dataSeries[k].points ==> r.0 <= p.y <= r.1)
      && (exists p :: p in AllPoints(dataSeries) && p.y == r.0)
      && (exists p :: p in AllPoints(dataSeries) && p.y == r.1)
    ensures yAxisRange.None? && AllPoints(dataSeries) == [] ==> r == (0.0, 0.0)
  {
    match yAxisRange
    case Some(range) => range
    case None =>
      var all := AllPoints(dataSeries);
      var r := (MinY(all), MaxY(all));
      assert forall k, p :: 0 <= k < |dataSeries| && p in dataSeries[k].points ==> r.0 <= p.y <= r.1 by {
        forall k, p | 0 <= k < |dataSeries| && p in dataSeries[k].points
          ensures r.0 <= p.y <= r.1
        {
          assert p in all;
          var i :| 0 <= i < |all| && all[i] == p;
        }
      }
      r
  }

  // ---------------------------------------------------------------------
  // Groups
  // ---------------------------------------------------------------------

  /** The gap between groups: a tenth of the width shared among n gaps. */
  function Spacing(width: real, n: nat): real
    requires n > 0
  {
    width * 0.1 / n as real
  }

  /** The width of one group: what the n + 1 gaps leave, shared by n groups. */
  function GroupWidth(width: real, n: nat): real
    requires n > 0
  {
    (width - (n + 1) as real * Spacing(width, n)) / n as real
  }

  /** The left edge of group i. */
  function GroupLeft(i: nat, width: real, n: nat): real
    requires n > 0
  {
    Spacing(width, n) + i as real * (GroupWidth(width, n) + Spacing(width, n))
  }

  /** Group i's left edge from the gap and the group width. */
  lemma {:induction false} GroupLeftOf(i: nat, width: real, n: nat, barSpacing: real, groupWidth: real)
    requires n > 0 && barSpacing == Spacing(width, n) && groupWidth == GroupWidth(width, n)
    ensures barSpacing + i as real * (groupWidth + barSpacing) == GroupLeft(i, width, n)
  {
  }

  /** The groups and gaps tile the width: the first group starts one gap in,
      each group is followed by a gap and then the next group, and the last
      gap ends at the right edge, so n groups and n + 1 gaps fill the width. */
  lemma {:induction false} GroupsTileWidth(width: real, n: nat, i: nat)
    requires n > 0 && i < n
    ensures GroupLeft(0, width, n) == Spacing(width, n)
    ensures GroupLeft(i, width, n) + GroupWidth(width, n) + Spacing(width, n) == GroupLeft(i + 1, width, n)
    ensures GroupLeft(n - 1, width, n) + GroupWidth(width, n) + Spacing(width, n) == width
    ensures n as real * GroupWidth(width, n) + (n + 1) as real * Spacing(width, n) == width
  {
    var m := n as real;
    var sp := Spacing(width, n);
    var g := GroupWidth(width, n);
    DivMul(width - (m + 1.0) * sp, m);
    assert (n + 1) as real == m + 1.0 && (n - 1) as real == m - 1.0;
    assert (i + 1) as real == i as real + 1.0;
    GroupAlgebra(width, m, i as real, sp, g);
  }

  /** The algebra behind the tiling, over plain reals. */
  lemma {:induction false} GroupAlgebra(w: real, m: real, i: real, sp: real, g: real)
    requires g * m == w - (m + 1.0) * sp
    ensures sp + (i + 1.0) * (g + sp) == sp + i * (g + sp) + g + sp
    ensures sp + (m - 1.0) * (g + sp) + g + sp == w
    ensures m * g + (m + 1.0) * sp == w
  {
    assert (i + 1.0) * (g + sp) == i * (g + sp) + (g + sp);
    assert (m - 1.0) * (g + sp) + (g + sp) == m * (g + sp);
    assert m * (g + sp) == m * g + m * sp;
  }

  /** The drawn height of a bar: `y / (yMax - yMin) * height * progress`. The
      difference is not checked by the code, hence the precondition. */
  function BarHeight(y: real, yMin: real, yMax: real, height: real, progress: real): real
    requires yMax != yMin
  {
    y / (yMax - yMin) * height * progress
  }

  /** The bar one series draws for a label: the height of its first point
      with that label, or no bar when it has none. */
  function BarOf(series: DataSeries, key: string, yMin: real, yMax: real, height: real, progress: real): Option<real>
    requires yMax != yMin
  {
    match FindByLabel(series.points, key)
    case None => None
    case Some(p) => Some(BarHeight(p.y, yMin, yMax, height, progress))
  }

  /** The bars of all series for one label, in series order. */
  function Heights(dataSeries: seq<DataSeries>, key: string, yMin: real, yMax: real, height: real, progress: real)
    : (hs: seq<Option<real>>)
    requires yMax != yMin
    ensures |hs| == |dataSeries|
    ensures forall s :: 0 <= s < |dataSeries| ==> hs[s] == BarOf(dataSeries[s], key, yMin, yMax, height, progress)
  {
    seq(|dataSeries|, s requires 0 <= s < |dataSeries| => BarOf(dataSeries[s], key, yMin, yMax, height, progress))
  }

  /** The lookup both drawing loops make for each series: its first point
      with the label and, when there is one, that point's bar height. */
  method SeriesBar(series: DataSeries, key: string, yMin: real, yMax: real, height: real, progress: real)
    returns (bar: Option<real>)
    requires yMax != yMin
    ensures bar == BarOf(series, key, yMin, yMax, height, progress)
  {
    var point := FindByLabel(series.points, key);
    if point.Some? {
      bar := Some(BarHeight(point.value.y, yMin, yMax, height, progress));
    } else {
      bar := None;
    }
  }

  // ---------------------------------------------------------------------
  // Stacked bars
  // ---------------------------------------------------------------------

  /** The height stacked by the bars of series 0 to k - 1: the sum of the
      heights of the series that draw a bar. */
  function StackOffset(hs: seq<Option<real>>, k: nat): real
    requires k <= |hs|
  {
    if k == 0 then 0.0
    else
      match hs[k - 1]
      case None => StackOffset(hs, k - 1)
      case Some(h) => StackOffset(hs, k - 1) + h
  }

  /** The stacked bars of series 0 to k - 1, in series order: each spans the
      group and rests on the height stacked below it. */
  function StackedRects(hs: seq<Option<real>>, k: nat, xPos: real, groupWidth: real, height: real): seq<Rect>
    requires k <= |hs|
  {
    if k == 0 then []
    else
      var below := StackOffset(hs, k - 1);
      match hs[k - 1]
      case None => StackedRects(hs, k - 1, xPos, groupWidth, height)
      case Some(h) =>
        StackedRects(hs, k - 1, xPos, groupWidth, height) + [Rect(xPos, height - below - h, xPos + groupWidth, height - below)]
  }

  /** The drawing loop's state after k series: the stack of their bars and
      the height it reaches. */
  predicate Stacked(hs: seq<Option<real>>, k: nat, xPos: real, groupWidth: real, height: real,
                    rects: seq<Rect>, yOffset: real)
  {
    k <= |hs| && rects == StackedRects(hs, k, xPos, groupWidth, height) && yOffset == StackOffset(hs, k)
  }

  /** One more series puts its bar, if any, on top of the stack. */
  lemma {:induction false} StackStep(hs: seq<Option<real>>, k: nat, xPos: real, groupWidth: real, height: real,
                  rects: seq<Rect>, yOffset: real)
    requires k < |hs| && Stacked(hs, k, xPos, groupWidth, height, rects, yOffset)
    ensures hs[k].None? ==> Stacked(hs, k + 1, xPos, groupWidth, height, rects, yOffset)
    ensures hs[k].Some? ==>
      Stacked(hs, k + 1, xPos, groupWidth, height,
              rects + [Rect(xPos, height - yOffset - hs[k].value, xPos + groupWidth, height - yOffset)],
              yOffset + hs[k].value)
  {
  }

  /** One stacked group, as the drawing loop builds it with its running
      `yOffset`: the stack of the bars the series draw for the label. */
  method StackedGroup(dataSeries: seq<DataSeries>, key: string, xPos: real, groupWidth: real,
                      yMin: real, yMax: real, height: real, progress: real)
    returns (rects: seq<Rect>)
    requires yMax != yMin
    ensures rects == StackedRects(Heights(dataSeries, key, yMin, yMax, height, progress), |dataSeries|,
                                  xPos, groupWidth, height)
  {
    ghost var hs := Heights(dataSeries, key, yMin, yMax, height, progress);
    rects := [];
    var yOffset := 0.0;
    for k := 0 to |dataSeries|
      invariant Stacked(hs, k, xPos, groupWidth, height, rects, yOffset)
    {
      var bar := SeriesBar(dataSeries[k], key, yMin, yMax, height, progress);
      assert hs[k] == bar;
      StackStep(hs, k, xPos, groupWidth, height, rects, yOffset);
      if bar.Some? {
        var barHeight := bar.value;
        rects := rects + [Rect(xPos, height - yOffset - barHeight, xPos + groupWidth, height - yOffset)];
        yOffset := yOffset + barHeight;
      }
    }
  }

  /** Within one stack the first bar rests on the baseline, each later bar's
      bottom is the previous bar's top, the top of the stack is the stacked
      height above the baseline, and every bar spans the whole group. */
  lemma {:induction false} StackIsContiguous(hs: seq<Option<real>>, k: nat, xPos: real, groupWidth: real, height: real)
    requires k <= |hs|
    ensures var rects := StackedRects(hs, k, xPos, groupWidth, height);
      && (rects != [] ==> rects[0].bottom == height)
      && (rects != [] ==> rects[|rects| - 1].top == height - StackOffset(hs, k))
      && (forall j :: 0 < j < |rects| ==> rects[j].bottom == rects[j - 1].top)
      && (forall j :: 0 <= j < |rects| ==> rects[j].left == xPos && rects[j].right == xPos + groupWidth)
  {
    if k > 0 {
      StackIsContiguous(hs, k - 1, xPos, groupWidth, height);
      var prev := StackedRects(hs, k - 1, xPos, groupWidth, height);
      var below := StackOffset(hs, k - 1);
      match hs[k - 1]
      case None =>
      case Some(h) =>
        var bar := Rect(xPos, height - below - h, xPos + groupWidth, height - below);
        var rects := prev + [bar];
        assert StackedRects(hs, k, xPos, groupWidth, height) == rects;
        assert forall j :: 0 <= j < |prev| ==> rects[j] == prev[j];
        assert prev == [] ==> below == 0.0 by {
          if prev == [] {
            StackWithoutBars(hs, k - 1, xPos, groupWidth, height);
          }
        }
    }
  }

  /** A stack without bars has stacked no height. */
  lemma {:induction false} StackWithoutBars(hs: seq<Option<real>>, k: nat, xPos: real, groupWidth: real, height: real)
    requires k <= |hs| && StackedRects(hs, k, xPos, groupWidth, height) == []
    ensures StackOffset(hs, k) == 0.0
  {
    if k > 0 {
      match hs[k - 1]
      case None =>
        StackWithoutBars(hs, k - 1, xPos, groupWidth, height);
      case Some(h) =>
    }
  }

  // ---------------------------------------------------------------------
  // Grouped bars
  // ---------------------------------------------------------------------

  /** The left edge of slice s of a group: `xPos + s * barWidth`. */
  function SliceLeft(xPos: real, s: nat, barWidth: real): real
  {
    xPos + s as real * barWidth
  }

  /** The grouped bars of series 0 to k - 1: series s's bar spans slice s, of
      width `barWidth`, of the group and stands on the baseline; a series
      without a bar leaves its slice empty. */
  function GroupedRects(hs: seq<Option<real>>, k: nat, xPos: real, barWidth: real, height: real): seq<Rect>
    requires k <= |hs|
  {
    if k == 0 then []
    else
      match hs[k - 1]
      case None => GroupedRects(hs, k - 1, xPos, barWidth, height)
      case Some(h) =>
        GroupedRects(hs, k - 1, xPos, barWidth, height)
          + [Rect(SliceLeft(xPos, k - 1, barWidth), height - h, SliceLeft(xPos, k, barWidth), height)]
  }

  /** One more series puts its bar, if any, in the next slice. */
  lemma {:induction false} GroupStep(hs: seq<Option<real>>, k: nat, xPos: real, barWidth: real, height: real)
    requires k < |hs|
    ensures hs[k].None? ==> GroupedRects(hs, k + 1, xPos, barWidth, height) == GroupedRects(hs, k, xPos, barWidth, height)
    ensures hs[k].Some? ==>
      GroupedRects(hs, k + 1, xPos, barWidth, height) == GroupedRects(hs, k, xPos, barWidth, height)
        + [Rect(SliceLeft(xPos, k, barWidth), height - hs[k].value, SliceLeft(xPos, k + 1, barWidth), height)]
  {
  }

  /** One grouped set of bars, as the drawing loop builds it: the bars the
      series draw for the label, each in its own slice. */
  method GroupedGroup(dataSeries: seq<DataSeries>, key: string, xPos: real, groupWidth: real,
                      yMin: real, yMax: real, height: real, progress: real)
    returns (rects: seq<Rect>)
    requires |dataSeries| > 0 && yMax != yMin
    ensures rects == GroupedRects(Heights(dataSeries, key, yMin, yMax, height, progress), |dataSeries|,
                                  xPos, groupWidth / |dataSeries| as real, height)
  {
    ghost var hs := Heights(dataSeries, key, yMin, yMax, height, progress);
    var barWidth := groupWidth / |dataSeries| as real;
    rects := [];
    for k := 0 to |dataSeries|
      invariant rects == GroupedRects(hs, k, xPos, barWidth, height)
    {
      var bar := SeriesBar(dataSeries[k], key, yMin, yMax, height, progress);
      assert hs[k] == bar;
      GroupStep(hs, k, xPos, barWidth, height);
      if bar.Some? {
        var left := SliceLeft(xPos, k, barWidth);
        var right := SliceLeft(xPos, k + 1, barWidth);
        rects := rects + [Rect(left, height - bar.value, right, height)];
      }
    }
  }

  /** Bars that stand on the baseline, are `barWidth` wide, lie between
      `xPos` and `bound`, and follow each other left to right without overlap. */
  ghost predicate SideBySide(rects: seq<Rect>, xPos: real, bound: real, barWidth: real, height: real)
  {
    && (forall j :: 0 <= j < |rects| ==>
          rects[j].bottom == height && rects[j].right - rects[j].left == barWidth
          && xPos <= rects[j].left && rects[j].right <= bound)
    && (forall i, j :: 0 <= i < j < |rects| ==> rects[i].right <= rects[j].left)
  }

  /** Grouped bars stand on the baseline, are one slice wide, stay inside the
      first k slices, and follow each other from left to right without
      overlapping. */
  lemma {:induction false} GroupedBarsDoNotOverlap(hs: seq<Option<real>>, k: nat, xPos: real, barWidth: real, height: real)
    requires k <= |hs| && barWidth >= 0.0
    ensures SideBySide(GroupedRects(hs, k, xPos, barWidth, height), xPos, SliceLeft(xPos, k, barWidth), barWidth, height)
  {
    if k > 0 {
      GroupedBarsDoNotOverlap(hs, k - 1, xPos, barWidth, height);
      var prev := GroupedRects(hs, k - 1, xPos, barWidth, height);
      var lo := SliceLeft(xPos, k - 1, barWidth);
      var hi := SliceLeft(xPos, k, barWidth);
      SliceStep(xPos, k - 1, barWidth);
      match hs[k - 1]
      case None =>
        SideBySideWiden(prev, xPos, lo, hi, barWidth, height);
      case Some(h) =>
        SideBySideAppend(prev, Rect(lo, height - h, hi, height), xPos, lo, hi, barWidth, height);
    }
  }

  /** A row of side-by-side bars stays so under a larger right bound. */
  lemma {:induction false} SideBySideWiden(rects: seq<Rect>, xPos: real, bound: real, bound': real, barWidth: real, height: real)
    requires SideBySide(rects, xPos, bound, barWidth, height) && bound <= bound'
    ensures SideBySide(rects, xPos, bound', barWidth, height)
  {
  }

  /** A bar of the same width placed at the right bound of a side-by-side row
      extends the row up to the bar's right edge. */
  lemma {:induction false} SideBySideAppend(rects: seq<Rect>, bar: Rect, xPos: real, lo: real, hi: real, barWidth: real, height: real)
    requires SideBySide(rects, xPos, lo, barWidth, height) && xPos <= lo && barWidth >= 0.0
    requires bar.left == lo && bar.right == hi && bar.bottom == height && hi - lo == barWidth
    ensures SideBySide(rects + [bar], xPos, hi, barWidth, height)
  {
    var r := rects + [bar];
    forall j | 0 <= j < |r|
      ensures r[j].bottom == height && r[j].right - r[j].left == barWidth
      ensures xPos <= r[j].left && r[j].right <= bar.right
    {
      if j < |rects| {
        assert r[j] == rects[j];
      }
    }
    forall i, j | 0 <= i < j < |r|
      ensures r[i].right <= r[j].left
    {
      assert r[i] == rects[i];
      if j < |rects| {
        assert r[j] == rects[j];
      } else {
        assert r[j] == bar && rects[i].right <= bar.left;
      }
    }
  }

  /** Slice s + 1 starts where slice s ends, and no slice starts left of the origin. */
  lemma {:induction false} SliceStep(x: real, s: nat, w: real)
    requires w >= 0.0
    ensures x <= SliceLeft(x, s, w) && SliceLeft(x, s, w) + w == SliceLeft(x, s + 1, w)
  {
    assert (s + 1) as real * w == s as real * w + w;
  }

  /** The heights of the bars among the first k series, in series order: one
      for each series that has a point with the label. */
  function PresentHeights(hs: seq<Option<real>>, k: nat): (r: seq<real>)
    requires k <= |hs|
    ensures |r| <= k
  {
    if k == 0 then []
    else PresentHeights(hs, k - 1) + (if hs[k - 1].Some? then [hs[k - 1].value] else [])
  }

  /** Stacking changes where the bars sit but not which bars there are: both
      layouts draw one bar per series that has the label, in series order,
      and the j-th bar of either layout is as tall as the j-th such series' bar. */
  lemma {:induction false} StackedMatchesGrouped(hs: seq<Option<real>>, k: nat, xPos: real,
                                                 groupWidth: real, barWidth: real, height: real)
    requires k <= |hs|
    ensures |StackedRects(hs, k, xPos, groupWidth, height)| == |GroupedRects(hs, k, xPos, barWidth, height)|
            == |PresentHeights(hs, k)|
    ensures forall j :: 0 <= j < |PresentHeights(hs, k)| ==>
      && StackedRects(hs, k, xPos, groupWidth, height)[j].Height() == PresentHeights(hs, k)[j]
      && GroupedRects(hs, k, xPos, barWidth, height)[j].Height() == PresentHeights(hs, k)[j]
  {
    if k > 0 {
      StackedMatchesGrouped(hs, k - 1, xPos, groupWidth, barWidth, height);
      var st := StackedRects(hs, k - 1, xPos, groupWidth, height);
      var gr := GroupedRects(hs, k - 1, xPos, barWidth, height);
      var below := StackOffset(hs, k - 1);
      match hs[k - 1]
      case None =>
      case Some(h) =>
        var sbar := Rect(xPos, height - below - h, xPos + groupWidth, height - below);
        var gbar := Rect(SliceLeft(xPos, k - 1, barWidth), height - h, SliceLeft(xPos, k, barWidth), height);
        assert StackedRects(hs, k, xPos, groupWidth, height) == st + [sbar];
        assert GroupedRects(hs, k, xPos, barWidth, height) == gr + [gbar];
        assert sbar.Height() == h == gbar.Height();
    }
  }

  // ---------------------------------------------------------------------
  // All bars
  // ---------------------------------------------------------------------

  /** The bars of one category: stacked or grouped. */
  function GroupBars(dataSeries: seq<DataSeries>, key: string, xPos: real, groupWidth: real, stacked: bool,
                     yMin: real, yMax: real, height: real, progress: real): seq<Rect>
    requires |dataSeries| > 0 && yMax != yMin
  {
    var hs := Heights(dataSeries, key, yMin, yMax, height, progress);
    if stacked then StackedRects(hs, |dataSeries|, xPos, groupWidth, height)
    else GroupedRects(hs, |dataSeries|, xPos, groupWidth / |dataSeries| as real, height)
  }

  /** The bars of categories 0 to i - 1, category after category. */
  function BarsUpTo(dataSeries: seq<DataSeries>, xLabels: seq<string>, i: nat, width: real, stacked: bool,
                    yMin: real, yMax: real, height: real, progress: real): seq<Rect>
    requires |dataSeries| > 0 && yMax != yMin && i <= |xLabels|
  {
    if i == 0 then []
    else
      BarsUpTo(dataSeries, xLabels, i - 1, width, stacked, yMin, yMax, height, progress)
        + GroupBars(dataSeries, xLabels[i - 1], GroupLeft(i - 1, width, |xLabels|), GroupWidth(width, |xLabels|),
                    stacked, yMin, yMax, height, progress)
  }

  /** One more category appends its group, drawn at the category's left edge. */
  lemma {:induction false} BarsUpToStep(dataSeries: seq<DataSeries>, xLabels: seq<string>, i: nat, width: real,
                                        stacked: bool, yMin: real, yMax: real, height: real, progress: real,
                                        prefix: seq<Rect>, xPos: real, groupWidth: real, group: seq<Rect>)
    requires |dataSeries| > 0 && yMax != yMin && i < |xLabels|
    requires prefix == BarsUpTo(dataSeries, xLabels, i, width, stacked, yMin, yMax, height, progress)
    requires xPos == GroupLeft(i, width, |xLabels|) && groupWidth == GroupWidth(width, |xLabels|)
    requires group == GroupBars(dataSeries, xLabels[i], xPos, groupWidth, stacked, yMin, yMax, height, progress)
    ensures prefix + group == BarsUpTo(dataSeries, xLabels, i + 1, width, stacked, yMin, yMax, height, progress)
  {
  }

  /** The vertical bar layout (`barRects`): for each category, in order, the
      group starting at its left edge, stacked or grouped. With no categories
      there are no bars. */
  method VerticalBars(dataSeries: seq<DataSeries>, xLabels: seq<string>, width: real, stacked: bool,
                      yMin: real, yMax: real, height: real, progress: real)
    returns (barRects: seq<Rect>)
    requires |dataSeries| > 0 && yMax != yMin
    ensures barRects == BarsUpTo(dataSeries, xLabels, |xLabels|, width, stacked, yMin, yMax, height, progress)
  {
    barRects := [];
    if |xLabels| == 0 {
      return;
    }
    var n := |xLabels|;
    var barSpacing := Spacing(width, n);
    var groupWidth := GroupWidth(width, n);
    for xIndex := 0 to n
      invariant barRects == BarsUpTo(dataSeries, xLabels, xIndex, width, stacked, yMin, yMax, height, progress)
    {
      var xPos := barSpacing + xIndex as real * (groupWidth + barSpacing);
      GroupLeftOf(xIndex, width, n, barSpacing, groupWidth);
      var group;
      if stacked {
        group := StackedGroup(dataSeries, xLabels[xIndex], xPos, groupWidth, yMin, yMax, height, progress);
      } else {
        group := GroupedGroup(dataSeries, xLabels[xIndex], xPos, groupWidth, yMin, yMax, height, progress);
      }
      BarsUpToStep(dataSeries, xLabels, xIndex, width, stacked, yMin, yMax, height, progress,
                   barRects, xPos, groupWidth, group);
      barRects := barRects + group;
    }
  }

  // ---------------------------------------------------------------------
  // Grid
  // ---------------------------------------------------------------------

  /** Horizontal grid line i (of 0..5) at `height * i / 5`. */
  function HorizontalGridLine(i: nat, width: real, height: real): Line
  {
    Line(Offset(0.0, height * i as real / 5.0), Offset(width, height * i as real / 5.0))
  }

  /** Vertical grid line i (of 0..5) at `width * i / 5`. */
  function VerticalGridLine(i: nat, width: real, height: real): Line
  {
    Line(Offset(width * i as real / 5.0, 0.0), Offset(width * i as real / 5.0, height))
  }

  /** `drawGrid`: six horizontal lines, six vertical lines, then the x axis
      along the bottom and the y axis along the left edge. */
  method DrawGrid(width: real, height: real) returns (lines: seq<Line>)
    ensures |lines| == 14
    ensures forall i :: 0 <= i <= 5 ==> lines[i] == HorizontalGridLine(i, width, height)
    ensures forall i :: 0 <= i <= 5 ==> lines[6 + i] == VerticalGridLine(i, width, height)
    ensures lines[12] == Line(Offset(0.0, height), Offset(width, height))
    ensures lines[13] == Line(Offset(0.0, 0.0), Offset(0.0, height))
  {
    lines := [];
    for i := 0 to 6
      invariant |lines| == i
      invariant forall j :: 0 <= j < i ==> lines[j] == HorizontalGridLine(j, width, height)
    {
      lines := lines + [HorizontalGridLine(i, width, height)];
    }
    for i := 0 to 6
      invariant |lines| == 6 + i
      invariant forall j :: 0 <= j <= 5 ==> lines[j] == HorizontalGridLine(j, width, height)
      invariant forall j :: 0 <= j < i ==> lines[6 + j] == VerticalGridLine(j, width, height)
    {
      lines := lines + [VerticalGridLine(i, width, height)];
    }
    lines := lines + [Line(Offset(0.0, height), Offset(width, height)), Line(Offset(0.0, 0.0), Offset(0.0, height))];
  }

  /** The grid lines are evenly spaced a fifth apart, the first horizontal
      and vertical lines lie on the top and left edges, and the last ones on
      the bottom and right edges, where the axes are drawn. */
  lemma {:induction false} GridEvenlySpaced(width: real, height: real, i: nat)
    requires i < 5
    ensures HorizontalGridLine(i + 1, width, height).start.y - HorizontalGridLine(i, width, height).start.y == height / 5.0
    ensures VerticalGridLine(i + 1, width, height).start.x - VerticalGridLine(i, width, height).start.x == width / 5.0
    ensures HorizontalGridLine(0, width, height).start.y == 0.0 && HorizontalGridLine(5, width, height).start.y == height
    ensures VerticalGridLine(0, width, height).start.x == 0.0 && VerticalGridLine(5, width, height).start.x == width
  {
  }
}
