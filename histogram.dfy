/** `Histogram`: the bucketing of a list of values into `bins` equal-width
    bins over a domain, the largest bin count, and the geometry of the bars
    and of the axis ticks. */
module Histogram {
  import opened Wrappers
  import opened Numbers
  import opened Geometry

  // ---------------------------------------------------------------------
  // Domain and bin index
  // ---------------------------------------------------------------------

  /** The domain `(min, max)`: the custom range when one is given, otherwise
      the smallest and the largest value of the (non-empty) data. */
  function Domain(data: seq<real>, customRange: Option<(real, real)>): (d: (real, real))
    requires |data| > 0
    ensures customRange.Some? ==> d == customRange.value
    ensures customRange.None? ==>
      && d.0 <= d.1
      && (forall i :: 0 <= i < |data| ==> d.0 <= data[i] <= d.1)
      && d.0 in data && d.1 in data
  {
    match customRange
    case Some(range) => range
    case None => (Min(data), Max(data))
  }

  /** The bin a value falls into: `((v - min) / binWidth).toInt()` clamped to
      `[0, bins - 1]`. A zero bin width (all values equal, or a custom range
      with equal ends) divides by zero in `Float`: `0/0` is NaN, which
      `toInt()` turns into 0, and a non-zero value over zero is an infinity,
      which `toInt()` saturates before the clamp; both outcomes are written
      out here. */
  function BinIndex(v: real, min: real, binWidth: real, bins: int): (b: int)
    requires bins > 1
    ensures 0 <= b < bins
  {
    if binWidth != 0.0 then ClampInt(Trunc((v - min) / binWidth), 0, bins - 1)
    else if v > min then bins - 1
    else 0
  }

  /** A value of the domain's lower half-open range [min + b*w, min + (b+1)*w)
      of an in-range bin b falls into bin b exactly. */
  lemma {:induction false} BinContainsValue(v: real, min: real, binWidth: real, bins: int, b: int)
    requires bins > 1 && binWidth > 0.0 && 0 <= b < bins
    requires min + b as real * binWidth <= v < min + (b + 1) as real * binWidth
    ensures BinIndex(v, min, binWidth, bins) == b
  {
    QuotientInUnitRange(v - min, binWidth, b);
  }

  /** If b*w <= a < (b+1)*w with w positive and b non-negative, then a/w truncates to b. */
  lemma {:induction false} QuotientInUnitRange(a: real, w: real, b: int)
    requires w > 0.0 && b >= 0
    requires b as real * w <= a < (b + 1) as real * w
    ensures Trunc(a / w) == b
  {
    LowerQuotient(a, w, b as real);
    StrictQuotient(a, w, (b + 1) as real);
  }

  /** c*n <= a with n positive gives c <= a/n. */
  lemma {:induction false} LowerQuotient(a: real, n: real, c: real)
    requires n > 0.0 && c * n <= a
    ensures c <= a / n
  {
  }

  /** a < n*c with n positive gives a/n < c. */
  lemma {:induction false} StrictQuotient(a: real, n: real, c: real)
    requires n > 0.0 && a < c * n
    ensures a / n < c
  {
  }

  /** Values below the domain go to the first bin. */
  lemma {:induction false} BelowDomainFirstBin(v: real, min: real, binWidth: real, bins: int)
    requires bins > 1 && binWidth > 0.0 && v < min
    ensures BinIndex(v, min, binWidth, bins) == 0
  {
    NegativeQuotient(v - min, binWidth);
  }

  /** A negative real over a positive one is negative. */
  lemma {:induction false} NegativeQuotient(a: real, n: real)
    requires a < 0.0 && n > 0.0
    ensures a / n < 0.0
  {
  }

  /** With the domain's own bin width `(max - min) / bins` and max > min, the
      value max lands in the last bin (its quotient is exactly `bins`, which the
      clamp brings back to `bins - 1`), and so does every value above it. */
  lemma {:induction false} MaxInLastBin(v: real, min: real, max: real, bins: int)
    requires bins > 1 && min < max && max <= v
    ensures BinIndex(v, min, (max - min) / bins as real, bins) == bins - 1
  {
    var w := (max - min) / bins as real;
    DivNonNegative(max - min, bins as real);
    assert w > 0.0;
    assert (v - min) / w >= bins as real by {
      QuotientAtLeast(v - min, max - min, bins as real);
    }
  }

  /** For a >= d > 0 and n > 0, a / (d / n) >= n. */
  lemma {:induction false} QuotientAtLeast(a: real, d: real, n: real)
    requires d > 0.0 && n > 0.0 && a >= d
    ensures a / (d / n) >= n
  {
    var w := d / n;
    assert w * n == d;
    assert a / w * w == a;
    assert a / w * w >= n * w;
  }

  /** When the bin width is zero every value at or below min goes to the first
      bin and every value above it to the last. */
  lemma {:induction false} ZeroWidthBins(v: real, min: real, bins: int)
    requires bins > 1
    ensures v <= min ==> BinIndex(v, min, 0.0, bins) == 0
    ensures v > min ==> BinIndex(v, min, 0.0, bins) == bins - 1
  {
  }

  // ---------------------------------------------------------------------
  // Counting
  // ---------------------------------------------------------------------

  /** The bin of every value, in data order. */
  function BinsOf(data: seq<real>, min: real, binWidth: real, bins: int): (r: seq<int>)
    requires bins > 1
    ensures |r| == |data|
    ensures forall i :: 0 <= i < |data| ==> r[i] == BinIndex(data[i], min, binWidth, bins)
  {
    seq(|data|, i requires 0 <= i < |data| => BinIndex(data[i], min, binWidth, bins))
  }

  /** The histogram after the values of `data` were counted one by one. */
  function Counts(data: seq<real>, min: real, binWidth: real, bins: int): (c: seq<int>)
    requires bins > 1
    ensures |c| == bins
    ensures forall b :: 0 <= b < bins ==> c[b] >= 0
  {
    if data == [] then seq(bins, _ => 0)
    else
      var c0 := Counts(data[..|data| - 1], min, binWidth, bins);
      var b := BinIndex(data[|data| - 1], min, binWidth, bins);
      c0[b := c0[b] + 1]
  }

  /** Bin b counts exactly the values whose bin index is b. */
  lemma {:induction false} CountsAreOccurrences(data: seq<real>, min: real, binWidth: real, bins: int, b: int)
    requires bins > 1 && 0 <= b < bins
    ensures Counts(data, min, binWidth, bins)[b] == multiset(BinsOf(data, min, binWidth, bins))[b]
  {
    if data != [] {
      var init := data[..|data| - 1];
      CountsAreOccurrences(init, min, binWidth, bins, b);
      assert BinsOf(data, min, binWidth, bins)
        == BinsOf(init, min, binWidth, bins) + [BinIndex(data[|data| - 1], min, binWidth, bins)];
    }
  }

  /** Every value increments exactly one bin, so the counts add up to the number of values. */
  lemma {:induction false} CountsSum(data: seq<real>, min: real, binWidth: real, bins: int)
    requires bins > 1
    ensures SumInts(Counts(data, min, binWidth, bins)) == |data|
  {
    if data == [] {
      ZerosSum(bins);
    } else {
      var init := data[..|data| - 1];
      CountsSum(init, min, binWidth, bins);
      SumIntsIncrement(Counts(init, min, binWidth, bins), BinIndex(data[|data| - 1], min, binWidth, bins));
    }
  }

  /** A sequence of zeros sums to zero. */
  lemma {:induction false} ZerosSum(n: nat)
    ensures SumInts(seq(n, _ => 0)) == 0
  {
    if n > 0 {
      assert seq(n, _ => 0)[..n - 1] == seq(n - 1, _ => 0);
      ZerosSum(n - 1);
    }
  }

  /** A sequence of integers none of which is positive has a sum that is not positive. */
  lemma {:induction false} SumIntsNonPositive(s: seq<int>)
    requires forall i :: 0 <= i < |s| ==> s[i] <= 0
    ensures SumInts(s) <= 0
  {
    if s != [] {
      var p := s[..|s| - 1];
      assert forall i :: 0 <= i < |p| ==> p[i] == s[i];
      SumIntsNonPositive(p);
    }
  }

  /** Non-empty data leaves some bin non-empty, so the largest count is positive
      and the bar heights' division by `maxFrequency` is defined. */
  lemma {:induction false} MaxFrequencyPositive(data: seq<real>, min: real, binWidth: real, bins: int)
    requires bins > 1 && |data| > 0
    ensures MaxInt(Counts(data, min, binWidth, bins)) > 0
  {
    var c := Counts(data, min, binWidth, bins);
    CountsSum(data, min, binWidth, bins);
    if forall i :: 0 <= i < |c| ==> c[i] <= 0 {
      SumIntsNonPositive(c);
    }
  }

  /** The counting loop: a fresh `IntArray` of `bins` zeros, incremented once
      per value at that value's bin index. */
  method CountBins(data: seq<real>, min: real, binWidth: real, bins: int) returns (histogram: array<int>)
    requires bins > 1
    ensures fresh(histogram) && histogram.Length == bins
    ensures histogram[..] == Counts(data, min, binWidth, bins)
  {
    histogram := new int[bins](_ => 0);
    assert histogram[..] == Counts([], min, binWidth, bins);
    for i := 0 to |data|
      invariant histogram.Length == bins
      invariant histogram[..] == Counts(data[..i], min, binWidth, bins)
    {
      var b := BinIndex(data[i], min, binWidth, bins);
      assert data[..i + 1][..i] == data[..i];
      histogram[b] := histogram[b] + 1;
    }
    assert data[..|data|] == data;
  }

  /** The bucketing of `Histogram`: the domain, the bin width
      `(max - min) / bins`, one increment per value into a fresh `IntArray` of
      `bins` zeros, and `maxFrequency`, the largest count. */
  method BuildHistogram(data: seq<real>, bins: int, customRange: Option<(real, real)>)
    returns (min: real, binWidth: real, histogram: array<int>, maxFrequency: int)
    requires |data| > 0 && bins > 1
    ensures min == Domain(data, customRange).0
    ensures binWidth == (Domain(data, customRange).1 - min) / bins as real
    ensures fresh(histogram) && histogram.Length == bins
    ensures histogram[..] == Counts(data, min, binWidth, bins)
    ensures maxFrequency == MaxInt(histogram[..]) && maxFrequency > 0
  {
    var domain := Domain(data, customRange);
    min := domain.0;
    var max := domain.1;
    binWidth := (max - min) / bins as real;
    histogram := CountBins(data, min, binWidth, bins);
    maxFrequency := MaxInt(histogram[..]);
    MaxFrequencyPositive(data, min, binWidth, bins);
  }

  // ---------------------------------------------------------------------
  // Bars
  // ---------------------------------------------------------------------

  /** Bar i: left edge `i * barWidth` with `barWidth = width / bins`, width
      `0.9 * barWidth`, height `count / maxFrequency * height * progress`,
      standing on the bottom edge. */
  function Bar(i: int, count: int, maxFrequency: int, bins: int, width: real, height: real, progress: real): Rect
    requires bins > 0 && maxFrequency != 0
  {
    var barWidth := width / bins as real;
    var barHeight := BarHeight(count, maxFrequency, height, progress);
    Rect(i as real * barWidth, height - barHeight, i as real * barWidth + barWidth * 0.9, height)
  }

  /** The height of a bar of `count` values. */
  function BarHeight(count: int, maxFrequency: int, height: real, progress: real): real
    requires maxFrequency != 0
  {
    count as real / maxFrequency as real * height * progress
  }

  /** The bars, one per bin, in bin order. */
  method Bars(histogram: seq<int>, maxFrequency: int, width: real, height: real, progress: real)
    returns (bars: seq<Rect>)
    requires |histogram| > 0 && maxFrequency != 0
    ensures |bars| == |histogram|
    ensures forall i :: 0 <= i < |histogram| ==>
      bars[i] == Bar(i, histogram[i], maxFrequency, |histogram|, width, height, progress)
  {
    bars := [];
    for i := 0 to |histogram|
      invariant |bars| == i
      invariant forall k :: 0 <= k < i ==>
        bars[k] == Bar(k, histogram[k], maxFrequency, |histogram|, width, height, progress)
    {
      bars := bars + [Bar(i, histogram[i], maxFrequency, |histogram|, width, height, progress)];
    }
  }

  /** A bar of count between 0 and maxFrequency is between 0 and
      `height * progress` tall, and the fullest bin's bar is exactly that tall. */
  lemma {:induction false} BarHeightBounds(count: int, maxFrequency: int, height: real, progress: real)
    requires 0 <= count <= maxFrequency && maxFrequency > 0 && height >= 0.0 && progress >= 0.0
    ensures 0.0 <= BarHeight(count, maxFrequency, height, progress) <= height * progress
    ensures count == maxFrequency ==> BarHeight(count, maxFrequency, height, progress) == height * progress
  {
    var f := count as real / maxFrequency as real;
    DivBounds(count as real, maxFrequency as real, 0.0, 1.0);
    ScaledFraction(f, height * progress);
    assert f * height * progress == f * (height * progress);
  }

  /** With a non-negative width, consecutive bars leave a gap: each bar ends
      before the next one starts. */
  lemma {:induction false} BarsDoNotOverlap(i: int, c1: int, c2: int, maxFrequency: int, bins: int,
                         width: real, height: real, progress: real)
    requires bins > 0 && maxFrequency != 0 && width >= 0.0
    ensures Bar(i, c1, maxFrequency, bins, width, height, progress).right
         <= Bar(i + 1, c2, maxFrequency, bins, width, height, progress).left
  {
    var bw := width / bins as real;
    DivNonNegative(width, bins as real);
    assert (i + 1) as real * bw == i as real * bw + bw;
  }

  // ---------------------------------------------------------------------
  // Axis ticks
  // ---------------------------------------------------------------------

  /** A tick: its value and its position along the axis. */
  datatype Tick = Tick(value: real, position: real)

  /** An integer y tick: its value and its position from the top. */
  datatype IntTick = IntTick(value: int, position: real)

  /** X tick i of `0..bins` is drawn when `i % max(bins / 5, 1) == 0` or `i == bins`. */
  predicate XTickShown(i: int, bins: int)
    requires bins > 1 && i >= 0
  {
    i % (if bins / 5 >= 1 then bins / 5 else 1) == 0 || i == bins
  }

  /** X tick i: value `min + binWidth * i` at position `width * i / bins`. */
  function XTick(i: int, min: real, binWidth: real, bins: int, width: real): Tick
    requires bins > 0
  {
    Tick(min + binWidth * i as real, width * i as real / bins as real)
  }

  /** The drawn x ticks among i in `0..k-1`, in increasing i. */
  function ShownXTicks(k: nat, min: real, binWidth: real, bins: int, width: real): seq<Tick>
    requires bins > 1
  {
    if k == 0 then []
    else
      ShownXTicks(k - 1, min, binWidth, bins, width)
        + (if XTickShown(k - 1, bins) then [XTick(k - 1, min, binWidth, bins, width)] else [])
  }

  /** The x-axis labels: the loop over `0..bins`, keeping the drawn ticks. */
  method XTicks(min: real, binWidth: real, bins: int, width: real) returns (ticks: seq<Tick>)
    requires bins > 1
    ensures ticks == ShownXTicks(bins + 1, min, binWidth, bins, width)
  {
    ticks := [];
    for i := 0 to bins + 1
      invariant ticks == ShownXTicks(i, min, binWidth, bins, width)
    {
      if i % (if bins / 5 >= 1 then bins / 5 else 1) == 0 || i == bins {
        ticks := ticks + [XTick(i, min, binWidth, bins, width)];
      }
    }
  }

  /** Every drawn tick comes from some i in range, and i in range is drawn exactly when shown. */
  lemma {:induction false} ShownXTicksContents(k: nat, min: real, binWidth: real, bins: int, width: real)
    requires bins > 1
    ensures forall i :: 0 <= i < k && XTickShown(i, bins) ==>
      XTick(i, min, binWidth, bins, width) in ShownXTicks(k, min, binWidth, bins, width)
    ensures forall t :: t in ShownXTicks(k, min, binWidth, bins, width) ==>
      exists i :: 0 <= i < k && XTickShown(i, bins) && t == XTick(i, min, binWidth, bins, width)
  {
    if k > 0 {
      ShownXTicksContents(k - 1, min, binWidth, bins, width);
    }
  }

  /** The first tick (value min, position 0) and the last (i == bins, at the
      right edge) are always drawn, first and last; with the domain's own bin
      width the last tick's value is max. */
  lemma {:induction false} XTicksEnds(min: real, max: real, bins: int, width: real)
    requires bins > 1
    ensures var ticks := ShownXTicks(bins + 1, min, (max - min) / bins as real, bins, width);
      && |ticks| >= 2
      && ticks[0] == Tick(min, 0.0)
      && ticks[|ticks| - 1] == Tick(max, width)
  {
    var bw := (max - min) / bins as real;
    ShownXTicksFirst(bins + 1, min, bw, bins, width);
    ShownXTicksLength(bins, min, bw, bins, width);
    LastXTick(min, max, bins, width);
  }

  /** With the domain's own bin width, tick `bins` is max at the right edge. */
  lemma {:induction false} LastXTick(min: real, max: real, bins: int, width: real)
    requires bins > 1
    ensures XTick(bins, min, (max - min) / bins as real, bins, width) == Tick(max, width)
  {
    var n := bins as real;
    var bw := (max - min) / n;
    assert bw * n == max - min;
    assert width * n / n == width;
  }

  /** From k >= 1 on, the first drawn tick is tick 0. */
  lemma {:induction false} ShownXTicksFirst(k: nat, min: real, binWidth: real, bins: int, width: real)
    requires bins > 1 && k >= 1
    ensures |ShownXTicks(k, min, binWidth, bins, width)| >= 1
    ensures ShownXTicks(k, min, binWidth, bins, width)[0] == XTick(0, min, binWidth, bins, width)
  {
    if k > 1 {
      ShownXTicksFirst(k - 1, min, binWidth, bins, width);
    }
  }

  /** The drawn ticks among 0..k-1 number at least one for k >= 1. */
  lemma {:induction false} ShownXTicksLength(k: nat, min: real, binWidth: real, bins: int, width: real)
    requires bins > 1 && k >= 1
    ensures |ShownXTicks(k, min, binWidth, bins, width)| >= 1
  {
    ShownXTicksFirst(k, min, binWidth, bins, width);
  }

  /** `Int` division as Kotlin does it: truncate toward zero. */
  function TruncDiv(a: int, b: int): (q: int)
    requires b > 0
    ensures a >= 0 ==> q == a / b
    ensures a < 0 ==> q == -((-a) / b)
  {
    if a >= 0 then a / b else -((-a) / b)
  }

  /** Y tick i of 0..5: the integer `maxFrequency * i / 5` at `height - height * i / 5`. */
  function YTick(i: int, maxFrequency: int, height: real): IntTick
  {
    IntTick(TruncDiv(maxFrequency * i, 5), height - height * i as real / 5.0)
  }

  /** The six y-axis labels, for i in `0..5`. */
  method YTicks(maxFrequency: int, height: real) returns (ticks: seq<IntTick>)
    ensures |ticks| == 6
    ensures forall i :: 0 <= i < 6 ==> ticks[i] == YTick(i, maxFrequency, height)
  {
    ticks := [];
    for i := 0 to 6
      invariant |ticks| == i
      invariant forall k :: 0 <= k < i ==> ticks[k] == YTick(k, maxFrequency, height)
    {
      ticks := ticks + [YTick(i, maxFrequency, height)];
    }
  }

  /** The y labels run from 0 at the bottom edge to maxFrequency at the top,
      never decreasing for a non-negative maxFrequency. */
  lemma {:induction false} YTicksRange(maxFrequency: int, height: real)
    requires maxFrequency >= 0
    ensures YTick(0, maxFrequency, height) == IntTick(0, height)
    ensures YTick(5, maxFrequency, height) == IntTick(maxFrequency, 0.0)
    ensures forall i, j :: 0 <= i <= j ==> YTick(i, maxFrequency, height).value <= YTick(j, maxFrequency, height).value
  {
    forall i, j | 0 <= i <= j
      ensures YTick(i, maxFrequency, height).value <= YTick(j, maxFrequency, height).value
    {
      MulMonotone(maxFrequency, i, j);
      DivMonotone(maxFrequency * i, maxFrequency * j, 5);
    }
  }

  /** Multiplying by a non-negative integer preserves order. */
  lemma {:induction false} MulMonotone(m: int, i: int, j: int)
    requires m >= 0 && 0 <= i <= j
    ensures 0 <= m * i <= m * j
  {
  }

  /** Integer division by a positive number preserves order. */
  lemma {:induction false} DivMonotone(a: int, b: int, d: int)
    requires 0 <= a <= b && d > 0
    ensures a / d <= b / d
  {
    var qa, qb := a / d, b / d;
    assert a == d * qa + a % d && b == d * qb + b % d;
    if qa > qb {
      assert d * qa >= d * (qb + 1) by {
        MulMonotone(d, qb + 1, qa);
      }
      assert false;
    }
  }
}
