# composecharts: a verified model of the chart layout logic

composecharts is a Jetpack Compose chart library: line, bar, pie, radar and
histogram charts, plus an interaction manager and CSV import and export.
This project models the plain-data logic inside those Composables. That
logic turns series of points into the descriptors the canvas receives:
axis ranges, pixel positions, path commands, rectangles, arc spans, bucket
counts, ticks and vertex lists. It also models the series utilities, the
interaction state machine, CSV field quoting and CSV parsing.

Numbers are `real`. The library functions the code calls are parameters of
the members that use them: `sin`, `cos`, `atan2`, `sqrt`, `toRadians`,
`Offset.getDistance`, `Float.toString` and `String.toFloat`. String parsing
is `string -> Option<real>`, where `None` stands for a
`NumberFormatException`. The animation progress is an input. The canvas
size and the tap position are inputs too.

One module per Kotlin file:

- `ChartData`: the value types.
- `ChartUtilities`, `Histogram`, `PieChart`, `LineChart`, `BarChart`,
  `RadarChart`: the layout code.
- `ChartInteraction`: a class with the five mutable fields.
- `ExportUtils` and `DataAdapter`: CSV handling.

Shared helpers live in `Numbers`, `Geometry`, `Strings` and `Wrappers`.

Loops in the source are methods with loop invariants in the model. Each
method is proved against a specification function, and the properties of
those functions are proved as lemmas. This covers:

- the smoothing, regression, counting, layout and search loops;
- the CSV export loop;
- the parsing loops.

Every lemma that works by induction carries `{:induction false}` and
gives its inductive step explicitly.

Several divisions are not guarded in the source, so the members that
perform them have a precondition excluding a zero divisor:

- `xMax - xMin` and `yMax - yMin` in the line and bar charts;
- the pie `total`;
- the radar `calculatedMaxValue`;
- the histogram `maxFrequency`;
- the regression denominator.

For the histogram, `maxFrequency` is proved positive for the non-empty
data the chart requires.

## Model

| member | source | states |
|---|---|---|
| ChartData.AllPoints | app/src/main/java/com/touzalab/composecharts/components/LineChart.kt:86 | every point of every series is in the flattened list, and every element of it comes from some series; `AllPointsConcat` and `AllPointsLayout` give the order and the multiplicity |
| ChartData.AllPointsConcat | app/src/main/java/com/touzalab/composecharts/components/LineChart.kt:86 | flattening two lists of series one after the other gives the first flattening followed by the second |
| ChartData.AllPointsLayout | app/src/main/java/com/touzalab/composecharts/components/LineChart.kt:86 | point j of series k sits at index (points of the series before k) + j of the flattened list: series-major order, every occurrence kept |
| ChartData.Labels | app/src/main/java/com/touzalab/composecharts/components/BarChart.kt:73 | the labels of the points, one per point, in order |
| ChartData.MinY | app/src/main/java/com/touzalab/composecharts/components/BarChart.kt:74 | no points give 0; otherwise a y of some point that is at most every y |
| ChartData.MaxY | app/src/main/java/com/touzalab/composecharts/components/BarChart.kt:75 | no points give 0; otherwise a y of some point that is at least every y |
| ChartData.FindByLabel | app/src/main/java/com/touzalab/composecharts/components/RadarChart.kt:158 | none exactly when no point has the label; otherwise the point at the first position holding it |
| Numbers.Min | app/src/main/java/com/touzalab/composecharts/utils/ChartUtilities.kt:74 | an element of the list that is at most every element |
| Numbers.Sum | app/src/main/java/com/touzalab/composecharts/utils/ChartUtilities.kt:76 | Kotlin `sum()` folded from the left, 0 for no values; `SumAppend`, `SumBounds` and `SumNonNegative` prove its properties, and the pie `total` and the statistics use it |
| Numbers.Max | app/src/main/java/com/touzalab/composecharts/utils/ChartUtilities.kt:75 | an element of the list that is at least every element |
| Numbers.MaxInt | app/src/main/java/com/touzalab/composecharts/components/Histogram.kt:74 | an element of the integer list that is at least every element |
| Numbers.Trunc | app/src/main/java/com/touzalab/composecharts/components/Histogram.kt:70 | `toInt()` rounds toward zero: the integer within one of r on r's side of zero |
| Numbers.ClampInt | app/src/main/java/com/touzalab/composecharts/components/Histogram.kt:70 | `coerceIn`: the result lies in [lo, hi], equals v inside, lo below and hi above |
| Numbers.ClampReal | app/src/main/java/com/touzalab/composecharts/interaction/ChartInteractionManager.kt:57 | `coerceIn` on reals: in [lo, hi], v inside, lo below, hi above |
| Strings.Split | app/src/main/java/com/touzalab/composecharts/data/DataAdapter.kt:58 | `split(",")` gives at least one piece and no piece holds the delimiter |
| Strings.Join | app/src/main/java/com/touzalab/composecharts/export/ExportUtils.kt:118 | `joinToString(sep)`: the parts with sep between neighbours, nothing for no parts; `JoinSplit` proves it undoes `Split` |
| Strings.JoinSplit | app/src/main/java/com/touzalab/composecharts/data/DataAdapter.kt:58 | joining the pieces of a split with the delimiter gives back the line |
| Strings.SplitCount | app/src/main/java/com/touzalab/composecharts/data/DataAdapter.kt:58 | a line splits into one more piece than it has delimiters |
| Strings.Trim | app/src/main/java/com/touzalab/composecharts/data/DataAdapter.kt:58 | `trim()` is the slice of s between its leading and trailing whitespace, and it neither starts nor ends with whitespace; an all-blank line trims to "" |
| Strings.TrimIdempotent | app/src/main/java/com/touzalab/composecharts/data/DataAdapter.kt:58 | trimming a trimmed field changes nothing |
| Strings.IsWhitespace | app/src/main/java/com/touzalab/composecharts/data/DataAdapter.kt:63 | `Char.isWhitespace()`: the control characters U+0009-U+000D and U+001C-U+001F, and the Unicode space separators; `Trim` strips exactly these |
| ChartUtilities.GenerateSeries | app/src/main/java/com/touzalab/composecharts/utils/ChartUtilities.kt:30-42 | name and colour pass through; the y values are the inputs in order; point i has x = startX + i*stepX and its printed x as label; startX defaults to 0 and stepX to 1 |
| ChartUtilities.GeneratedSpacing | app/src/main/java/com/touzalab/composecharts/utils/ChartUtilities.kt:30-35 | consecutive generated points are stepX apart |
| ChartUtilities.GeneratedDefaults | app/src/main/java/com/touzalab/composecharts/utils/ChartUtilities.kt:27-35 | with the default startX = 0 and stepX = 1, point i has x = i |
| ChartUtilities.GeneratePieSegments | app/src/main/java/com/touzalab/composecharts/utils/ChartUtilities.kt:56-62 | one segment per entry, in order, with the entry's key and value and colour `colors[i % colors.size]`; the colour list must be non-empty when there are entries |
| ChartUtilities.Insert | app/src/main/java/com/touzalab/composecharts/utils/ChartUtilities.kt:79 | inserting into a sorted list keeps it sorted and adds exactly that element |
| ChartUtilities.SortAscending | app/src/main/java/com/touzalab/composecharts/utils/ChartUtilities.kt:79 | `sorted()` is sorted and a permutation of its input |
| ChartUtilities.SortedWithinBounds | app/src/main/java/com/touzalab/composecharts/utils/ChartUtilities.kt:79-84 | every element of the sorted copy lies between the minimum and the maximum |
| ChartUtilities.Mean | app/src/main/java/com/touzalab/composecharts/utils/ChartUtilities.kt:76-77 | the mean lies between the minimum and the maximum |
| ChartUtilities.MeanBounds | app/src/main/java/com/touzalab/composecharts/utils/ChartUtilities.kt:76-77 | sum / size lies between the minimum and the maximum |
| ChartUtilities.Median | app/src/main/java/com/touzalab/composecharts/utils/ChartUtilities.kt:79-84 | the median, the middle element or the mean of the two middle ones, lies between the minimum and the maximum |
| ChartUtilities.SquaredDeviations | app/src/main/java/com/touzalab/composecharts/utils/ChartUtilities.kt:86 | one squared deviation from the mean per value, in order |
| ChartUtilities.Variance | app/src/main/java/com/touzalab/composecharts/utils/ChartUtilities.kt:86 | the population variance is never negative |
| ChartUtilities.VarianceNonNegative | app/src/main/java/com/touzalab/composecharts/utils/ChartUtilities.kt:86 | the sum of squared deviations divided by the count is never negative |
| ChartUtilities.CalculateStatistics | app/src/main/java/com/touzalab/composecharts/utils/ChartUtilities.kt:71-96 | empty input gives the empty map, and only it does; otherwise exactly the five keys, min and max are values that bound all values, mean and median lie between them, and stdDev is sqrt of the population variance |
| ChartUtilities.StatisticsMap | app/src/main/java/com/touzalab/composecharts/utils/ChartUtilities.kt:89-95 | the result map has exactly the five keys, each bound to its statistic |
| ChartUtilities.WindowYs | app/src/main/java/com/touzalab/composecharts/utils/ChartUtilities.kt:123-124 | the w y values starting at lo, in order |
| ChartUtilities.SmoothSeries | app/src/main/java/com/touzalab/composecharts/utils/ChartUtilities.kt:105-147 | windowSize, 3 by default, <= 1 or too few points return the series itself; otherwise the name gains " (lissé)", the colour and length are kept, every x and label is kept, and point i is the head/tail point or the window mean |
| ChartUtilities.SmoothedAt | app/src/main/java/com/touzalab/composecharts/utils/ChartUtilities.kt:113-140 | point i of the smoothed list: the original point among the first and the last windowSize/2, otherwise the window mean with the original x and label; `SmoothedKept`, `SmoothedAveraged` and `SmoothingStaysInRange` prove its properties |
| ChartUtilities.SmoothedKept | app/src/main/java/com/touzalab/composecharts/utils/ChartUtilities.kt:115-118 | the first and the last windowSize/2 points are kept unchanged |
| ChartUtilities.SmoothedAveraged | app/src/main/java/com/touzalab/composecharts/utils/ChartUtilities.kt:121-134 | an interior point keeps its x and label and takes the window sum divided by windowSize as y |
| ChartUtilities.SmoothedExtend | app/src/main/java/com/touzalab/composecharts/utils/ChartUtilities.kt:113-140 | appending the smoothed point i to the first i smoothed points gives the first i + 1 |
| ChartUtilities.WindowSum | app/src/main/java/com/touzalab/composecharts/utils/ChartUtilities.kt:122-125 | the inner loop sums the y values of the window starting at i - w/2 |
| ChartUtilities.SmoothingStaysInRange | app/src/main/java/com/touzalab/composecharts/utils/ChartUtilities.kt:121-140 | every smoothed y lies between the smallest and the largest original y |
| ChartUtilities.SmoothingConstantSeries | app/src/main/java/com/touzalab/composecharts/utils/ChartUtilities.kt:113-140 | smoothing a series of equal y values leaves every point unchanged |
| ChartUtilities.XYs | app/src/main/java/com/touzalab/composecharts/utils/ChartUtilities.kt:167 | the products x*y, one per point, in order |
| ChartUtilities.XSquares | app/src/main/java/com/touzalab/composecharts/utils/ChartUtilities.kt:168 | the squares x*x, one per point, in order |
| ChartUtilities.SumsStep | app/src/main/java/com/touzalab/composecharts/utils/ChartUtilities.kt:164-169 | one more point adds its x, y, x*y and x*x to the four sums |
| ChartUtilities.RunningSums | app/src/main/java/com/touzalab/composecharts/utils/ChartUtilities.kt:159-169 | the loop leaves the sums of x, y, x*y and x*x over all points |
| ChartUtilities.Denominator | app/src/main/java/com/touzalab/composecharts/utils/ChartUtilities.kt:171 | n*sumX2 - sumX*sumX over the points; zero when all x are equal (`EqualXsDegenerate`), and the divisor of `Slope` |
| ChartUtilities.Slope | app/src/main/java/com/touzalab/composecharts/utils/ChartUtilities.kt:171 | the least-squares slope (n*sumXY - sumX*sumY)/denominator over the points; it is a for points on y = a*x + b (`RegressionRecoversLine`) |
| ChartUtilities.Intercept | app/src/main/java/com/touzalab/composecharts/utils/ChartUtilities.kt:172 | (sumY - slope*sumX)/n over the points; it is b for points on y = a*x + b and slope a (`RegressionRecoversLine`) |
| ChartUtilities.Fitted | app/src/main/java/com/touzalab/composecharts/utils/ChartUtilities.kt:180-185 | the fitted line slope*x + intercept, which `LinearRegression` evaluates at the smallest and the largest x |
| ChartUtilities.ClosedFormIsRegression | app/src/main/java/com/touzalab/composecharts/utils/ChartUtilities.kt:171-172 | for sums equal to the points' sums the denominator is non-zero and the closed-form slope and intercept are the points' regression slope and intercept |
| ChartUtilities.LinearRegression | app/src/main/java/com/touzalab/composecharts/utils/ChartUtilities.kt:155-195 | fewer than two points return the series; otherwise "Régression (name)", colour at alpha 0.7, and exactly two points "Début" and "Fin" on the fitted line at the smallest and the largest x |
| ChartUtilities.CollinearSums | app/src/main/java/com/touzalab/composecharts/utils/ChartUtilities.kt:164-169 | the sums of points on y = a*x + b satisfy the line's two sum equations |
| ChartUtilities.SlopeOfLineSums | app/src/main/java/com/touzalab/composecharts/utils/ChartUtilities.kt:171 | the closed-form slope of such sums is a |
| ChartUtilities.InterceptOfLineSums | app/src/main/java/com/touzalab/composecharts/utils/ChartUtilities.kt:172 | the closed-form intercept of such sums for slope a is b |
| ChartUtilities.RegressionRecoversLine | app/src/main/java/com/touzalab/composecharts/utils/ChartUtilities.kt:171-172 | points already on y = a*x + b give back slope a and intercept b |
| ChartUtilities.EqualXsDegenerate | app/src/main/java/com/touzalab/composecharts/utils/ChartUtilities.kt:171 | when all x are equal the denominator is zero, the case the unguarded division does not handle |
| Histogram.Domain | app/src/main/java/com/touzalab/composecharts/components/Histogram.kt:62-63 | the custom range when given; otherwise the data's minimum and maximum, which bound every value |
| Histogram.BinIndex | app/src/main/java/com/touzalab/composecharts/components/Histogram.kt:70 | the bin index always lies in [0, bins - 1] |
| Histogram.BinContainsValue | app/src/main/java/com/touzalab/composecharts/components/Histogram.kt:70 | a value in [min + b*w, min + (b+1)*w) falls into bin b |
| Histogram.BelowDomainFirstBin | app/src/main/java/com/touzalab/composecharts/components/Histogram.kt:70 | values below the domain are clamped into bin 0, not dropped |
| Histogram.MaxInLastBin | app/src/main/java/com/touzalab/composecharts/components/Histogram.kt:66-70 | with the domain's bin width the maximum, and anything above it, lands in the last bin, not at index bins |
| Histogram.ZeroWidthBins | app/src/main/java/com/touzalab/composecharts/components/Histogram.kt:66-70 | with a zero bin width values at or below min go to bin 0 and values above it to the last bin |
| Histogram.BinsOf | app/src/main/java/com/touzalab/composecharts/components/Histogram.kt:69-70 | the bin of every value, in data order |
| Histogram.Counts | app/src/main/java/com/touzalab/composecharts/components/Histogram.kt:67-72 | exactly bins counts, none negative |
| Histogram.CountsAreOccurrences | app/src/main/java/com/touzalab/composecharts/components/Histogram.kt:69-72 | bin b counts exactly the values whose bin index is b |
| Histogram.CountsSum | app/src/main/java/com/touzalab/composecharts/components/Histogram.kt:69-72 | the counts add up to the number of values |
| Histogram.MaxFrequencyPositive | app/src/main/java/com/touzalab/composecharts/components/Histogram.kt:74 | for non-empty data the largest count is positive, so the bar division is defined |
| Histogram.BarHeight | app/src/main/java/com/touzalab/composecharts/components/Histogram.kt:111 | count/maxFrequency*height*progress; `BarHeightBounds` puts it in [0, height*progress] and the fullest bin at the top |
| Histogram.Bar | app/src/main/java/com/touzalab/composecharts/components/Histogram.kt:109-117 | bar i: left edge i*(width/bins), width 0.9 of that, height `BarHeight`, on the bottom edge; `BarsDoNotOverlap` proves consecutive bars apart |
| Histogram.CountBins | app/src/main/java/com/touzalab/composecharts/components/Histogram.kt:67-72 | a fresh array of bins entries, incremented once per value at its bin |
| Histogram.BuildHistogram | app/src/main/java/com/touzalab/composecharts/components/Histogram.kt:62-74 | min and binWidth = (max - min)/bins from the domain, the fresh counted array, and maxFrequency as its largest entry, positive |
| Histogram.Bars | app/src/main/java/com/touzalab/composecharts/components/Histogram.kt:109-117 | one bar per bin, in order: left edge i*barWidth, width 0.9*barWidth, height count/maxFrequency*height*progress, on the bottom edge |
| Histogram.BarHeightBounds | app/src/main/java/com/touzalab/composecharts/components/Histogram.kt:111 | bar heights lie in [0, height*progress], and the fullest bin reaches the top |
| Histogram.BarsDoNotOverlap | app/src/main/java/com/touzalab/composecharts/components/Histogram.kt:109-117 | each bar ends no later than the next one starts |
| Histogram.XTick | app/src/main/java/com/touzalab/composecharts/components/Histogram.kt:121-122 | tick i: value min + binWidth*i at x = width*i/bins; `LastXTick` puts tick bins at max on the right edge |
| Histogram.XTickShown | app/src/main/java/com/touzalab/composecharts/components/Histogram.kt:124 | tick i is drawn when i % max(bins/5, 1) == 0 or i == bins |
| Histogram.ShownXTicks | app/src/main/java/com/touzalab/composecharts/components/Histogram.kt:120-124 | the drawn ticks among 0..k-1, in order; `ShownXTicksContents` proves it holds exactly the selected ones |
| Histogram.XTicks | app/src/main/java/com/touzalab/composecharts/components/Histogram.kt:121-125 | the loop over 0..bins keeps exactly the drawn ticks, in order |
| Histogram.ShownXTicksContents | app/src/main/java/com/touzalab/composecharts/components/Histogram.kt:121-125 | the drawn ticks are exactly the ticks i < k selected by i % max(bins/5, 1) == 0 or i == bins, each at its own position |
| Histogram.XTicksEnds | app/src/main/java/com/touzalab/composecharts/components/Histogram.kt:121-125 | at least two ticks are drawn; the first is min at 0 and the last is max at the right edge |
| Histogram.LastXTick | app/src/main/java/com/touzalab/composecharts/components/Histogram.kt:122-123 | with the domain's bin width tick bins is max at the right edge |
| Histogram.ShownXTicksFirst | app/src/main/java/com/touzalab/composecharts/components/Histogram.kt:125 | tick 0 is always drawn first |
| Histogram.ShownXTicksLength | app/src/main/java/com/touzalab/composecharts/components/Histogram.kt:125 | at least one tick is drawn |
| Histogram.TruncDiv | app/src/main/java/com/touzalab/composecharts/components/Histogram.kt:142 | Kotlin `Int` division truncates toward zero |
| Histogram.YTick | app/src/main/java/com/touzalab/composecharts/components/Histogram.kt:141-142 | tick i: the label maxFrequency*i/5 in Kotlin integer division at height - height*i/5; `YTicksRange` proves the labels run from 0 to maxFrequency |
| Histogram.YTicks | app/src/main/java/com/touzalab/composecharts/components/Histogram.kt:140-143 | six y ticks, tick i being maxFrequency*i/5 in integers at height - height*i/5 |
| Histogram.YTicksRange | app/src/main/java/com/touzalab/composecharts/components/Histogram.kt:142-143 | the y labels go from 0 at the bottom to maxFrequency at the top, never decreasing |
| PieChart.Values | app/src/main/java/com/touzalab/composecharts/components/PieChart.kt:52 | the segment values, in order |
| PieChart.Total | app/src/main/java/com/touzalab/composecharts/components/PieChart.kt:52 | the sum of the segment values |
| PieChart.Sweep | app/src/main/java/com/touzalab/composecharts/components/PieChart.kt:130 | value/total*360*progress; `FullCircle` proves the sweeps at progress 1 add up to 360 |
| PieChart.Sweeps | app/src/main/java/com/touzalab/composecharts/components/PieChart.kt:130 | one sweep value/total*360*progress per segment, in order |
| PieChart.StartAngle | app/src/main/java/com/touzalab/composecharts/components/PieChart.kt:185 | arc i starts at the sum of the sweeps before it; `StartAngleStep` and `StartMonotone` prove its steps |
| PieChart.StartAngleStep | app/src/main/java/com/touzalab/composecharts/components/PieChart.kt:185 | arc i + 1 starts where arc i ends |
| PieChart.StartMonotone | app/src/main/java/com/touzalab/composecharts/components/PieChart.kt:185 | with non-negative sweeps a later arc never starts before an earlier one |
| PieChart.FullCircle | app/src/main/java/com/touzalab/composecharts/components/PieChart.kt:129-130 | at progress 1 the sweeps add up to 360 |
| PieChart.InnerRadius | app/src/main/java/com/touzalab/composecharts/components/PieChart.kt:123 | radius*donutRatio for a donut, 0 otherwise |
| PieChart.TextRadius | app/src/main/java/com/touzalab/composecharts/components/PieChart.kt:162-166 | midway between the hole and the rim for a donut, 0.7*radius otherwise; `LabelsOnRing` bounds it |
| PieChart.Percentage | app/src/main/java/com/touzalab/composecharts/components/PieChart.kt:156 | value/total*100 |
| PieChart.ShownLabels | app/src/main/java/com/touzalab/composecharts/components/PieChart.kt:155-183 | the percentage labels of the first k segments, added when percentages are on and the sweep exceeds 15 degrees; `ShownLabelsSound`, `ShownLabelsComplete` and `ShownLabelsOrdered` prove it |
| PieChart.LabelAt | app/src/main/java/com/touzalab/composecharts/components/PieChart.kt:156-170 | the label of segment i: value/total*100, at the middle angle start + sweep/2 of its animated arc, textRadius from the centre along that angle; `ShownLabelsStep` proves it is what each wide arc adds |
| PieChart.LabelsOnRing | app/src/main/java/com/touzalab/composecharts/components/PieChart.kt:162-166 | with donutRatio in [0, 1], 0 <= inner radius <= label radius <= radius |
| PieChart.ShownLabelsSound | app/src/main/java/com/touzalab/composecharts/components/PieChart.kt:155 | every drawn percentage belongs to a segment whose animated sweep exceeds 15 degrees, with percentages on |
| PieChart.ShownLabelsComplete | app/src/main/java/com/touzalab/composecharts/components/PieChart.kt:155 | every such segment gets its percentage |
| PieChart.ShownLabelsOrdered | app/src/main/java/com/touzalab/composecharts/components/PieChart.kt:129-186 | the percentages are drawn in segment order |
| PieChart.ShownLabelsStep | app/src/main/java/com/touzalab/composecharts/components/PieChart.kt:155-183 | segment i adds its label, at the arc's middle angle and value/total*100, exactly when its arc is wide enough |
| PieChart.DrawSegments | app/src/main/java/com/touzalab/composecharts/components/PieChart.kt:126-186 | arc i starts at the sum of the earlier sweeps and sweeps its own share; the labels are the shown ones |
| PieChart.LayoutPie | app/src/main/java/com/touzalab/composecharts/components/PieChart.kt:122-186 | the same, with the centre, the radius, the hole and the label radius taken from the canvas size |
| PieChart.ArcsAreContiguous | app/src/main/java/com/touzalab/composecharts/components/PieChart.kt:185 | consecutive arcs of the layout touch |
| PieChart.TapAngle | app/src/main/java/com/touzalab/composecharts/components/PieChart.kt:105-106 | atan2 in degrees, 360 added when negative; `TapAngleRange` proves it in [0, 360) |
| PieChart.Contains | app/src/main/java/com/touzalab/composecharts/components/PieChart.kt:111-112 | the closed interval [start, start + sweep] of arc i holds the angle |
| PieChart.StrictlyInside | app/src/main/java/com/touzalab/composecharts/components/PieChart.kt:111-112 | the open interval (start, start + sweep) of arc i holds the angle |
| PieChart.TapAngleRange | app/src/main/java/com/touzalab/composecharts/components/PieChart.kt:105-106 | the tap angle lies in [0, 360) |
| PieChart.TapRadius | app/src/main/java/com/touzalab/composecharts/components/PieChart.kt:98 | the tap radius: half the smaller integer side, in integer division |
| PieChart.InRing | app/src/main/java/com/touzalab/composecharts/components/PieChart.kt:103 | a tap at distance d is on the pie when d <= radius and, for a donut, d >= radius*donutRatio; `HandleTap` keeps the selection whenever it fails |
| PieChart.SegmentAtAngle | app/src/main/java/com/touzalab/composecharts/components/PieChart.kt:109-117 | none exactly when no closed interval [start, start + sweep] over the unanimated sweeps holds the angle; otherwise the first one that does; with non-negative sweeps an angle strictly inside arc i selects arc i |
| PieChart.StrictlyInsideIsFirst | app/src/main/java/com/touzalab/composecharts/components/PieChart.kt:109-117 | with non-negative sweeps an angle strictly inside arc i lies in arc i and in no earlier arc, so arc i is the one the loop picks |
| PieChart.TapAlwaysHits | app/src/main/java/com/touzalab/composecharts/components/PieChart.kt:109-117 | with non-negative values and a positive total every angle in [0, 360) lies in some arc |
| PieChart.HandleTap | app/src/main/java/com/touzalab/composecharts/components/PieChart.kt:93-118 | a tap outside the ring, or at an angle no arc holds, keeps the selection; otherwise the first arc holding it is selected |
| PieChart.HighlightArc | app/src/main/java/com/touzalab/composecharts/components/PieChart.kt:189-206 | none exactly when the selected segment is not in the list; otherwise the unanimated arc of the first segment equal to it |
| LineChart.XRange | app/src/main/java/com/touzalab/composecharts/components/LineChart.kt:86-88 | (0, 0) for no points; otherwise an x of some point that bounds all x from below and one that bounds them from above |
| LineChart.YRange | app/src/main/java/com/touzalab/composecharts/components/LineChart.kt:88-92 | the override when given; otherwise the bottom is 0 for a fill and the smallest y if not, and the top is the largest y plus 10% of its distance from the bottom; `YRangeCoversPoints` and `YRangeOverride` prove it |
| LineChart.YRangeCoversPoints | app/src/main/java/com/touzalab/composecharts/components/LineChart.kt:89-93 | without an override every point lies between the bounds and the top is the largest y plus 10% of its distance from the bottom; a filled chart needs non-negative values |
| LineChart.YRangeOverride | app/src/main/java/com/touzalab/composecharts/components/LineChart.kt:89-90 | with an override both bounds come from it unchanged |
| LineChart.ToPixel | app/src/main/java/com/touzalab/composecharts/components/LineChart.kt:182-183 | ((x - xMin)/(xMax - xMin)*width, height - (y - yMin)/(yMax - yMin)*height*progress); `PixelInsideCanvas` and `ProgressZeroOnBaseline` prove it |
| LineChart.PixelAt | app/src/main/java/com/touzalab/composecharts/components/LineChart.kt:193-211 | the mapped position of point i of a series, `ToPixel` of it; `Segments` and `LineVisitsEveryPoint` place every command on it |
| LineChart.ProgressZeroOnBaseline | app/src/main/java/com/touzalab/composecharts/components/LineChart.kt:182-183 | at progress 0 every vertex is on the baseline |
| LineChart.PixelInsideCanvas | app/src/main/java/com/touzalab/composecharts/components/LineChart.kt:182-183 | a point inside the ranges maps inside the canvas, its height scaled by progress |
| LineChart.TapToChart | app/src/main/java/com/touzalab/composecharts/components/LineChart.kt:129-130 | (xMin + tapX/width*(xMax - xMin), yMax - tapY/height*(yMax - yMin)); `TapToChartRoundTrip` proves it the inverse of `ToPixel` at progress 1 |
| LineChart.TapToChartRoundTrip | app/src/main/java/com/touzalab/composecharts/components/LineChart.kt:129-130 | mapping the tap's chart coordinates back to pixels gives the tap |
| LineChart.Segment | app/src/main/java/com/touzalab/composecharts/components/LineChart.kt:190-215 | a cubic with controls a third and two thirds along the horizontal extent, at the previous and the current height, in smooth mode; a line to the current point otherwise; `ControlPointsTrisect` proves the controls |
| LineChart.Segments | app/src/main/java/com/touzalab/composecharts/components/LineChart.kt:189-215 | one command per later point, in order, drawing from the previous mapped point to the current one |
| LineChart.BuildPaths | app/src/main/java/com/touzalab/composecharts/components/LineChart.kt:178-224 | the line is moveTo(point 0) and the segments; the fill starts at point 0's foot, repeats them, and with fillArea drops to the last point's foot and closes |
| LineChart.LineVisitsEveryPoint | app/src/main/java/com/touzalab/composecharts/components/LineChart.kt:185-215 | command i of the line ends on mapped point i, and it is a cubic exactly in smooth mode |
| LineChart.ControlPointsTrisect | app/src/main/java/com/touzalab/composecharts/components/LineChart.kt:199-204 | the control points split the segment's horizontal extent in thirds, at the previous and the current height |
| LineChart.BuildAllPaths | app/src/main/java/com/touzalab/composecharts/components/LineChart.kt:173-175 | a series gets paths exactly when it has at least two points, and its line has one command per point, starting with moveTo |
| LineChart.Pow | app/src/main/java/com/touzalab/composecharts/components/LineChart.kt:457-461 | the repeat-multiply loop computes x to the n |
| LineChart.PowerTwo | app/src/main/java/com/touzalab/composecharts/components/LineChart.kt:143 | `pow(2)` is x*x |
| LineChart.DistanceTo | app/src/main/java/com/touzalab/composecharts/components/LineChart.kt:139-144 | sqrt of the squared horizontal plus the squared vertical distance from the tap to point p of series s mapped at progress 1; `TapDistance` states it |
| LineChart.TapDistance | app/src/main/java/com/touzalab/composecharts/components/LineChart.kt:139-144 | the distance from the tap to a point mapped at full progress |
| LineChart.SearchSeries | app/src/main/java/com/touzalab/composecharts/components/LineChart.kt:138-151 | after the points of one series the search state covers them; the best distance never grows, and the best either stays or becomes a point of this series under 30 pixels at its own distance |
| LineChart.SearchTake | app/src/main/java/com/touzalab/composecharts/components/LineChart.kt:146-150 | a strictly nearer point under 30 pixels becomes the best |
| LineChart.SearchKeep | app/src/main/java/com/touzalab/composecharts/components/LineChart.kt:146 | any other point keeps the best |
| LineChart.NextSeries | app/src/main/java/com/touzalab/composecharts/components/LineChart.kt:137-138 | finishing one series is starting the next |
| LineChart.NearestPoint | app/src/main/java/com/touzalab/composecharts/components/LineChart.kt:133-152 | none exactly when every point is 30 pixels away or more; otherwise a point under 30 pixels, at most as far as every point, strictly nearer than every point before it in series-major order, with its series; the search starts with the best distance at `FloatMax`, the value of `Float.MAX_VALUE` (components/LineChart.kt:135) |
| LineChart.HandleTap | app/src/main/java/com/touzalab/composecharts/components/LineChart.kt:122-161 | tooltips off leave the state; otherwise a point within 30 pixels is selected with the tooltip at the tap, or both are cleared when none is |
| BarChart.Distinct | app/src/main/java/com/touzalab/composecharts/components/BarChart.kt:73 | `distinct()` holds the same labels as its input, each once |
| BarChart.DistinctKeepsFirstOccurrenceOrder | app/src/main/java/com/touzalab/composecharts/components/BarChart.kt:73 | the distinct labels come in the order of their first occurrence |
| BarChart.XLabels | app/src/main/java/com/touzalab/composecharts/components/BarChart.kt:73 | the distinct labels of all points; `XLabelsAreLabels` proves every point label is one and every one is a point label |
| BarChart.XLabelsAreLabels | app/src/main/java/com/touzalab/composecharts/components/BarChart.kt:73 | every point's label is a category and every category is some point's label |
| BarChart.YRange | app/src/main/java/com/touzalab/composecharts/components/BarChart.kt:74-75 | the override when given; otherwise the smallest and largest y, which bound every point, with no headroom, or (0, 0) |
| BarChart.Spacing | app/src/main/java/com/touzalab/composecharts/components/BarChart.kt:123 | width*0.1/n |
| BarChart.GroupWidth | app/src/main/java/com/touzalab/composecharts/components/BarChart.kt:124 | (width - (n + 1)*spacing)/n; `GroupsTileWidth` proves the groups and gaps fill the width |
| BarChart.GroupLeft | app/src/main/java/com/touzalab/composecharts/components/BarChart.kt:127 | spacing + i*(groupWidth + spacing); `GroupLeftOf` and `GroupsTileWidth` prove it |
| BarChart.GroupLeftOf | app/src/main/java/com/touzalab/composecharts/components/BarChart.kt:127 | the loop's xPos is the left edge of group i |
| BarChart.GroupsTileWidth | app/src/main/java/com/touzalab/composecharts/components/BarChart.kt:123-127 | groups and gaps alternate and n groups with n + 1 gaps fill the width exactly |
| BarChart.Heights | app/src/main/java/com/touzalab/composecharts/components/BarChart.kt:132-137 | one optional bar per series, in series order |
| BarChart.BarHeight | app/src/main/java/com/touzalab/composecharts/components/BarChart.kt:137 | y/(yMax - yMin)*height*progress |
| BarChart.SeriesBar | app/src/main/java/com/touzalab/composecharts/components/BarChart.kt:133-137 | the first point with the label gives the bar y/(yMax - yMin)*height*progress; no such point gives no bar |
| BarChart.BarOf | app/src/main/java/com/touzalab/composecharts/components/BarChart.kt:134-137 | `points.find { it.label == key }`: the bar height of the series' first point with the label, or no bar when none has it; `SeriesBar` proves it |
| BarChart.StackStep | app/src/main/java/com/touzalab/composecharts/components/BarChart.kt:136-153 | a series with a bar puts it on top of the stack and raises the offset by its height; one without changes nothing |
| BarChart.StackOffset | app/src/main/java/com/touzalab/composecharts/components/BarChart.kt:131-152 | the yOffset after series 0 to k - 1: the sum of the heights of those that draw a bar, 0 when none does; `StackStep` and `StackWithoutBars` prove its steps |
| BarChart.StackedGroup | app/src/main/java/com/touzalab/composecharts/components/BarChart.kt:129-154 | the stacking loop builds the stack of the series' bars |
| BarChart.StackIsContiguous | app/src/main/java/com/touzalab/composecharts/components/BarChart.kt:131-153 | the first stacked bar rests on the baseline, each later bar's bottom is the previous bar's top, and every bar spans the group |
| BarChart.StackWithoutBars | app/src/main/java/com/touzalab/composecharts/components/BarChart.kt:136 | a stack without bars has no offset |
| BarChart.StackedRects | app/src/main/java/com/touzalab/composecharts/components/BarChart.kt:131-153 | the stacked bars of the first k series, each put on the previous ones, spanning the group; `StackIsContiguous` proves them contiguous |
| BarChart.GroupStep | app/src/main/java/com/touzalab/composecharts/components/BarChart.kt:163-170 | a series with a bar adds it in its own slice; one without adds nothing |
| BarChart.SliceLeft | app/src/main/java/com/touzalab/composecharts/components/BarChart.kt:166-168 | the left edge xPos + s*barWidth of slice s of a group; `GroupedBarsDoNotOverlap` proves the slices disjoint inside the group |
| BarChart.GroupedRects | app/src/main/java/com/touzalab/composecharts/components/BarChart.kt:157-170 | the grouped bars of the first k series, bar k in slice k; `GroupedBarsDoNotOverlap` proves them disjoint |
| BarChart.GroupedGroup | app/src/main/java/com/touzalab/composecharts/components/BarChart.kt:155-180 | the grouped loop builds the series' bars in slices groupWidth/nSeries wide |
| BarChart.GroupedBarsDoNotOverlap | app/src/main/java/com/touzalab/composecharts/components/BarChart.kt:157-170 | grouped bars stand on the baseline, are one slice wide, stay in the group and never overlap |
| BarChart.StackedMatchesGrouped | app/src/main/java/com/touzalab/composecharts/components/BarChart.kt:129-180 | both layouts draw one bar per series that has the label, in series order, with the same heights, `PresentHeights` |
| BarChart.PresentHeights | app/src/main/java/com/touzalab/composecharts/components/BarChart.kt:134-137 | the heights of the series that have a bar, in series order |
| BarChart.BarsUpTo | app/src/main/java/com/touzalab/composecharts/components/BarChart.kt:126-181 | the groups of the first i categories, concatenated; `BarsUpToStep` proves each appends its group |
| BarChart.GroupBars | app/src/main/java/com/touzalab/composecharts/components/BarChart.kt:129-180 | the bars of one category: the stacked rectangles of all series in stacked mode, otherwise the grouped ones in slices groupWidth/nSeries wide; `StackedMatchesGrouped` proves the two alike |
| BarChart.BarsUpToStep | app/src/main/java/com/touzalab/composecharts/components/BarChart.kt:126-127 | each category appends its group at its own left edge |
| BarChart.VerticalBars | app/src/main/java/com/touzalab/composecharts/components/BarChart.kt:117-183 | the bar rectangles are the groups of all categories, in order |
| BarChart.DrawGrid | app/src/main/java/com/touzalab/composecharts/components/BarChart.kt:285-332 | six horizontal lines at height*i/5, six vertical ones at width*i/5, then the two axes |
| BarChart.HorizontalGridLine | app/src/main/java/com/touzalab/composecharts/components/BarChart.kt:294-302 | line i across the width at y = height*i/5 |
| BarChart.VerticalGridLine | app/src/main/java/com/touzalab/composecharts/components/BarChart.kt:307-315 | line i down the height at x = width*i/5; `GridEvenlySpaced` proves both families a fifth apart |
| BarChart.GridEvenlySpaced | app/src/main/java/com/touzalab/composecharts/components/BarChart.kt:293-316 | the grid lines are a fifth apart, from the top and left edges to the bottom and right ones |
| RadarChart.CalculatedMaxValue | app/src/main/java/com/touzalab/composecharts/components/RadarChart.kt:62-64 | the argument when given; otherwise the largest y of any point, or 0 |
| RadarChart.CategoryAngle | app/src/main/java/com/touzalab/composecharts/components/RadarChart.kt:122 | 2*PI*i/n - PI/2; `CategoryAnglesEvenlySpaced` proves the spacing, with `PI` the `Double` value 3.141592653589793 of `kotlin.math.PI` |
| RadarChart.CategoryAnglesEvenlySpaced | app/src/main/java/com/touzalab/composecharts/components/RadarChart.kt:122 | category 0 points up and the axes are 2*PI/n apart, within one turn |
| RadarChart.CategoryValue | app/src/main/java/com/touzalab/composecharts/components/RadarChart.kt:158-159 | the y of the first point labelled with the category, or 0 |
| RadarChart.Radius | app/src/main/java/com/touzalab/composecharts/components/RadarChart.kt:91 | the radius fits in half of each side |
| RadarChart.Center | app/src/main/java/com/touzalab/composecharts/components/RadarChart.kt:90 | the centre of the canvas, (width/2, height/2) |
| RadarChart.AlongAxis | app/src/main/java/com/touzalab/composecharts/components/RadarChart.kt:166-167 | the point distance away from the centre along the axis with the given cosine and sine |
| RadarChart.AxisEnd | app/src/main/java/com/touzalab/composecharts/components/RadarChart.kt:121-132 | the end of axis i, radius along the category angle from the centre |
| RadarChart.VertexDistance | app/src/main/java/com/touzalab/composecharts/components/RadarChart.kt:164 | value/maxValue*radius*progress; `VertexOnAxis` and `ProgressZeroAtCenter` prove its ends |
| RadarChart.Vertex | app/src/main/java/com/touzalab/composecharts/components/RadarChart.kt:158-167 | the vertex of category i: `VertexDistance` of the y of the first point labelled with it (0 if none) along the category angle; `VertexOnAxis` and `ProgressZeroAtCenter` prove its ends |
| RadarChart.VertexOnAxis | app/src/main/java/com/touzalab/composecharts/components/RadarChart.kt:161-167 | a missing category sits at the centre and one at the maximum reaches the axis end |
| RadarChart.ProgressZeroAtCenter | app/src/main/java/com/touzalab/composecharts/components/RadarChart.kt:164-167 | at progress 0 every vertex is at the centre |
| RadarChart.Vertices | app/src/main/java/com/touzalab/composecharts/components/RadarChart.kt:157-167 | one vertex per category, in category order, vertex i being `Vertex` of category i |
| RadarChart.Polygon | app/src/main/java/com/touzalab/composecharts/components/RadarChart.kt:153-187 | moveTo the first vertex, lineTo each later one in order, then close |
| RadarChart.Polygons | app/src/main/java/com/touzalab/composecharts/components/RadarChart.kt:152-187 | the polygon of every series, in series order |
| RadarChart.RingAt | app/src/main/java/com/touzalab/composecharts/components/RadarChart.kt:95-96 | ring i: radius radius*i/5 and label maxValue*i/5; `RingsScale` proves them evenly spaced |
| RadarChart.Rings | app/src/main/java/com/touzalab/composecharts/components/RadarChart.kt:94-107 | five rings, ring i with radius radius*i/5 and label max*i/5 |
| RadarChart.RingsScale | app/src/main/java/com/touzalab/composecharts/components/RadarChart.kt:95-107 | the rings grow in equal steps to the full radius, and each label is the value a vertex on that ring stands for |
| ChartInteraction.ClampedZoom | app/src/main/java/com/touzalab/composecharts/interaction/ChartInteractionManager.kt:57 | the new zoom lies in [MinZoom, MaxZoom] = [0.5, 5] and is the requested level when that is in range |
| ChartInteraction.AdjustedPan | app/src/main/java/com/touzalab/composecharts/interaction/ChartInteractionManager.kt:61-63 | pan + ((centre - pan)/newZoom - (centre - pan)/oldZoom)*newZoom; `ZoomKeepsCenter` and `ZoomRoundTrip` prove what it keeps |
| ChartInteraction.ZoomKeepsCenter | app/src/main/java/com/touzalab/composecharts/interaction/ChartInteractionManager.kt:59-64 | the pan adjustment keeps the zoom centre over the same content |
| ChartInteraction.ZoomRoundTrip | app/src/main/java/com/touzalab/composecharts/interaction/ChartInteractionManager.kt:59-64 | zooming back to the old level around the same centre restores the pan |
| ChartInteraction.ChartInteractionManager.constructor | app/src/main/java/com/touzalab/composecharts/interaction/ChartInteractionManager.kt:13-26 | no selection, no tooltip, zoom 1, pan 0 |
| ChartInteraction.ChartInteractionManager.SelectPoint | app/src/main/java/com/touzalab/composecharts/interaction/ChartInteractionManager.kt:35-39 | point, series and tooltip set; view unchanged |
| ChartInteraction.ChartInteractionManager.DeselectPoint | app/src/main/java/com/touzalab/composecharts/interaction/ChartInteractionManager.kt:44-48 | all three cleared; view unchanged |
| ChartInteraction.ChartInteractionManager.Zoom | app/src/main/java/com/touzalab/composecharts/interaction/ChartInteractionManager.kt:56-66 | nothing changes when the clamped zoom equals the current one; otherwise the pan is adjusted and the zoom set; the zoom stays in [0.5, 5] and the selection is untouched |
| ChartInteraction.ChartInteractionManager.Pan | app/src/main/java/com/touzalab/composecharts/interaction/ChartInteractionManager.kt:73-75 | the pan grows by delta; nothing else changes |
| ChartInteraction.ChartInteractionManager.ResetView | app/src/main/java/com/touzalab/composecharts/interaction/ChartInteractionManager.kt:80-83 | zoom 1 and pan 0; the selection is untouched |
| ExportUtils.DoubleQuotes | app/src/main/java/com/touzalab/composecharts/export/ExportUtils.kt:121 | each double quote written twice: one more character per quote |
| ExportUtils.NeedsQuoting | app/src/main/java/com/touzalab/composecharts/export/ExportUtils.kt:120 | the field holds ',', '"' or '\n' |
| ExportUtils.EscapeField | app/src/main/java/com/touzalab/composecharts/export/ExportUtils.kt:120-124 | a field without ',', '"' or '\n' is verbatim; any other is quoted with its quotes doubled |
| ExportUtils.CollapseDoubled | app/src/main/java/com/touzalab/composecharts/export/ExportUtils.kt:121 | collapsing "" to " undoes the doubling |
| ExportUtils.UnescapeField | app/src/main/java/com/touzalab/composecharts/export/ExportUtils.kt:119-124 | the partner of the quoting: strip enclosing quotes and collapse each "" to "; `EscapeRoundTrip` proves it undoes `EscapeField` |
| ExportUtils.EscapeRoundTrip | app/src/main/java/com/touzalab/composecharts/export/ExportUtils.kt:119-125 | stripping the quotes and collapsing recovers every field |
| ExportUtils.EscapeAll | app/src/main/java/com/touzalab/composecharts/export/ExportUtils.kt:118-125 | the escaped fields of a row, in order |
| ExportUtils.EscapedRow | app/src/main/java/com/touzalab/composecharts/export/ExportUtils.kt:118-125 | `joinToString(",")` over the escaped fields of a row; `OneTerminatorPerRow` proves a quoting reader sees no record end in it |
| ExportUtils.CsvText | app/src/main/java/com/touzalab/composecharts/export/ExportUtils.kt:117-126 | each row's escaped line plus '\n', rows in order; `ExportCsv` builds it and `OneTerminatorPerRow` reads it back row by row |
| ExportUtils.ExportCsv | app/src/main/java/com/touzalab/composecharts/export/ExportUtils.kt:117-127 | the output is each row's escaped line plus '\n', rows in input order |
| ExportUtils.ScanEscapedField | app/src/main/java/com/touzalab/composecharts/export/ExportUtils.kt:119-125 | a reader sees an escaped field as one field, with no record end inside |
| ExportUtils.OneTerminatorPerRow | app/src/main/java/com/touzalab/composecharts/export/ExportUtils.kt:117-127 | a reader honouring the quoting counts exactly one record end per row |
| DataAdapter.Fields | app/src/main/java/com/touzalab/composecharts/data/DataAdapter.kt:58 | the fields of a line, one more than it has commas; none holds a comma or starts or ends with whitespace |
| DataAdapter.TrimAll | app/src/main/java/com/touzalab/composecharts/data/DataAdapter.kt:63 | each piece trimmed, in order |
| DataAdapter.RowAfter | app/src/main/java/com/touzalab/composecharts/data/DataAdapter.kt:66-73 | the row map after the first k columns: each column that parses is bound to its value; `RowAfterKeys` and `LastParsedWins` prove its contents |
| DataAdapter.RowAfterKeys | app/src/main/java/com/touzalab/composecharts/data/DataAdapter.kt:66-73 | a column name is in the row exactly when some column of that name, among those read so far, parsed |
| DataAdapter.LastParsedWins | app/src/main/java/com/touzalab/composecharts/data/DataAdapter.kt:66-73 | with duplicate names the value of the last column of that name that parsed is the one in the row |
| DataAdapter.ExtraFieldsIgnored | app/src/main/java/com/touzalab/composecharts/data/DataAdapter.kt:67 | fields beyond the last header are ignored |
| DataAdapter.ParseRow | app/src/main/java/com/touzalab/composecharts/data/DataAdapter.kt:66-73 | the inner loop builds the row map column by column |
| DataAdapter.Rows | app/src/main/java/com/touzalab/composecharts/data/DataAdapter.kt:62-76 | at most one row per data line |
| DataAdapter.Kept | app/src/main/java/com/touzalab/composecharts/data/DataAdapter.kt:64 | line i has at least as many fields as there are headers |
| DataAdapter.KeptLines | app/src/main/java/com/touzalab/composecharts/data/DataAdapter.kt:62-64 | the indices of the kept lines among 1..n-1, strictly increasing, and every kept line among them |
| DataAdapter.RowsOfKeptLines | app/src/main/java/com/touzalab/composecharts/data/DataAdapter.kt:62-76 | row k is the parsed row of the k-th kept line: one row per kept line, in line order |
| DataAdapter.ShortLinesSkipped | app/src/main/java/com/touzalab/composecharts/data/DataAdapter.kt:64 | lines with fewer fields than headers give no rows |
| DataAdapter.ParseLines | app/src/main/java/com/touzalab/composecharts/data/DataAdapter.kt:62-76 | the outer loop builds the rows of lines 1 onwards |
| DataAdapter.PointOf | app/src/main/java/com/touzalab/composecharts/data/DataAdapter.kt:88-95 | the point takes x and y from the row and the printed x as label |
| DataAdapter.Points | app/src/main/java/com/touzalab/composecharts/data/DataAdapter.kt:87-96 | at most one point per row |
| DataAdapter.PointsComeFromRows | app/src/main/java/com/touzalab/composecharts/data/DataAdapter.kt:87-96 | every point comes from a row holding both columns |
| DataAdapter.PointsOfIncompleteRows | app/src/main/java/com/touzalab/composecharts/data/DataAdapter.kt:88-89 | rows missing either column give no point |
| DataAdapter.PointsOfFullRows | app/src/main/java/com/touzalab/composecharts/data/DataAdapter.kt:87-96 | when every row holds both columns, point k comes from row k |
| DataAdapter.FullRows | app/src/main/java/com/touzalab/composecharts/data/DataAdapter.kt:88-89 | the indices of the rows holding both columns, strictly increasing, and every such row among them |
| DataAdapter.PointsOfFullRowsInOrder | app/src/main/java/com/touzalab/composecharts/data/DataAdapter.kt:87-96 | point k is the point of the k-th row holding both columns: one point per such row, in row order |
| DataAdapter.PointsAppend | app/src/main/java/com/touzalab/composecharts/data/DataAdapter.kt:87-96 | the points of two row lists one after the other are the first list's points followed by the second's |
| DataAdapter.SeriesFor | app/src/main/java/com/touzalab/composecharts/data/DataAdapter.kt:98-104 | series i is named headers[i], coloured DefaultPalette[i % 10] and made of the points of columns 0 and i; DefaultPalette holds the ten opaque colours of `ColorPalettes.Default` (theme/ColorPalettes.kt:10-21), in order |
| DataAdapter.BuildSeries | app/src/main/java/com/touzalab/composecharts/data/DataAdapter.kt:78-107 | no header gives no series; otherwise one series per column after the first, series i - 1 being the one for column i |
| DataAdapter.LoadData | app/src/main/java/com/touzalab/composecharts/data/DataAdapter.kt:48-108 | no lines give no series; otherwise one series per comma of the header line, series i - 1 being the one for column i |
| DataAdapter.CompleteRow | app/src/main/java/com/touzalab/composecharts/data/DataAdapter.kt:66-73 | a line whose every column parses gives a row with every column name |
| DataAdapter.CompleteLinesAllKept | app/src/main/java/com/touzalab/composecharts/data/DataAdapter.kt:62-76 | when every data line is complete no line is skipped and every row holds every column |
| DataAdapter.CompleteFileFullSeries | app/src/main/java/com/touzalab/composecharts/data/DataAdapter.kt:85-96 | then every series has one point per data line |

## Left out

- Rendering is not modelled. This covers `drawArc`, `drawRect`, `drawPath`, `drawCircle` and native text, as well as `Text`, `Surface`, legends, titles and modifiers. These are foreign UI calls, so only the coordinates and path commands they receive are modelled.
- Some drawing is left out entirely:
  - the point markers and selection halo of the line chart (components/LineChart.kt:241-268);
  - the radar category labels at 1.1 times the radius and the ring value text positions;
  - the text positions of axis labels and the pie tooltip.
- The line chart's own axis labels and inner grid lines (components/LineChart.kt:272-322) are not modelled. They are rendering and label formatting only.
- Animation is `Animatable` with `tween` and easing, driven by time. The model takes its value as the `progress` input.
- Gesture plumbing (`pointerInput` and `detectTapGestures`) is framework code. A tap is an `Offset` input, and only the selection rules are modelled.
- The bar chart's tap handler and its horizontal mode are empty in the source (components/BarChart.kt:104-107 and 119-121), so there is nothing to model.
- `mutableStateOf` observation is Compose reactivity. The interaction manager's fields are plain fields.
- `Float` and `Double` arithmetic is modelled as exact `real` arithmetic, so rounding, overflow, NaN and infinities are absent. This also covers the `toDouble()` accumulation in the regression.
- There is one exception: with a zero bin width, `Histogram.BinIndex` writes out the IEEE outcome. `0/0` is NaN, which `toInt()` turns into 0; a non-zero value over zero gives an infinity, which saturates before the clamp.
- The library numerics and conversions are function parameters, with no properties assumed. These are `sin`, `cos`, `atan2`, `sqrt`, `Math.toRadians`, `Offset.getDistance`, `Float.toString` and `String.toFloat`.
- Number formatting is not modelled: `"%.1f"`, the percentage text, and the integer-or-decimal y labels.
- File I/O is left out:
  - `File`, `FileOutputStream`, the `IOException` path and the returned file path of `exportToCsv`;
  - `loadData(context, source)` with its URL and asset opening;
  - `readLines`.
- Kotlin strings are sequences of UTF-16 code units. The model's strings are sequences of Unicode scalar values, Dafny's `char`. A character outside the Basic Multilingual Plane is two code units in Kotlin but one character here. This changes no result of the modelled code:
  - every character it tests for (',', '"', '\n' and each character `Strings.IsWhitespace` accepts) is a single Basic Multilingual Plane character;
  - a surrogate pair never equals any of them, and `split` and `replace` never cut between the halves of a pair.
- A Kotlin string holding an unpaired surrogate cannot be represented, so such input is outside the model.
- Byte encoding is not modelled.
- The value types are Dafny datatypes, so their equality is structural, as for Kotlin data classes. `PieChart.HighlightArc` and the line chart's series comparison rely on that.
- `Color` is an RGB value with an alpha channel. The palettes and styles are constants outside this model; only `ColorPalettes.Default` appears, in `DataAdapter.DefaultPalette`.
- The line chart's tap handler computes the tap's chart coordinates (components/LineChart.kt:129-130) and never uses them. `LineChart.TapToChart` models the formula, and its round trip is proved, but `LineChart.HandleTap` does not compute it.
- The pie tap uses the integer canvas size, with integer halving for the centre and radius, while the drawing pass uses the `Float` size. The model keeps the two apart: `PieChart.HandleTap` takes `nat` sizes and `PieChart.LayoutPie` takes `real` sizes.
- The `?: return emptyList()` on the header list (data/DataAdapter.kt:82) is modelled in `DataAdapter.BuildSeries`, but `DataAdapter.LoadData` never reaches it, because `split` always returns at least one piece.
- The requirements checked at the top of each Composable are kept only where a later computation needs them. Examples are non-empty data and `bins > 1` in `Histogram.BuildHistogram`, and a non-empty series list in the bar layout. The `donutRatio in [0, 1]` check is a precondition of `PieChart.LabelsOnRing`, not of the layout.
- LineChart.BuildAllPaths: the contract gives each series' paths only through their presence, their length and the leading `moveTo`. The commands themselves are stated by `LineChart.BuildPaths` for one series at a time.
- LineChart.HandleTap: the contract states only that the selected point is within 30 pixels. That it is the nearest point, and the first in search order, is stated by `LineChart.NearestPoint`, whose result it stores.
- DataAdapter.Rows: the function's own contract only bounds the number of rows, which keeps it cheap for its many callers. `RowsOfKeptLines` states the whole result: one row per line that `Kept` selects, in line order, each the parsed row of its line.
- DataAdapter.Points: the function's own contract only bounds the number of points, for the same reason. `PointsOfFullRowsInOrder` states the whole result: one point per row holding both columns, in row order. `PointsAppend` gives its behaviour on concatenated rows.
- Histogram.Counts: the function's own contract only gives the number of bins and non-negative counts. That each count is the number of values in that bin, and that the counts add up to the data size, are `CountsAreOccurrences` and `CountsSum`.
- ChartUtilities.GeneratePieSegments: requires a non-empty colour list when there are entries. The source computes `index % colors.size` (utils/ChartUtilities.kt:60), which throws an `ArithmeticException` on an empty list; the model does not model that exception.
