# Shewhart chart rule engine — a verified model

This project models the statistical-process-control core of a small React
control-chart application. The core is two separate components. Each takes an
ordered series of labelled measurements, a centre line (`mean`) and a spread
(`stdDev`).

- `ControlRules` (src/ControlRules.jsx) is the rule panel with seven
  special-cause detectors from the Western Electric / Nelson family. The
  dashboard the application mounts (src/ChartDashboard.jsx) renders it beside
  its own chart and data table. It runs on generated data (mean 120, σ 10).
  That chart and that table draw no sigma bands and show no status.
- `ShewhartChart` (src/ShewhartChart.jsx) is a standalone control chart with a
  data table of its own. It colours every point by sigma band and marks it
  "okay" or "out of range" against the control limits `mean ∓ 3·stdDev`. It is
  rendered only by src/App.jsx, a demo page with fixed data (mean 13, σ 4).
  The application's entry point does not mount that page.

Values are modelled as `real`, so every comparison is exact. The thresholds the
source hard-codes are named constants: run length 8, trend length 6, 2 of 3,
4 of 5, 14 alternating, 15 within 1σ, and 70%. Run length and trend length are
parameters of their detectors, and the rule panel uses the defaults.

Modules:

- `Series`: a sample (`Point`: label and value), `Abs`, deviation from the mean, the
  within-1σ band shared by the low-variation and normality rules, and counting the points in a band (`filter(...).length`), with a proof that counting does
  not depend on order.
- `Windows`: the declarative meaning of the detectors. "Some k consecutive points all lie
  in a band", "some k consecutive values rise or fall strictly", and "some window of w
  points satisfies a test". It also holds the lemmas that a violation persists when
  points are appended, and that a series shorter than the rule never fires.
- `ControlRules`: the detectors of the rule panel. The counter-based scans (run, trend,
  low variation) and the window scans (2-of-3, 4-of-5, alternating) are methods with
  loop invariants. Each method is proved to return exactly the declarative predicate.
  `EvaluateRules` runs all seven.
- `Normality`: the normality rule. It uses the series' own population mean and variance
  and ignores the `mean` and `stdDev` the panel is given. It is pure functions.
- `ShewhartChart`: the standalone chart component's control limits, the colour band of
  a value (`getColor`), the out-of-range status, and the classified points (`chartData`)
  that this component's own line chart and Name/Value/Status table are drawn from.
- `Scenarios`: concrete series and the verdicts the rules give on them. The chart
  scenarios use the demo page's mean 13 and σ 4.

## Model

| member | source | states |
|---|---|---|
| `ControlRules.PointsOnOneSide` | src/ControlRules.jsx:5-25 | true iff some `runLength` consecutive points are all strictly above the mean or all strictly below it; a point on the mean breaks both runs |
| `ControlRules.PointsTrending` | src/ControlRules.jsx:27-51 | false on an empty series; otherwise true iff some `trendLength` consecutive values are strictly increasing or strictly decreasing (equal neighbours break both) |
| `ControlRules.ScanWindows` | src/ControlRules.jsx:82-93 | sliding a window of `width` one step at a time, true iff some window holds at least `need` points of the band |
| `ControlRules.TwoOfThreeBeyondTwoSigma` | src/ControlRules.jsx:77-96 | false below 3 points; true iff some 3 consecutive points include at least 2 with `2σ < |v−mean| < 3σ` (both bounds strict) |
| `ControlRules.FourOfFiveBeyondOneSigma` | src/ControlRules.jsx:98-117 | false below 5 points; true iff some 5 consecutive points include at least 4 with `σ < |v−mean| < 3σ` |
| `ControlRules.IsAlternating` | src/ControlRules.jsx:123-135 | true iff at every interior point the differences into and out of it are non-zero and of opposite sign |
| `ControlRules.AlternatesIffZigZag` | src/ControlRules.jsx:123-135 | for 3 or more points, that check holds iff the steps go up and down by turns, starting either way |
| `ControlRules.PointsAlternating` | src/ControlRules.jsx:119-144 | false below 14 points; true iff some window of 14 consecutive points alternates |
| `ControlRules.PointsWithinOneSigma` | src/ControlRules.jsx:146-168 | false below 15 points; true iff some 15 consecutive points all have `|v−mean| ≤ σ` (a point outside resets the streak) |
| `ControlRules.EvaluateRules` | src/ControlRules.jsx:3-168 | the seven verdicts of the rule panel, each equal to its rule's declarative meaning, with run length 8 and trend length 6 |
| `Windows.StreakPersists` | src/ControlRules.jsx:9-22 | a series that has a run (or low-variation streak) keeps it whatever points are appended |
| `Windows.TrendPersists` | src/ControlRules.jsx:33-47 | a series that has a trend keeps it whatever points are appended |
| `Windows.WindowPersists` | src/ControlRules.jsx:82-93 | a series with a violating window (2-of-3, 4-of-5, alternating) keeps it whatever points are appended |
| `Windows.ShortSeriesHasNoStreak` | src/ControlRules.jsx:147-164 | a series shorter than k has no streak of k points, so the run and low-variation rules cannot fire on it (the guard at line 147 only returns early) |
| `Windows.ShortSeriesHasNoTrend` | src/ControlRules.jsx:28-48 | a series shorter than k has no trend of k values, so series shorter than 6 never fire |
| `Windows.ShortSeriesHasNoWindow` | src/ControlRules.jsx:78-120 | a series shorter than w has no window of w points, which is what the length guards at lines 78, 99 and 120 return early on |
| `Windows.StreakShortens` | src/ControlRules.jsx:20-22 | a run of length k contains one of every shorter length, so a longer configured run length only fires on series the shorter one flags |
| `Windows.TrendShortens` | src/ControlRules.jsx:45-47 | a trend of length k contains one of every shorter length |
| `Series.CountInPermutation` | src/ControlRules.jsx:68-70 | the number of points in a band does not depend on the order of the points |
| `Normality.NormalityOrderIndependent` | src/ControlRules.jsx:54-75 | the normality verdict depends only on the multiset of points, not on their order |
| `Normality.NormalityAsCounts` | src/ControlRules.jsx:72-74 | the verdict is false on an empty series and otherwise true iff `100·within < 70·n`, where `within` counts points within the series' own σ of its own mean |
| `Normality.WithinSigmaIffSquared` | src/ControlRules.jsx:62-70 | for the non-negative root `s` of the variance, `|d| ≤ s` iff `d² ≤ variance`, which justifies the model's square-root-free comparison |
| `Normality.WithinCountIsSigmaCount` | src/ControlRules.jsx:62-74 | for the non-negative root `sd` of the variance, the model's count equals the count of points with `|v − mean| ≤ sd`, and the verdict is exactly "that count as a percentage of n is below 70" |
| `Normality.VarianceNonNegative` | src/ControlRules.jsx:62-65 | the population variance of a non-empty series is non-negative, so its square root exists |
| `Normality.SumOfPermutation` | src/ControlRules.jsx:59-65 | the sums behind the mean and the variance do not depend on the order of the points |
| `Normality.ConstantSeriesIsNormal` | src/ControlRules.jsx:54-75 | a series of equal values has that value as mean, zero variance, all points within 1σ, and does not violate normality |
| `ShewhartChart.ControlLimits` | src/ShewhartChart.jsx:16-17 | LCL and UCL are centred on the mean and lie 6σ apart |
| `ShewhartChart.GetColor` | src/ShewhartChart.jsx:20-27 | with `d = |v−mean|`: orange iff `d ≤ σ`, blue iff `σ < d ≤ 2σ`, green iff `2σ < d ≤ 3σ`, red iff `d > 3σ`; a tie goes to the inner band |
| `ShewhartChart.IsOutOfRange` | src/ShewhartChart.jsx:32 | `v < LCL ∨ v > UCL` iff `|v−mean| > 3σ` |
| `ShewhartChart.RedIffOutOfRange` | src/ShewhartChart.jsx:23-38 | a point is red exactly when its status is "out of range" |
| `ShewhartChart.ColorMonotone` | src/ShewhartChart.jsx:20-27 | a point further from the mean never gets an inner band compared with a closer one |
| `ShewhartChart.ChartData` | src/ShewhartChart.jsx:30-40 | one row per sample, in order: row i has index i+1 and the sample's own label and value; its colour and status are those of its value, and it is red exactly when out of range |
| `ShewhartChart.ChartDataRoundTrip` | src/ShewhartChart.jsx:30-40 | the label and value columns of the table give back the original series |
| `ShewhartChart.ClassificationIsLocal` | src/ShewhartChart.jsx:30-32 | two points with the same value get the same colour and status, whatever their neighbours or positions |
| `Scenarios.OutlierIsRedAndOutOfRange` | src/App.jsx:9-32 | with mean 13 and σ 4, the limits are 1 and 25, and the value 28 is red and out of range |
| `Scenarios.DemoTable` | src/App.jsx:4-10 | on the first six demo samples only the fifth (28) is flagged; the others lie within 2σ and are okay |
| `Scenarios.EightAboveTheMean` | src/ControlRules.jsx:5-51 | eight values of 20 with mean 13 break the run rule but form no trend |
| `Scenarios.SixRising` | src/ControlRules.jsx:27-51 | the values 1 to 6 break the trend rule but are too few for a run of 8 on either side of the mean |
| `Scenarios.FifteenAtTheMean` | src/ControlRules.jsx:146-168 | fifteen values at the mean break the low-variation rule and pass the normality rule |
| `Scenarios.FourteenAlternating` | src/ControlRules.jsx:119-144 | the values 1, 2, 1, 2, … (14 of them) break the alternating rule but form no trend |

## Left out

- React rendering: the rule cards, the chart, the data table, `useMemo`/`useState` and row selection. They hold no rule logic.
- The DOM workarounds in `src/DataTable.jsx` and `src/main.jsx`: observers, timers, scrolling and removal of ARIA nodes. They are browser side effects.
- The random sample generator in `src/generateData.js`. It is floating-point and random; a series is an input here.
- The dashboard wiring and the Y-axis padding. They are presentation only.
- Non-finite values: NaN and ±Infinity cannot be represented as `real`. In the source a NaN fails every comparison, so it resets both run counters and both trend counters, and it makes the normality rule fire. The data the dashboard generates is always finite.
- Floating-point rounding: values are exact reals. `Math.sqrt` in the normality rule is replaced by comparing the squared deviation with the variance; `Normality.WithinSigmaIffSquared` shows the two agree for the non-negative root.
- Null or missing `data`: a series is always a sequence, so the source's `!stats.data` guards reduce to their length checks. The chart's "No data provided" message for an empty series is rendering; `ChartData` of an empty series is empty.
- The detectors answer only "violated" or not, as the source does. The index where a rule first fires is not returned.
- ControlRules.PointsOnOneSide: takes the run length as a parameter and requires it to be at least 1. The source fixes it at 8.
- ControlRules.PointsTrending: takes the trend length as a parameter and requires it to be at least 2. The source fixes it at 6. With a length of 1, the source's loop shape would not fire on a single point.
- The source has no "insufficient data", "degenerate variance" or "invalid input" outcomes. A short series simply gives "not violated", and a negative or zero `stdDev` is not rejected. The model follows the code, and no detector or classifier requires `stdDev ≥ 0`.
- The source classifies points only by colour and status. There is no separate zone record with an above/below side, so none is modelled.
