# Tide service sampling and validation model

A Dafny model of the numeric core of the Hòn Dấu tide service (`main.py`):

- how the chart route turns a signed day count into a sampling plan and a chronological
  list of instants;
- the hourly forecast grid;
- the 5-minute grid of the daily-extremes route, and what the peak-separation setting
  means in time;
- the validation route: prediction errors, the comparison table, and the four error
  statistics.

An instant is modelled as a signed whole number of minutes from a reference instant:
the request's "now" for the chart and forecast, and midnight for the daily and
validation grids. Levels are real numbers. The harmonic level function is a
parameter `level: int -> real` of the members that evaluate it. The modules are:

- `Sampling`: grids, reversal, and batch evaluation.
- `Windows`: the chart plan, the forecast grid, and the daily grid.
- `Statistics`: sums, maxima, and the inequalities between the error statistics.
- `Validation`: the report and the validation route.

## Model

| member | source | states |
|---|---|---|
| Windows.ClampDays | main.py:234-238 | the day count's magnitude, forced into 1..365: unchanged inside the range, 365 above it, 1 for zero |
| Windows.ClampDaysSymmetricIdempotent | main.py:234-238 | the clamp ignores the sign of the request, and clamping twice equals clamping once |
| Windows.Interval | main.py:244-249 | the cadence is 15 minutes exactly for up to 10 days, 30 minutes exactly for 11 to 20 days, 60 minutes exactly beyond; each divides a day |
| Windows.PointsPerDay | main.py:251 | the truncated quotient is the largest count of whole intervals fitting in one day |
| Windows.PlanWindow | main.py:234-252 | the plan's day count is in range; direction is Past exactly for negative requests; cadence tiers match 96, 48 and 24 points per day; between 1 and 8760 points, at most 960 for windows up to 20 days |
| Windows.NumPointsBounds | main.py:251-252 | the point count of any clamped window is positive and at most 8760, and at most 960 for windows up to 20 days |
| Windows.PlanCoversWindow | main.py:244-252 | the sampling covers the window exactly: interval times points per day is one day, and interval times point count is the requested days in minutes |
| Windows.ChartGrid | main.py:254-259 | the chart instants are as many as planned, evenly spaced by the interval and strictly chronological; they span the window minus one interval; future windows start at now and never precede it, past windows end at now and never follow it |
| Windows.ChartGridMirror | main.py:254-259 | a past window is the future window of the same size shifted back so that it ends at now |
| Windows.ChartLevels | main.py:261-263 | one level per chart instant in chronological order; the level at now comes first for future windows and last for past ones |
| Windows.ForecastDays | main.py:158-159 | the forecast day count is capped at 30 and otherwise unchanged; no lower bound applies |
| Windows.ForecastGrid | main.py:158-162 | the request fails exactly when the capped day count is negative; otherwise 24 hourly instants per day starting at now, evenly spaced and chronological, at most 720, all within 30 days (none for zero days) |
| Windows.DailyGrid | main.py:111-115 | 288 instants 5 minutes apart, from midnight to 23:55, all within the day and chronological |
| Windows.PeakDistanceIsFiveHours | main.py:125-128 | two daily samples are at least 60 indices apart exactly when they are at least five hours apart |
| Sampling.EvenlySpacedIncreasing | main.py:254-259 | an evenly spaced grid with a positive step is chronological |
| Sampling.Reverse | main.py:257 | the `[::-1]` slice: same length, element j is element n-1-j of the input |
| Sampling.ReverseInvolution | main.py:257 | reversing twice gives back the list |
| Sampling.ForwardOffsets | main.py:258-259 | the forward window starts at now, is evenly spaced by the step, ends at step*(n-1), and is chronological for a positive step |
| Sampling.BackwardFromNow | main.py:255-256 | the past window before reversal steps back from now, newest first |
| Sampling.BackwardOffsets | main.py:255-257 | the reversed past window runs oldest first, is evenly spaced, ends at now, and is chronological for a positive step |
| Sampling.BackwardIsShiftedForward | main.py:255-259 | each backward instant is the forward instant at the same index minus the forward window's length |
| Sampling.ForwardOffsetsUnique | main.py:258-259 | any list that starts at now and is evenly spaced by the step is the forward window |
| Sampling.Synthesize | main.py:261-262 | batch evaluation keeps the grid's length and order: entry j is the level at instant j |
| Statistics.Mean | main.py:217 | `np.mean`: the mean times the count is the sum |
| Statistics.MeanSquare | main.py:219 | `np.mean(errors**2)`: non-negative, and times the count it is the sum of squares |
| Statistics.Magnitudes | main.py:218 | `np.abs`: same length, each entry the magnitude of the corresponding error |
| Statistics.Max | main.py:220 | `np.max`: an upper bound of every element that some element attains |
| Statistics.StatisticsOrdered | main.py:217-220 | for any non-empty error list: 0 <= MAE <= max absolute error, the mean error lies within ±MAE, and MAE² <= MSE <= max² |
| Statistics.SumBoundedBySumOfMagnitudes | main.py:217-218 | triangle inequality: the sum of the errors lies within ± the sum of their magnitudes |
| Statistics.SumAtMostCountTimesBound | main.py:218-220 | a common upper bound on n elements bounds their sum by n times that bound |
| Statistics.SumSquaresAtMostCountTimesBound | main.py:219-220 | a common bound on n magnitudes bounds the sum of squares by n times its square |
| Statistics.SumSquaresOfMagnitudes | main.py:218-219 | squares forget signs: the magnitudes have the errors' sum of squares |
| Statistics.SquaredSumAtMostCountTimesSumSquares | main.py:218-219 | Cauchy–Schwarz: the squared sum is at most n times the sum of squares, which gives MAE² <= MSE |
| Statistics.SumSquaredDeviationExpands | main.py:218-219 | the sum of squared deviations from c equals sum x² - 2c·sum x + n·c² |
| Statistics.MeanSquaredAtMostMeanSquare | main.py:218-219 | divided by n: the square of the mean is at most the mean of the squares |
| Validation.HourLabel | main.py:208 | `f"{i:02d}:00"`: two digits followed by ":00" |
| Validation.HourLabelRoundTrip | main.py:208 | reading a label back gives its hour |
| Validation.HourLabelInjective | main.py:208 | two hours get the same label exactly when they are equal |
| Validation.Errors | main.py:203 | element-wise prediction minus observation |
| Validation.Validate | main.py:203-220 | fails exactly on a length mismatch or fewer than 24 hours; otherwise 24 rows, each with its hour label, observation, prediction and their difference; the mean error, MAE and MSE are the sums of the errors, their magnitudes and their squares divided by the count; the statistics are ordered; the maximum bounds every absolute error and is attained |
| Validation.SumOfErrors | main.py:203 | the errors sum to the predictions' sum minus the observations' sum |
| Validation.MeanErrorIsDifferenceOfMeans | main.py:203-217 | the mean error is the mean prediction minus the mean observation |
| Validation.PerfectPrediction | main.py:203-220 | the largest absolute error is zero exactly when prediction equals observation, and then every statistic is zero |
| Validation.RootMeanSquareBounds | main.py:219 | every non-negative square root of the MSE lies between the MAE and the largest absolute error |
| Validation.ValidateDay | main.py:188-212 | the route always succeeds with 24 rows: the level at each full hour from local midnight, the hard-coded observation of that hour, and their difference |
| Validation.ThreeHourExample | main.py:203-220 | predictions [302, 343, 374] against [300, 340, 370] give mean and mean absolute error 3, mean squared error 29/3 and largest absolute error 4 |

For predictions 302, 343, 374 against observations 300, 340, 370, the mean error and the
MAE are 3 and the RMSE is √(29/3) ≈ 3.11 (`Validation.ThreeHourExample`).

## Left out

- The harmonic synthesis (`from_amplitude_phase`, the constituent table, `A0`) is the
  `level` parameter; nothing is proved about the levels themselves.
- Rounding to two decimals (`.round(2)`) and double-precision arithmetic are not modelled;
  levels and statistics are exact reals.
- Validate: reports the mean squared error instead of its square root, because Dafny's
  reals have no square root. `RootMeanSquareBounds` states what that pins down about the
  root.
- Validate: numpy's broadcasting of a length-1 operand is not modelled; any length
  mismatch is a failure. The route itself always passes two 24-element series.
- Clocks, time zones and calendar dates are left out. "Now", UTC midnight and local
  midnight of 2026-02-01 are the zero of each grid, in whole minutes. The local-time
  labels (`strftime`, `isoformat`) are not modelled.
- ForecastGrid: a negative day count gives a negative period count, which the date-range
  library rejects. The model returns `None` for it. Which exception is raised depends on
  the library versions, and that is not modelled.
- Peak detection (`find_peaks`) is not modelled. Only the meaning of its distance
  setting on the 5-minute grid is stated.
- The HTTP routes, JSON shaping and the HTML/Chart.js page are presentation and are not
  modelled.
