/** The three sampling windows of the tide service: the chart window (a requested number
    of days into the future or the past), the hourly forecast, and the 5-minute grid of
    one day searched for high and low tides. Instants are minute offsets from the
    request's "now" (chart, forecast) or from today's midnight (daily grid). */
module Windows {
  import opened Sampling

  const MinutesPerDay := 1440

  /** Bounds applied to the magnitude of the chart's requested day count. */
  const MinDays := 1
  const MaxDays := 365

  /** Which side of now a chart window lies on. */
  datatype Direction = Future | Past

  /** Everything the chart route decides before it builds its list of instants. */
  datatype Plan = Plan(
    absDays: int,       // clamped magnitude of the requested day count
    direction: Direction,
    interval: int,      // minutes between consecutive samples
    pointsPerDay: int,
    numPoints: int)

  function Abs(x: int): nat {
    if x < 0 then -x else x
  }

  /** Magnitude of the requested day count, clamped to 1..365. */
  function ClampDays(days: int): (d: int)
    ensures MinDays <= d <= MaxDays
    ensures MinDays <= Abs(days) <= MaxDays ==> d == Abs(days)
    ensures Abs(days) > MaxDays ==> d == MaxDays
    ensures days == 0 ==> d == MinDays
  {
    var a := Abs(days);
    if a < MinDays then MinDays else if a > MaxDays then MaxDays else a
  }

  /** The clamp depends only on the magnitude, and clamping a clamped count changes nothing. */
  lemma ClampDaysSymmetricIdempotent(days: int)
    ensures ClampDays(-days) == ClampDays(days)
    ensures ClampDays(ClampDays(days)) == ClampDays(days)
  {
  }

  /** Cadence tier: finer sampling for short windows, coarser for long ones. */
  function Interval(absDays: int): (m: int)
    ensures m == 15 || m == 30 || m == 60
    ensures m == 15 <==> absDays <= 10
    ensures m == 30 <==> 10 < absDays <= 20
    ensures m == 60 <==> absDays > 20
    ensures MinutesPerDay % m == 0
  {
    if absDays <= 10 then 15 else if absDays <= 20 then 30 else 60
  }

  /** `int(24 * 60 / interval)`: the float quotient truncated, which for a positive
      interval is the floor of the integer quotient. */
  function PointsPerDay(interval: int): (p: int)
    requires interval > 0
    ensures 0 <= p * interval <= MinutesPerDay < (p + 1) * interval
  {
    MinutesPerDay / interval
  }

  /** The chart route's plan for a requested (signed) day count. */
  function PlanWindow(days: int): (p: Plan)
    ensures MinDays <= p.absDays <= MaxDays
    ensures MinDays <= Abs(days) <= MaxDays ==> p.absDays == Abs(days)
    ensures p.direction == Past <==> days < 0
    ensures p.interval == 15 <==> p.absDays <= 10
    ensures p.interval == 30 <==> 10 < p.absDays <= 20
    ensures p.interval == 60 <==> p.absDays > 20
    ensures p.interval == 15 <==> p.pointsPerDay == 96
    ensures p.interval == 30 <==> p.pointsPerDay == 48
    ensures p.interval == 60 <==> p.pointsPerDay == 24
    ensures 0 < p.numPoints <= 8760
    ensures p.absDays <= 20 ==> p.numPoints <= 960
  {
    var absDays := ClampDays(days);
    var interval := Interval(absDays);
    var perDay := PointsPerDay(interval);
    NumPointsBounds(absDays, interval, perDay);
    Plan(absDays, if days < 0 then Past else Future, interval, perDay, absDays * perDay)
  }

  lemma NumPointsBounds(absDays: int, interval: int, perDay: int)
    requires MinDays <= absDays <= MaxDays && interval == Interval(absDays)
    requires perDay == PointsPerDay(interval)
    ensures 0 < absDays * perDay <= 8760
    ensures absDays <= 20 ==> absDays * perDay <= 960
  {
    MulMonotone(perDay, absDays, MaxDays);
    MulMonotone(perDay, 1, absDays);
    if absDays <= 10 {
      MulMonotone(perDay, absDays, 10);
    } else if absDays <= 20 {
      MulMonotone(perDay, absDays, 20);
    }
  }

  /** The plan's samples, spaced `interval` apart, cover the requested days exactly:
      a whole number of samples per day, and as many days of samples as were asked for. */
  lemma PlanCoversWindow(days: int)
    ensures var p := PlanWindow(days);
      && p.interval * p.pointsPerDay == MinutesPerDay
      && p.numPoints == p.absDays * p.pointsPerDay
      && p.interval * p.numPoints == p.absDays * MinutesPerDay
  {
    var p := PlanWindow(days);
    assert p.interval * (p.absDays * p.pointsPerDay) == p.absDays * (p.interval * p.pointsPerDay);
  }

  /** The chart's instants, always in chronological order. */
  function ChartGrid(days: int): (ts: seq<int>)
    ensures var p := PlanWindow(days);
      && |ts| == p.numPoints
      && StrictlyIncreasing(ts)
      && EvenlySpaced(ts, p.interval)
      && ts[|ts| - 1] - ts[0] == p.absDays * MinutesPerDay - p.interval
      && (days >= 0 ==> ts[0] == 0 && forall j :: 0 <= j < |ts| ==> ts[j] >= 0)
      && (days < 0 ==> ts[|ts| - 1] == 0 && forall j :: 0 <= j < |ts| ==> ts[j] <= 0)
  {
    var p := PlanWindow(days);
    PlanCoversWindow(days);
    MulStep(p.interval, p.numPoints - 1);
    if p.direction == Past then BackwardOffsets(p.interval, p.numPoints)
    else ForwardOffsets(p.interval, p.numPoints)
  }

  /** Asking for `-days` instead of `days` gives the same number of samples at the same
      cadence, shifted back so that the window ends at now instead of starting there. */
  lemma ChartGridMirror(days: int)
    requires days > 0
    ensures |ChartGrid(-days)| == |ChartGrid(days)|
    ensures forall j :: 0 <= j < |ChartGrid(days)| ==>
      ChartGrid(-days)[j] == ChartGrid(days)[j] - ChartGrid(days)[|ChartGrid(days)| - 1]
  {
    var p := PlanWindow(days);
    assert PlanWindow(-days).numPoints == p.numPoints;
    assert PlanWindow(-days).interval == p.interval;
    BackwardIsShiftedForward(p.interval, p.numPoints);
  }

  /** The chart level series: one level per chart instant, oldest first. */
  function ChartLevels(level: int -> real, days: int): (levels: seq<real>)
    ensures |levels| == PlanWindow(days).numPoints
    ensures days < 0 ==> levels[|levels| - 1] == level(0)
    ensures days >= 0 ==> levels[0] == level(0)
    ensures forall j :: 0 <= j < |levels| ==> levels[j] == level(ChartGrid(days)[j])
  {
    Synthesize(level, ChartGrid(days))
  }

  /** Forecast route: at most 30 days; no lower bound is applied. */
  const ForecastMaxDays := 30
  const HourMinutes := 60

  function ForecastDays(days: int): (d: int)
    ensures d <= ForecastMaxDays
    ensures days <= ForecastMaxDays ==> d == days
    ensures days > ForecastMaxDays ==> d == ForecastMaxDays
  {
    if days > ForecastMaxDays then ForecastMaxDays else days
  }

  /** `date_range(start=now, periods=days*24, freq='H')`. A zero period count gives an
      empty range; a negative one is rejected by the date-range library, so the request
      fails (`None`). */
  function ForecastGrid(days: int): (r: Option<seq<int>>)
    ensures r.None? <==> ForecastDays(days) < 0
    ensures r.Some? ==> |r.value| == ForecastDays(days) * 24
    ensures r.Some? ==> |r.value| <= ForecastMaxDays * 24
    ensures r.Some? && |r.value| > 0 ==> r.value[0] == 0
    ensures r.Some? ==> EvenlySpaced(r.value, HourMinutes) && StrictlyIncreasing(r.value)
    ensures r.Some? ==> forall j :: 0 <= j < |r.value| ==> 0 <= r.value[j] < ForecastMaxDays * MinutesPerDay
  {
    var periods := ForecastDays(days) * 24;
    if periods < 0 then None else Some(ForwardOffsets(HourMinutes, periods))
  }

  /** Daily-extremes route: 288 samples, 5 minutes apart, from today's midnight. */
  const DailySamples := 288
  const DailyCadence := 5
  /** `find_peaks(..., distance=60)`: minimum index distance between reported peaks. */
  const PeakDistance := 60

  function DailyGrid(): (ts: seq<int>)
    ensures |ts| == DailySamples
    ensures ts[0] == 0 && ts[DailySamples - 1] == MinutesPerDay - DailyCadence
    ensures forall j :: 0 <= j < |ts| ==> 0 <= ts[j] < MinutesPerDay
    ensures EvenlySpaced(ts, DailyCadence) && StrictlyIncreasing(ts)
  {
    ForwardOffsets(DailyCadence, DailySamples)
  }

  /** Two daily samples at least `PeakDistance` indices apart are at least five hours
      apart in time; samples closer than that in index are less than five hours apart. */
  lemma {:induction false} PeakDistanceIsFiveHours(i: int, j: int)
    requires 0 <= i <= j < DailySamples
    ensures j - i >= PeakDistance <==> DailyGrid()[j] - DailyGrid()[i] >= 5 * HourMinutes
  {
    var ts := DailyGrid();
    ForwardOffsetsUnique(ts, DailyCadence);
    assert ts[j] == DailyCadence * j && ts[i] == DailyCadence * i;
  }
}
