/** The validation route: an hourly prediction for one day compared with 24 observed
    levels, reported hour by hour together with four summary statistics of the errors. */
module Validation {
  import opened Sampling
  import opened Statistics

  datatype ValidationError =
    | LengthMismatch   // the two series cannot be subtracted element by element
    | MissingHour      // the table reads one of the 24 hours past the end of the series

  datatype Result<T> = Success(value: T) | Failure(error: ValidationError)

  /** One row of the comparison table. */
  datatype Comparison = Comparison(hour: string, actual: real, predicted: real, error: real)

  /** The route's output. The root mean squared error is represented by its square,
      `meanSquaredError`; see `RootMeanSquareBounds` for what that pins down about the root. */
  datatype Report = Report(
    comparisons: seq<Comparison>,
    meanError: real,
    meanAbsError: real,
    meanSquaredError: real,
    maxAbsError: real)

  /** `f"{h:02d}:00"` for an hour below 100. */
  function HourLabel(h: nat): (s: string)
    requires h < 100
    ensures |s| == 5 && s[2..] == ":00"
    ensures '0' <= s[0] <= '9' && '0' <= s[1] <= '9'
  {
    [Digit(h / 10), Digit(h % 10)] + ":00"
  }

  function Digit(d: nat): (c: char)
    requires d < 10
    ensures '0' <= c <= '9'
  {
    ('0' as int + d) as char
  }

  /** Reads an hour back from a label, rejecting anything that is not two digits
      followed by ":00". */
  function ParseHourLabel(s: string): (h: Option<nat>)
    ensures h.Some? ==> h.value < 100
  {
    if |s| == 5 && '0' <= s[0] <= '9' && '0' <= s[1] <= '9' && s[2..] == ":00" then
      Some((s[0] as int - '0' as int) * 10 + (s[1] as int - '0' as int))
    else None
  }

  /** Every label reads back as its hour, so distinct hours get distinct labels. */
  lemma HourLabelRoundTrip(h: nat)
    requires h < 100
    ensures ParseHourLabel(HourLabel(h)) == Some(h)
  {
  }

  lemma HourLabelInjective(h1: nat, h2: nat)
    requires h1 < 100 && h2 < 100
    ensures HourLabel(h1) == HourLabel(h2) <==> h1 == h2
  {
    HourLabelRoundTrip(h1);
    HourLabelRoundTrip(h2);
  }

  /** `predicted - np.array(actual)`. */
  function Errors(predicted: seq<real>, actual: seq<real>): (e: seq<real>)
    requires |predicted| == |actual|
    ensures |e| == |predicted|
    ensures forall i :: 0 <= i < |e| ==> e[i] == predicted[i] - actual[i]
  {
    seq(|predicted|, i requires 0 <= i < |predicted| => predicted[i] - actual[i])
  }

  /** The comparison table always has one row per hour of the day. */
  const HoursPerDay := 24

  /** Compare two hourly series: the errors are taken over the whole series, the table
      lists the first 24 hours. */
  function Validate(predicted: seq<real>, actual: seq<real>): (r: Result<Report>)
    ensures r.Failure? <==> |predicted| != |actual| || |predicted| < HoursPerDay
    ensures |predicted| != |actual| ==> r == Failure(LengthMismatch)
    ensures |predicted| == |actual| < HoursPerDay ==> r == Failure(MissingHour)
    ensures r.Success? ==>
      && |r.value.comparisons| == HoursPerDay
      && forall h :: 0 <= h < HoursPerDay ==>
           r.value.comparisons[h]
             == Comparison(HourLabel(h), actual[h], predicted[h], predicted[h] - actual[h])
    ensures r.Success? ==>
      var e := Errors(predicted, actual);
      && r.value.meanError == Sum(e) / |e| as real
      && r.value.meanAbsError == Sum(Magnitudes(e)) / |e| as real
      && r.value.meanSquaredError == SumSquares(e) / |e| as real
    ensures r.Success? ==>
      StatsOrdered(r.value.meanError, r.value.meanAbsError, r.value.meanSquaredError, r.value.maxAbsError)
    ensures r.Success? ==>
      && (forall i :: 0 <= i < |predicted| ==> Abs(predicted[i] - actual[i]) <= r.value.maxAbsError)
      && (exists i :: 0 <= i < |predicted| && Abs(predicted[i] - actual[i]) == r.value.maxAbsError)
  {
    if |predicted| != |actual| then Failure(LengthMismatch)
    else if |predicted| < HoursPerDay then Failure(MissingHour)
    else
      var e := Errors(predicted, actual);
      var mags := Magnitudes(e);
      StatisticsOrdered(e);
      var m := Max(mags);
      assert forall i :: 0 <= i < |predicted| ==> Abs(predicted[i] - actual[i]) == mags[i];
      Success(Report(
        seq(HoursPerDay, h requires 0 <= h < HoursPerDay =>
          Comparison(HourLabel(h), actual[h], predicted[h], e[h])),
        Mean(e), Mean(mags), MeanSquare(e), m))
  }

  /** The mean error is the mean prediction minus the mean observation. */
  lemma MeanErrorIsDifferenceOfMeans(predicted: seq<real>, actual: seq<real>)
    requires |predicted| == |actual| >= HoursPerDay
    ensures Validate(predicted, actual).value.meanError == Mean(predicted) - Mean(actual)
  {
    SumOfErrors(predicted, actual);
    DivideDifference(Sum(predicted), Sum(actual), |predicted| as real);
  }

  lemma DivideDifference(x: real, y: real, n: real)
    requires n > 0.0
    ensures (x - y) / n == x / n - y / n
  {
  }

  lemma {:induction false} SumOfErrors(predicted: seq<real>, actual: seq<real>)
    requires |predicted| == |actual|
    ensures Sum(Errors(predicted, actual)) == Sum(predicted) - Sum(actual)
  {
    if |predicted| > 0 {
      SumOfErrors(predicted[1..], actual[1..]);
      assert Errors(predicted, actual)[1..] == Errors(predicted[1..], actual[1..]);
    }
  }

  /** The largest absolute error is zero exactly when the prediction matches every
      observation, and then every statistic is zero. */
  lemma PerfectPrediction(predicted: seq<real>, actual: seq<real>)
    requires |predicted| == |actual| >= HoursPerDay
    ensures Validate(predicted, actual).value.maxAbsError == 0.0 <==> predicted == actual
    ensures predicted == actual ==>
      var rep := Validate(predicted, actual).value;
      rep.meanError == 0.0 && rep.meanAbsError == 0.0 && rep.meanSquaredError == 0.0
  {
    var rep := Validate(predicted, actual).value;
    if rep.maxAbsError == 0.0 {
      forall i | 0 <= i < |predicted| ensures predicted[i] == actual[i] {
        assert Abs(predicted[i] - actual[i]) <= 0.0;
      }
    }
    if predicted == actual {
      ZeroBoundForcesZero(rep.meanError, rep.meanAbsError, rep.meanSquaredError, rep.maxAbsError);
    }
  }

  lemma ZeroBoundForcesZero(meanError: real, meanAbs: real, meanSquare: real, maxAbs: real)
    requires StatsOrdered(meanError, meanAbs, meanSquare, maxAbs) && maxAbs == 0.0
    ensures meanError == 0.0 && meanAbs == 0.0 && meanSquare == 0.0
  {
  }

  /** The reported root mean squared error, `sqrt(meanSquaredError)`, is any non-negative
      number whose square is the mean squared error; every such number lies between the
      mean absolute error and the largest absolute error. */
  lemma RootMeanSquareBounds(predicted: seq<real>, actual: seq<real>, rmse: real)
    requires |predicted| == |actual| >= HoursPerDay && rmse >= 0.0
    ensures var rep := Validate(predicted, actual).value;
      rmse * rmse == rep.meanSquaredError ==> rep.meanAbsError <= rmse <= rep.maxAbsError
  {
    var rep := Validate(predicted, actual).value;
    if rmse * rmse == rep.meanSquaredError {
      RootBetween(rep.meanError, rep.meanAbsError, rep.meanSquaredError, rep.maxAbsError, rmse);
    }
  }

  lemma RootBetween(meanError: real, meanAbs: real, meanSquare: real, maxAbs: real, root: real)
    requires StatsOrdered(meanError, meanAbs, meanSquare, maxAbs)
    requires root >= 0.0 && root * root == meanSquare
    ensures meanAbs <= root <= maxAbs
  {
    if root < meanAbs {
      SquareStrictlyMonotone(root, meanAbs);
    }
    if root > maxAbs {
      SquareStrictlyMonotone(maxAbs, root);
    }
  }

  /** Observed levels (cm) at the 24 full hours of the validation day, local time. */
  const ActualData: seq<real> := [
    302.0, 343.0, 374.0, 392.0, 395.0, 385.0, 360.0, 325.0, 284.0, 238.0,
    190.0, 142.0, 97.0, 60.0, 30.0, 9.0, -4.0, 0.0, 4.0, 25.0,
    57.0, 100.0, 150.0, 202.0]

  /** The route: the model's level at each full hour of the validation day, counted in
      minutes from that day's local midnight, compared with the observations. It always
      produces a report. */
  function ValidateDay(level: int -> real): (r: Result<Report>)
    ensures r.Success?
    ensures |r.value.comparisons| == HoursPerDay
    ensures forall h :: 0 <= h < HoursPerDay ==>
      && r.value.comparisons[h].hour == HourLabel(h)
      && r.value.comparisons[h].actual == ActualData[h]
      && r.value.comparisons[h].predicted == level(60 * h)
      && r.value.comparisons[h].error == level(60 * h) - ActualData[h]
  {
    Validate(Synthesize(level, ForwardOffsets(60, HoursPerDay)), ActualData)
  }

  /** Three predictions 2, 3 and 4 cm above the observations: mean and mean absolute error
      3, mean squared error 29/3 (so a root of about 3.11), largest absolute error 4. */
  lemma ThreeHourExample()
    ensures var e := Errors([302.0, 343.0, 374.0], [300.0, 340.0, 370.0]);
      && Mean(e) == 3.0
      && Mean(Magnitudes(e)) == 3.0
      && MeanSquare(e) == 29.0 / 3.0
      && Max(Magnitudes(e)) == 4.0
  {
    var e := Errors([302.0, 343.0, 374.0], [300.0, 340.0, 370.0]);
    assert e == [2.0, 3.0, 4.0];
    assert Magnitudes(e) == e;
    assert e[1..] == [3.0, 4.0] && e[2..] == [4.0];
  }
}
