/**
 * The 30-day weight chart: two straight-line projections of body weight,
 * one for a fixed 500 kcal daily deficit and one for the deficit implied by
 * the entered calories, losing 1 kg per 7700 kcal. Calendar dates are
 * modelled as day offsets from today.
 */
module Projection {
  import opened Wrappers
  import opened Tdee

  const Days: nat := 30
  const KcalPerKg: real := 7700.0
  const TheoreticalDeficit: real := 500.0
  /** The weight input box accepts values from 30 kg up. */
  const MinWeight: real := 30.0

  /** Why the chart button shows an error instead of a chart. */
  datatype ChartError = MissingCalories | InvalidTdee

  /** What the chart draws: the day offsets and the two weight series over them. */
  datatype Chart = Chart(dayOffsets: seq<int>, theoretical: seq<real>, actual: seq<real>, actualDeficit: real)

  /**
   * Weight after `i` days at a constant daily deficit, for i = 0 .. days-1:
   * it starts at `weight` and loses deficit/7700 kg each day.
   */
  function WeightSeries(weight: real, deficit: real, days: nat): (s: seq<real>)
    ensures |s| == days
    ensures days > 0 ==> s[0] == weight
    ensures forall i :: 0 < i < days ==> s[i - 1] - s[i] == deficit / KcalPerKg
  {
    seq(days, i => weight - (deficit / KcalPerKg) * i as real)
  }

  /**
   * The series is the only sequence that starts at `weight` and drops by
   * deficit/7700 every day.
   */
  lemma {:induction false} WeightSeriesUnique(s: seq<real>, weight: real, deficit: real)
    requires |s| > 0 && s[0] == weight
    requires forall i :: 0 < i < |s| ==> s[i - 1] - s[i] == deficit / KcalPerKg
    ensures s == WeightSeries(weight, deficit, |s|)
  {
    if |s| > 1 {
      var init := s[..|s| - 1];
      WeightSeriesUnique(init, weight, deficit);
      var w := WeightSeries(weight, deficit, |s|);
      var v := WeightSeries(weight, deficit, |s| - 1);
      forall k | 0 <= k < |s| ensures s[k] == w[k] {
        if k < |s| - 1 {
          assert s[k] == init[k] == v[k];
        } else {
          assert s[k - 1] == init[k - 1] == v[k - 1];
        }
      }
    }
  }

  /** With a positive deficit every later day is strictly lighter, and only then. */
  lemma StrictlyDecreasingIff(weight: real, deficit: real, days: nat)
    requires 2 <= days
    ensures var s := WeightSeries(weight, deficit, days);
            (forall i, j :: 0 <= i < j < days ==> s[i] > s[j]) <==> 0.0 < deficit
  {
    var s := WeightSeries(weight, deficit, days);
    if 0.0 < deficit {
      forall i, j | 0 <= i < j < days ensures s[i] > s[j] {
        PositiveStep(deficit / KcalPerKg, i, j);
        assert s[i] == weight - (deficit / KcalPerKg) * i as real;
        assert s[j] == weight - (deficit / KcalPerKg) * j as real;
      }
    } else {
      assert s[0] <= s[1];
    }
  }

  /** With a non-negative deficit no later day is heavier, and only then. */
  lemma NonIncreasingIff(weight: real, deficit: real, days: nat)
    requires 2 <= days
    ensures var s := WeightSeries(weight, deficit, days);
            (forall i, j :: 0 <= i < j < days ==> s[i] >= s[j]) <==> 0.0 <= deficit
  {
    var s := WeightSeries(weight, deficit, days);
    if 0.0 <= deficit {
      forall i, j | 0 <= i < j < days ensures s[i] >= s[j] {
        NonNegativeStep(deficit / KcalPerKg, i, j);
        assert s[i] == weight - (deficit / KcalPerKg) * i as real;
        assert s[j] == weight - (deficit / KcalPerKg) * j as real;
      }
    } else {
      assert s[0] < s[1];
    }
  }

  /** Helpers for the products of a daily loss and a day number. */
  lemma PositiveStep(d: real, i: int, j: int)
    requires 0.0 < d && i < j
    ensures d * i as real < d * j as real
  {
  }

  lemma NonNegativeStep(d: real, i: int, j: int)
    requires 0.0 <= d && i <= j
    ensures d * i as real <= d * j as real
  {
  }

  /**
   * The chart button. With no calories entered, or a TDEE that is not
   * positive, it reports an error; otherwise it builds both 30-day series.
   */
  function BuildChart(cal: Option<real>, tdee: real, weight: real): (r: Result<Chart, ChartError>)
    requires MinWeight <= weight
    ensures r == Failure(MissingCalories) <==> cal.None?
    ensures r == Failure(InvalidTdee) <==> cal.Some? && tdee <= 0.0
    ensures r.Success? <==> cal.Some? && 0.0 < tdee
    ensures r.Success? ==>
              && |r.value.dayOffsets| == Days
              && (forall i :: 0 <= i < Days ==> r.value.dayOffsets[i] == i)
              && r.value.actualDeficit == tdee - cal.value
              && r.value.theoretical == WeightSeries(weight, TheoreticalDeficit, Days)
              && r.value.actual == WeightSeries(weight, r.value.actualDeficit, Days)
  {
    if cal.None? then
      Failure(MissingCalories)
    else if tdee <= 0.0 then
      Failure(InvalidTdee)
    else
      var deficit := tdee - cal.value;
      Success(Chart(seq(Days, i => i),
                    WeightSeries(weight, TheoreticalDeficit, Days),
                    WeightSeries(weight, deficit, Days),
                    deficit))
  }

  /**
   * What a built chart shows: both lines start at today's weight, the
   * theoretical line falls every day, and the actual line never rises
   * exactly when the calories eaten do not exceed the TDEE.
   */
  lemma ChartTrends(cal: Option<real>, tdee: real, weight: real)
    requires MinWeight <= weight
    requires BuildChart(cal, tdee, weight).Success?
    ensures var ch := BuildChart(cal, tdee, weight).value;
            && ch.theoretical[0] == weight && ch.actual[0] == weight
            && (forall i, j :: 0 <= i < j < Days ==> ch.theoretical[i] > ch.theoretical[j])
            && ((forall i, j :: 0 <= i < j < Days ==> ch.actual[i] >= ch.actual[j]) <==> cal.value <= tdee)
  {
    var ch := BuildChart(cal, tdee, weight).value;
    StrictlyDecreasingIff(weight, TheoreticalDeficit, Days);
    NonIncreasingIff(weight, ch.actualDeficit, Days);
  }

  /**
   * With the TDEE taken from the activity table, the chart is built exactly
   * when calories are entered and the BMR is positive.
   */
  lemma ChartBuiltIff(cal: Option<real>, bmr: int, level: ActivityLevel, weight: real)
    requires 0 <= bmr && MinWeight <= weight
    ensures BuildChart(cal, ComputeTdee(bmr, level), weight).Success? <==> cal.Some? && 0 < bmr
  {
  }

  /** 80 kg at a 550 kcal deficit: day 29 of the projection. */
  lemma ProjectionExample()
    ensures var s := WeightSeries(80.0, 550.0, Days);
            s[0] == 80.0 && s[29] == 80.0 - (550.0 / 7700.0) * 29.0
  {
  }
}
