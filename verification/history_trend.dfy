/**
 * The weekly chart (components/HistoryTrend.tsx): the common scale of the
 * bars, each day's bar and goal marker, the over-goal flag and the two
 * weekly averages.
 */
module HistoryTrend {
  import opened JsMath
  import opened JsArray
  import opened Types

  /** The larger of a day's calories and its goal. */
  function DayPeak(d: TrendDay): real
  {
    MaxReal(d.calories, d.goal)
  }

  /**
   * The chart's scale: the largest calories or goal of any day, and at least
   * 2000. It is one of those values.
   */
  function MaxCal(trend: seq<TrendDay>): (m: real)
    ensures m >= 2000.0
    ensures forall i :: 0 <= i < |trend| ==> trend[i].calories <= m && trend[i].goal <= m
    ensures m == 2000.0 || exists i :: 0 <= i < |trend| && DayPeak(trend[i]) == m
  {
    if trend == [] then 2000.0
    else
      var rest := MaxCal(trend[1..]);
      assert forall i :: 1 <= i < |trend| ==> trend[i] == trend[1..][i - 1];
      var m := MaxReal(DayPeak(trend[0]), rest);
      assert m != 2000.0 && m != DayPeak(trend[0]) ==> exists j :: 0 <= j < |trend[1..]| && DayPeak(trend[1..][j]) == m;
      m
  }

  /** The bar's height, in percent of the scale. */
  function HeightPerc(d: TrendDay, maxCal: real): (r: real)
    requires maxCal > 0.0
    ensures r * maxCal == d.calories * 100.0
  {
    d.calories / maxCal * 100.0
  }

  /** The goal marker's position, in percent of the scale. */
  function GoalPerc(d: TrendDay, maxCal: real): (r: real)
    requires maxCal > 0.0
    ensures r * maxCal == d.goal * 100.0
  {
    d.goal / maxCal * 100.0
  }

  /** A day is flagged when its calories are above its goal. */
  predicate IsOver(d: TrendDay)
  {
    d.calories > d.goal
  }

  /** A value between 0 and a positive scale is between 0 and 100 percent of it. */
  lemma ScaledFits(x: real, m: real)
    requires m > 0.0 && 0.0 <= x <= m
    ensures 0.0 <= x / m * 100.0 <= 100.0
  {
    var q := x / m;
    assert q * m == x;
  }

  /** Scaling by a positive number keeps the order of two values. */
  lemma ScaledOrder(x: real, y: real, m: real)
    requires m > 0.0
    ensures x > y <==> x / m * 100.0 > y / m * 100.0
  {
    var p, q := x / m, y / m;
    assert p * m == x && q * m == y;
    if p > q {
      assert p * m > q * m;
    } else {
      assert p * m <= q * m;
    }
  }

  /**
   * On the chart's own scale every bar and goal marker of a non-negative day
   * fits between 0 and 100 percent, and a day is flagged exactly when its bar
   * rises above its goal marker.
   */
  lemma BarsFitChart(trend: seq<TrendDay>, i: int)
    requires 0 <= i < |trend|
    requires trend[i].calories >= 0.0 && trend[i].goal >= 0.0
    ensures 0.0 <= HeightPerc(trend[i], MaxCal(trend)) <= 100.0
    ensures 0.0 <= GoalPerc(trend[i], MaxCal(trend)) <= 100.0
    ensures IsOver(trend[i]) <==> HeightPerc(trend[i], MaxCal(trend)) > GoalPerc(trend[i], MaxCal(trend))
  {
    var m := MaxCal(trend);
    ScaledFits(trend[i].calories, m);
    ScaledFits(trend[i].goal, m);
    ScaledOrder(trend[i].calories, trend[i].goal, m);
  }

  function Protein(d: TrendDay): real { d.protein }
  function Carbs(d: TrendDay): real { d.carbs }

  /** The week's average protein: the sum over the days divided by 7, rounded. */
  function AvgProtein(trend: seq<TrendDay>): (r: int)
    ensures Sum(trend, Protein) / 7.0 - 0.5 < r as real <= Sum(trend, Protein) / 7.0 + 0.5
  {
    Round(Sum(trend, Protein) / 7.0)
  }

  /** The week's average carbohydrate, likewise. */
  function AvgCarbs(trend: seq<TrendDay>): (r: int)
    ensures Sum(trend, Carbs) / 7.0 - 0.5 < r as real <= Sum(trend, Carbs) / 7.0 + 0.5
  {
    Round(Sum(trend, Carbs) / 7.0)
  }

  /** Over a week of seven days the average lies between the rounded least and greatest day. */
  lemma AvgProteinBetween(trend: seq<TrendDay>, lo: real, hi: real)
    requires |trend| == 7
    requires forall i :: 0 <= i < 7 ==> lo <= trend[i].protein <= hi
    ensures Round(lo) <= AvgProtein(trend) <= Round(hi)
  {
    SumAtLeast(trend, Protein, lo);
    SumAtMost(trend, Protein, hi);
    RoundMonotone(lo, Sum(trend, Protein) / 7.0);
    RoundMonotone(Sum(trend, Protein) / 7.0, hi);
  }

  lemma AvgCarbsBetween(trend: seq<TrendDay>, lo: real, hi: real)
    requires |trend| == 7
    requires forall i :: 0 <= i < 7 ==> lo <= trend[i].carbs <= hi
    ensures Round(lo) <= AvgCarbs(trend) <= Round(hi)
  {
    SumAtLeast(trend, Carbs, lo);
    SumAtMost(trend, Carbs, hi);
    RoundMonotone(lo, Sum(trend, Carbs) / 7.0);
    RoundMonotone(Sum(trend, Carbs) / 7.0, hi);
  }

  /** Dividing a non-negative amount by more never gives more. */
  lemma DivideByMore(x: real, a: real, b: real)
    requires x >= 0.0 && 0.0 < a <= b
    ensures x / b <= x / a
  {
    var p, q := x / b, x / a;
    assert p * b == x && q * a == x;
    assert q >= 0.0;
    assert (q - p) * b == q * (b - a);
    assert q * (b - a) >= 0.0;
  }

  /**
   * The divisor is 7 whatever the number of days: over fewer than seven days of
   * non-negative protein the reported average is at most the days' own mean.
   */
  lemma AvgDividesBySeven(trend: seq<TrendDay>)
    requires 0 < |trend| < 7
    requires forall i :: 0 <= i < |trend| ==> trend[i].protein >= 0.0
    ensures AvgProtein(trend) <= Round(Sum(trend, Protein) / |trend| as real)
  {
    var total := Sum(trend, Protein);
    SumAtLeast(trend, Protein, 0.0);
    DivideByMore(total, |trend| as real, 7.0);
    RoundMonotone(total / 7.0, total / |trend| as real);
  }
}
