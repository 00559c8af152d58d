/**
 * The today view's figures (components/DailyDashboard.tsx): the day's calorie
 * budget including exercise, the ring percentage, the remaining calories and
 * the macro progress bars.
 */
module DailyDashboard {
  import opened JsMath
  import opened Types

  /** The day's budget: the calorie goal plus the calories burned (0 when none are given), rounded. */
  function AdjustedGoal(goals: MacroGoals, exerciseBurned: Option<real>): (r: int)
    ensures var budget := goals.calories + exerciseBurned.GetOr(0.0);
      budget - 0.5 < r as real <= budget + 0.5
  {
    Round(goals.calories + exerciseBurned.GetOr(0.0))
  }

  /**
   * `Math.min(Math.round(current / target * 100), 100)`. `None` stands for a
   * result that is not a finite number: NaN for 0 / 0 and -Infinity for a
   * negative amount over 0. A positive amount over 0 is +Infinity, clamped to 100.
   */
  function Percent(current: real, target: real): (r: Option<int>)
    ensures target != 0.0 ==> r == Some(MinInt(Round(current / target * 100.0), 100))
    ensures target == 0.0 ==> (r.Some? <==> current > 0.0)
    ensures target == 0.0 && current > 0.0 ==> r == Some(100)
    ensures r.Some? ==> r.value <= 100
  {
    if target != 0.0 then Some(MinInt(Round(current / target * 100.0), 100))
    else if current > 0.0 then Some(100)
    else None
  }

  /** With a positive target, a non-negative amount gives a percentage between 0 and 100. */
  lemma PercentInRange(current: real, target: real)
    requires current >= 0.0 && target > 0.0
    ensures Percent(current, target).Some?
    ensures 0 <= Percent(current, target).value <= 100
  {
    assert current / target * 100.0 >= 0.0;
    RoundMonotone(0.0, current / target * 100.0);
  }

  /** Reaching the target fills the bar: an amount at or above a positive target gives exactly 100. */
  lemma PercentFull(current: real, target: real)
    requires target > 0.0 && current >= target
    ensures Percent(current, target) == Some(100)
  {
    assert current / target >= 1.0;
    RoundMonotone(100.0, current / target * 100.0);
    RoundOfInt(100);
  }

  /** More consumed never shrinks the bar (for a positive target). */
  lemma PercentMonotone(a: real, b: real, target: real)
    requires target > 0.0 && a <= b
    ensures Percent(a, target).value <= Percent(b, target).value
  {
    assert a / target <= b / target;
    RoundMonotone(a / target * 100.0, b / target * 100.0);
  }

  /**
   * The calorie ring: the rounded consumption against the adjusted budget. It
   * never exceeds 100, and lies in 0..100 for a non-negative consumption and a
   * positive budget.
   */
  function CalPercent(consumed: Nutrients, goals: MacroGoals, exerciseBurned: Option<real>): (r: Option<int>)
    ensures r == Percent(Round(consumed.calories) as real, AdjustedGoal(goals, exerciseBurned) as real)
    ensures r.Some? ==> r.value <= 100
    ensures consumed.calories >= 0.0 && AdjustedGoal(goals, exerciseBurned) > 0 ==>
      r.Some? && 0 <= r.value <= 100
  {
    var eaten := Round(consumed.calories) as real;
    var budget := AdjustedGoal(goals, exerciseBurned) as real;
    if consumed.calories >= 0.0 && budget > 0.0 then
      PercentInRange(eaten, budget);
      Percent(eaten, budget)
    else
      Percent(eaten, budget)
  }

  /** The calories still available today; never negative. */
  function RemainingCals(consumed: Nutrients, goals: MacroGoals, exerciseBurned: Option<real>): (r: int)
    ensures var gap := AdjustedGoal(goals, exerciseBurned) - Round(consumed.calories);
      r >= 0 && (gap >= 0 ==> r == gap) && (gap < 0 ==> r == 0)
  {
    MaxInt(0, AdjustedGoal(goals, exerciseBurned) - Round(consumed.calories))
  }

  /** With a positive budget, nothing left to eat means a full ring. */
  lemma NothingRemainingFullRing(consumed: Nutrients, goals: MacroGoals, exerciseBurned: Option<real>)
    requires AdjustedGoal(goals, exerciseBurned) > 0
    ensures RemainingCals(consumed, goals, exerciseBurned) == 0 ==>
      CalPercent(consumed, goals, exerciseBurned) == Some(100)
  {
    var budget := AdjustedGoal(goals, exerciseBurned) as real;
    var eaten := Round(consumed.calories) as real;
    if RemainingCals(consumed, goals, exerciseBurned) == 0 {
      PercentFull(eaten, budget);
    }
  }

  /** Exercise raises the budget by the burned calories, up to rounding. */
  lemma ExerciseRaisesBudget(goals: MacroGoals, burned: real)
    requires burned >= 0.0
    ensures AdjustedGoal(goals, None) <= AdjustedGoal(goals, Some(burned))
    ensures AdjustedGoal(goals, Some(burned)) as real <= AdjustedGoal(goals, None) as real + burned + 1.0
  {
    RoundMonotone(goals.calories, goals.calories + burned);
  }
}
