/**
 * The nutrition arithmetic (utils/calculators.ts): energy expenditure, macro goals,
 * consumed totals, the weekly trend and the food recommendations.
 */
module Calculators {
  import opened JsMath
  import opened JsArray
  import opened Types
  import opened Constants

  // ---------------------------------------------------------------------------
  // Energy: basal metabolic rate (Mifflin-St Jeor) and total daily expenditure
  // ---------------------------------------------------------------------------

  function Bmr(p: UserProfile): real
  {
    if p.gender == Male then 10.0 * p.weight + 6.25 * p.height - 5.0 * p.age as real + 5.0
    else 10.0 * p.weight + 6.25 * p.height - 5.0 * p.age as real - 161.0
  }

  /** Total daily energy expenditure: BMR times the activity factor, not rounded. */
  function Tdee(p: UserProfile): real
  {
    Bmr(p) * p.activityLevel.Factor()
  }

  /** For the same body, a man's BMR is exactly 166 kcal above a woman's. */
  lemma BmrGenderGap(p: UserProfile)
    ensures Bmr(p.(gender := Male)) == Bmr(p.(gender := Female)) + 166.0
  {
  }

  /**
   * The Mifflin-St Jeor weights: each extra kilogram adds 10 kcal, each extra
   * centimetre 6.25 kcal, and each extra year takes 5 kcal away.
   */
  lemma BmrSensitivity(p: UserProfile)
    ensures Bmr(p.(weight := p.weight + 1.0)) == Bmr(p) + 10.0
    ensures Bmr(p.(height := p.height + 1.0)) == Bmr(p) + 6.25
    ensures Bmr(p.(age := p.age + 1)) == Bmr(p) - 5.0
  {
  }

  /** The activity factors grow strictly from sedentary to extra active. */
  lemma ActivityFactorsIncrease()
    ensures Sedentary.Factor() < LightlyActive.Factor() < ModeratelyActive.Factor()
            < VeryActive.Factor() < ExtraActive.Factor()
  {
  }

  /** With a non-negative BMR, a higher activity factor never lowers the TDEE. */
  lemma TdeeMonotoneInActivity(p: UserProfile, a: ActivityLevel, b: ActivityLevel)
    requires Bmr(p) >= 0.0 && a.Factor() <= b.Factor()
    ensures Tdee(p.(activityLevel := a)) <= Tdee(p.(activityLevel := b))
  {
    var bmr := Bmr(p);
    assert Bmr(p.(activityLevel := a)) == bmr && Bmr(p.(activityLevel := b)) == bmr;
    assert bmr * a.Factor() <= bmr * b.Factor() by {
      assert bmr * (b.Factor() - a.Factor()) >= 0.0;
    }
  }

  /** The default profile: BMR 1673.75 kcal and an unrounded TDEE of 2594.3125 kcal. */
  lemma DefaultProfileEnergy()
    ensures Bmr(DefaultProfile) == 1673.75
    ensures Tdee(DefaultProfile) == 2594.3125
  {
  }

  // ---------------------------------------------------------------------------
  // Macro goals: the default 30 % protein / 40 % carbs / 30 % fat split
  // ---------------------------------------------------------------------------

  function MacroGoalsFromCalories(calories: real): (g: MacroGoals)
    ensures g.calories == calories
    ensures g.protein == g.protein.Floor as real
            && calories * 0.3 / 4.0 - 0.5 < g.protein <= calories * 0.3 / 4.0 + 0.5
    ensures g.carbs == g.carbs.Floor as real
            && calories * 0.4 / 4.0 - 0.5 < g.carbs <= calories * 0.4 / 4.0 + 0.5
    ensures g.fat == g.fat.Floor as real
            && calories * 0.3 / 9.0 - 0.5 < g.fat <= calories * 0.3 / 9.0 + 0.5
  {
    MacroGoals(
      calories,
      Round(calories * 0.3 / 4.0) as real,
      Round(calories * 0.4 / 4.0) as real,
      Round(calories * 0.3 / 9.0) as real)
  }

  /**
   * The energy of the derived macros (4 kcal/g protein and carbs, 9 kcal/g fat)
   * is within 8.5 kcal of the calorie target: the shares add up to the whole
   * and each rounding moves a macro by at most half a gram.
   */
  lemma MacroEnergyTolerance(calories: real)
    ensures var g := MacroGoalsFromCalories(calories);
      -8.5 <= 4.0 * g.protein + 4.0 * g.carbs + 9.0 * g.fat - calories <= 8.5
  {
  }

  // ---------------------------------------------------------------------------
  // Consumed totals
  // ---------------------------------------------------------------------------

  /** The componentwise sum of the entries' nutrient snapshots, folded from the left. */
  function Consumed(logs: seq<DailyLogEntry>): Nutrients
  {
    if logs == [] then ZeroNutrients
    else Consumed(logs[..|logs| - 1]).Plus(logs[|logs| - 1].nutrients)
  }

  /** No entries: all four totals are zero. */
  lemma ConsumedEmpty()
    ensures Consumed([]) == Nutrients(0.0, 0.0, 0.0, 0.0)
  {
  }

  /** One entry: its own snapshot, calories included, with no rounding. */
  lemma ConsumedSingle(e: DailyLogEntry)
    ensures Consumed([e]) == e.nutrients
  {
    assert [e][..0] == [];
  }

  /** The totals of a concatenation are the sums of the parts' totals. */
  lemma {:induction false} ConsumedConcat(a: seq<DailyLogEntry>, b: seq<DailyLogEntry>)
    ensures Consumed(a + b) == Consumed(a).Plus(Consumed(b))
    decreases |b|
  {
    if b == [] {
      assert a + b == a;
    } else {
      assert (a + b)[..|a + b| - 1] == a + b[..|b| - 1];
      ConsumedConcat(a, b[..|b| - 1]);
    }
  }

  /** Adding three totals in either of two orders gives the same result. */
  lemma PlusSwap(x: Nutrients, y: Nutrients, z: Nutrients)
    ensures x.Plus(y).Plus(z) == x.Plus(z).Plus(y)
  {
  }

  /** Taking one entry out of the middle and adding it at the end leaves the totals unchanged. */
  lemma {:induction false} ConsumedMoveToEnd(left: seq<DailyLogEntry>, x: DailyLogEntry, right: seq<DailyLogEntry>)
    ensures Consumed(left + [x] + right) == Consumed(left + right).Plus(x.nutrients)
  {
    ConsumedSingle(x);
    calc {
      Consumed(left + [x] + right);
      { ConsumedConcat(left + [x], right); }
      Consumed(left + [x]).Plus(Consumed(right));
      { ConsumedConcat(left, [x]); }
      Consumed(left).Plus(x.nutrients).Plus(Consumed(right));
      { PlusSwap(Consumed(left), x.nutrients, Consumed(right)); }
      Consumed(left).Plus(Consumed(right)).Plus(x.nutrients);
      { ConsumedConcat(left, right); }
      Consumed(left + right).Plus(x.nutrients);
    }
  }

  /** Removing the same element from two equal multisets leaves equal multisets. */
  lemma RemoveFromBoth(init: seq<DailyLogEntry>, x: DailyLogEntry, left: seq<DailyLogEntry>, right: seq<DailyLogEntry>)
    requires multiset(init + [x]) == multiset(left + [x] + right)
    ensures multiset(init) == multiset(left + right)
  {
    var m1, m2 := multiset(init), multiset(left + right);
    calc {
      m1 + multiset{x};
      multiset(init + [x]);
      multiset(left + [x] + right);
      multiset(left) + multiset{x} + multiset(right);
      m2 + multiset{x};
    }
    forall y ensures m1[y] == m2[y] {
      assert (m1 + multiset{x})[y] == (m2 + multiset{x})[y];
    }
  }

  /** The totals do not depend on the order of the entries. */
  lemma {:induction false} ConsumedPermutation(a: seq<DailyLogEntry>, b: seq<DailyLogEntry>)
    requires multiset(a) == multiset(b)
    ensures Consumed(a) == Consumed(b)
    decreases |a|
  {
    if a == [] {
      assert |b| == |multiset(b)| == 0;
    } else {
      var n := |a| - 1;
      var x := a[n];
      var init := a[..n];
      assert a == init + [x];
      assert x in multiset(b);
      var j :| 0 <= j < |b| && b[j] == x;
      var left, right := b[..j], b[j + 1..];
      assert b == left + [x] + right;
      RemoveFromBoth(init, x, left, right);
      ConsumedPermutation(init, left + right);
      ConsumedMoveToEnd(left, x, right);
      ConsumedConcat(init, [x]);
      ConsumedSingle(x);
    }
  }

  // ---------------------------------------------------------------------------
  // Weekly trend
  // ---------------------------------------------------------------------------

  const MsPerDay := 86_400_000

  /** The UTC calendar day of a timestamp in milliseconds, as a day number. */
  function DayOf(timestamp: int): (d: int)
    ensures d * MsPerDay <= timestamp < (d + 1) * MsPerDay
  {
    timestamp / MsPerDay
  }

  /** The entry's UTC date (`toISOString().split('T')[0]`) is `day`. */
  function OnDay(day: int): (onDay: DailyLogEntry -> bool)
    ensures forall e :: onDay(e) <==> day * MsPerDay <= e.timestamp < (day + 1) * MsPerDay
  {
    (e: DailyLogEntry) => DayOf(e.timestamp) == day
  }

  /** The entries whose UTC day is `day`, in their original order. */
  function LogsOnDay(logs: seq<DailyLogEntry>, day: int): (r: seq<DailyLogEntry>)
  {
    Filter(logs, OnDay(day))
  }

  /** LogsOnDay keeps the order of the log: it distributes over concatenation, entry by entry. */
  lemma LogsOnDayKeepsOrder(a: seq<DailyLogEntry>, b: seq<DailyLogEntry>, e: DailyLogEntry, day: int)
    ensures LogsOnDay(a + b, day) == LogsOnDay(a, day) + LogsOnDay(b, day)
    ensures LogsOnDay([e], day) == if DayOf(e.timestamp) == day then [e] else []
  {
    FilterConcat(a, b, OnDay(day));
    assert [e][1..] == [];
  }

  /** LogsOnDay keeps exactly the entries of that day. */
  lemma LogsOnDayMembers(logs: seq<DailyLogEntry>, day: int)
    ensures forall e :: e in LogsOnDay(logs, day) <==> e in logs && DayOf(e.timestamp) == day
  {
  }

  /** The label of the newest day of the trend. */
  const TodayLabel: string := "今日"

  /**
   * The label of trend entry `k`, which covers the day `6 - k` days before
   * today: 今日 for today itself, the weekday of its day otherwise.
   */
  function EntryLabel(k: int, today: int, weekday: int -> string): (l: string)
    ensures 6 - k == 0 ==> l == TodayLabel
    ensures 6 - k != 0 ==> l == weekday(today - (6 - k))
  {
    if k == 6 then TodayLabel else weekday(today - (6 - k))
  }

  /** When no weekday name reads 今日, exactly the last entry of the week is labelled 今日. */
  lemma OnlyLastLabelledToday(today: int, weekday: int -> string)
    requires forall d :: weekday(d) != TodayLabel
    ensures forall k :: 0 <= k <= 6 ==> (EntryLabel(k, today, weekday) == TodayLabel <==> k == 6)
  {
    forall k | 0 <= k <= 6
      ensures EntryLabel(k, today, weekday) == TodayLabel <==> k == 6
    {
      if k != 6 {
        assert EntryLabel(k, today, weekday) == weekday(today - (6 - k));
      }
    }
  }

  /** The trend entry of one day: its rounded calories, its unrounded macros, and no per-macro goals. */
  function TrendBucket(logs: seq<DailyLogEntry>, goals: MacroGoals, day: int, dateLabel: string): (t: TrendDay)
    ensures t.dateLabel == dateLabel && t.goal == goals.calories
    ensures var totals := Consumed(LogsOnDay(logs, day));
      && t.calories == Round(totals.calories) as real
      && t.protein == totals.protein && t.fat == totals.fat && t.carbs == totals.carbs
    ensures t.proteinGoal == None && t.fatGoal == None && t.carbsGoal == None
  {
    var totals := Consumed(LogsOnDay(logs, day));
    TrendDay(dateLabel, Round(totals.calories) as real, goals.calories,
             totals.protein, None, totals.fat, None, totals.carbs, None)
  }

  /**
   * The trend of the seven days ending on day `today`, oldest first. `weekday`
   * gives the short weekday label of a day number.
   */
  method WeeklyTrend(logs: seq<DailyLogEntry>, goals: MacroGoals, today: int, weekday: int -> string)
    returns (trend: seq<TrendDay>)
    ensures |trend| == 7
    ensures forall k :: 0 <= k < 7 ==>
      trend[k] == TrendBucket(logs, goals, today - (6 - k), EntryLabel(k, today, weekday))
    ensures forall k :: 0 <= k < 7 ==>
      trend[k].dateLabel == (if k == 6 then TodayLabel else weekday(today - (6 - k)))
    ensures forall k :: 0 <= k < 7 ==> trend[k].goal == goals.calories
    ensures forall k :: 0 <= k < 7 ==>
      var totals := Consumed(LogsOnDay(logs, today - (6 - k)));
      && trend[k].calories == Round(totals.calories) as real
      && trend[k].protein == totals.protein
      && trend[k].fat == totals.fat
      && trend[k].carbs == totals.carbs
    ensures forall k :: 0 <= k < 7 ==>
      trend[k].proteinGoal == None && trend[k].fatGoal == None && trend[k].carbsGoal == None
  {
    trend := [];
    var i := 6;
    while i >= 0
      invariant -1 <= i <= 6
      invariant |trend| == 6 - i
      invariant forall k :: 0 <= k < |trend| ==>
        trend[k] == TrendBucket(logs, goals, today - (6 - k), EntryLabel(k, today, weekday))
    {
      var day := today - i;
      var dateLabel := if i == 0 then TodayLabel else weekday(day);
      trend := trend + [TrendBucket(logs, goals, day, dateLabel)];
      i := i - 1;
    }
  }

  /** A day without entries has all-zero totals. */
  lemma {:induction false} EmptyDayIsZero(logs: seq<DailyLogEntry>, day: int)
    requires forall i :: 0 <= i < |logs| ==> DayOf(logs[i].timestamp) != day
    ensures Consumed(LogsOnDay(logs, day)) == ZeroNutrients
  {
    FilterNone(logs, OnDay(day));
  }

  /** An entry of another day, wherever it stands, changes nothing in a day's totals. */
  lemma {:induction false} OtherDayIgnored(a: seq<DailyLogEntry>, e: DailyLogEntry, b: seq<DailyLogEntry>, day: int)
    requires DayOf(e.timestamp) != day
    ensures LogsOnDay(a + [e] + b, day) == LogsOnDay(a + b, day)
  {
    LogsOnDayKeepsOrder(a + [e], b, e, day);
    LogsOnDayKeepsOrder(a, [e], e, day);
    LogsOnDayKeepsOrder(a, b, e, day);
  }

  /** An entry dated on the bucket's day adds its snapshot to that day's totals. */
  lemma {:induction false} SameDayAdded(a: seq<DailyLogEntry>, e: DailyLogEntry, b: seq<DailyLogEntry>, day: int)
    requires DayOf(e.timestamp) == day
    ensures Consumed(LogsOnDay(a + [e] + b, day)) == Consumed(LogsOnDay(a + b, day)).Plus(e.nutrients)
  {
    var p := OnDay(day);
    var fa, fb := Filter(a, p), Filter(b, p);
    FilterConcat(a + [e], b, p);
    FilterConcat(a, [e], p);
    FilterConcat(a, b, p);
    assert Filter([e], p) == [e];
    assert LogsOnDay(a + [e] + b, day) == fa + [e] + fb;
    assert LogsOnDay(a + b, day) == fa + fb;
    ConsumedMoveToEnd(fa, e, fb);
  }

  // ---------------------------------------------------------------------------
  // Recommendations
  // ---------------------------------------------------------------------------

  datatype Macro = Protein | Fat | Carbs

  datatype Recommendation = Recommendation(foodId: string, name: string, score: real, reason: string)

  /** The three macro gaps, in the order the source lists them: protein, fat, carbs. */
  function Gaps(consumed: Nutrients, goals: MacroGoals): (g: seq<real>)
    ensures |g| == 3
    ensures consumed.protein + g[0] == goals.protein
    ensures consumed.fat + g[1] == goals.fat
    ensures consumed.carbs + g[2] == goals.carbs
  {
    [goals.protein - consumed.protein, goals.fat - consumed.fat, goals.carbs - consumed.carbs]
  }

  const GapKinds: seq<Macro> := [Protein, Fat, Carbs]

  /** The first gap after a stable descending sort of the three gaps. */
  function TopGap(consumed: Nutrients, goals: MacroGoals): Macro
  {
    GapKinds[StableOrder(Gaps(consumed, goals), 3)[0]]
  }

  /**
   * The chosen gap is the largest of the three; ties go to protein, then fat,
   * then carbs.
   */
  lemma TopGapIsLargest(consumed: Nutrients, goals: MacroGoals)
    ensures var g := Gaps(consumed, goals);
      && (TopGap(consumed, goals) == Protein <==> g[0] >= g[1] && g[0] >= g[2])
      && (TopGap(consumed, goals) == Fat <==> g[1] > g[0] && g[1] >= g[2])
      && (TopGap(consumed, goals) == Carbs <==> g[2] > g[0] && g[2] > g[1])
  {
    var g := Gaps(consumed, goals);
    var order := StableOrder(g, 3);
    var j := order[0];
    forall x | 0 <= x < 3 && x != j
      ensures Before(g, j, x)
    {
      assert x in order;
      var l :| 0 <= l < 3 && order[l] == x;
      assert l != 0;
    }
    assert j in order;
    if j == 0 {
      assert Before(g, 0, 1) && Before(g, 0, 2);
    } else if j == 1 {
      assert Before(g, 1, 0) && Before(g, 1, 2);
    } else {
      assert Before(g, 2, 0) && Before(g, 2, 1);
    }
  }

  /** `food.calories || 1`: a food with 0 kcal divides by 1. */
  function CaloriesOrOne(calories: real): (d: real)
    ensures d != 0.0
    ensures calories != 0.0 ==> d == calories
  {
    if calories == 0.0 then 1.0 else calories
  }

  /** The food's grams of the given macro per 100 g. */
  function Content(food: FoodItem, top: Macro): real
  {
    match top
    case Protein => food.protein
    case Fat => food.fat
    case Carbs => food.carbs
  }

  /** The share of the chosen macro per kcal, times 100, less the penalties for nearly met macros. */
  function Score(food: FoodItem, top: Macro, gaps: seq<real>): real
    requires |gaps| == 3
  {
    var base := Content(food, top) / CaloriesOrOne(food.calories) * 100.0;
    var afterProtein := if gaps[0] < 10.0 then base - food.protein / 10.0 else base;
    var afterFat := if gaps[1] < 5.0 then afterProtein - food.fat / 5.0 else afterProtein;
    if gaps[2] < 15.0 then afterFat - food.carbs / 10.0 else afterFat
  }

  /** Without a penalty the score times the divisor is 100 times the chosen macro's content. */
  lemma UnpenalizedScore(food: FoodItem, top: Macro, gaps: seq<real>)
    requires |gaps| == 3 && gaps[0] >= 10.0 && gaps[1] >= 5.0 && gaps[2] >= 15.0
    ensures Score(food, top, gaps) * CaloriesOrOne(food.calories) == Content(food, top) * 100.0
  {
  }

  /**
   * Each penalty applies on its own gap: the score is the unpenalised score less
   * protein/10, fat/5 and carbs/10 for the protein, fat and carbs gaps below 10,
   * 5 and 15 grams; so for non-negative contents a penalty can only lower it.
   */
  lemma Penalties(food: FoodItem, top: Macro, gaps: seq<real>)
    requires |gaps| == 3
    ensures Score(food, top, gaps) == Score(food, top, [10.0, 5.0, 15.0])
      - (if gaps[0] < 10.0 then food.protein / 10.0 else 0.0)
      - (if gaps[1] < 5.0 then food.fat / 5.0 else 0.0)
      - (if gaps[2] < 15.0 then food.carbs / 10.0 else 0.0)
    ensures food.protein >= 0.0 && food.fat >= 0.0 && food.carbs >= 0.0 ==>
      Score(food, top, gaps) <= Score(food, top, [10.0, 5.0, 15.0])
  {
  }

  /** The reason shown with every recommendation; carbs are presented as energy. */
  function Reason(top: Macro): string
  {
    match top
    case Protein => "富含蛋白质"
    case Fat => "富含优质脂肪"
    case Carbs => "富含能量"
  }

  function ScoreFood(food: FoodItem, consumed: Nutrients, goals: MacroGoals): Recommendation
  {
    var top := TopGap(consumed, goals);
    Recommendation(food.id, food.name, Score(food, top, Gaps(consumed, goals)), Reason(top))
  }

  /** The score of every catalogue food, in catalogue order. */
  function Scores(foodDb: seq<FoodItem>, consumed: Nutrients, goals: MacroGoals): (s: seq<real>)
    ensures |s| == |foodDb|
    ensures forall i :: 0 <= i < |foodDb| ==> s[i] == ScoreFood(foodDb[i], consumed, goals).score
  {
    seq(|foodDb|, i requires 0 <= i < |foodDb| => ScoreFood(foodDb[i], consumed, goals).score)
  }

  /** Catalogue positions after the stable sort by descending score. */
  function Ranking(foodDb: seq<FoodItem>, consumed: Nutrients, goals: MacroGoals): (r: seq<nat>)
    ensures |r| == |foodDb|
    ensures RankedBy(Scores(foodDb, consumed, goals), r)
    ensures forall x :: x in r <==> 0 <= x < |foodDb|
  {
    StableOrder(Scores(foodDb, consumed, goals), |foodDb|)
  }

  /** At most three foods, best score first; none once the calorie goal is reached. */
  function Recommendations(foodDb: seq<FoodItem>, consumed: Nutrients, goals: MacroGoals)
    : (r: seq<Recommendation>)
    ensures goals.calories - consumed.calories <= 0.0 ==> r == []
    ensures goals.calories - consumed.calories > 0.0 ==> |r| == MinInt(3, |foodDb|)
    ensures forall k :: 0 <= k < |r| ==>
      r[k] == ScoreFood(foodDb[Ranking(foodDb, consumed, goals)[k]], consumed, goals)
  {
    if goals.calories - consumed.calories <= 0.0 then []
    else
      var order := Ranking(foodDb, consumed, goals);
      var n := MinInt(3, |foodDb|);
      seq(n, k requires 0 <= k < n => ScoreFood(foodDb[order[k]], consumed, goals))
  }

  /**
   * Scores never increase along the list, and foods with equal scores keep
   * their catalogue order.
   */
  lemma RecommendationsOrdered(foodDb: seq<FoodItem>, consumed: Nutrients, goals: MacroGoals, k: nat, l: nat)
    requires k < l < |Recommendations(foodDb, consumed, goals)|
    ensures var r := Recommendations(foodDb, consumed, goals);
      var order := Ranking(foodDb, consumed, goals);
      && r[k].score >= r[l].score
      && (r[k].score == r[l].score ==> order[k] < order[l])
  {
    RankedKeysDescend(Scores(foodDb, consumed, goals), Ranking(foodDb, consumed, goals), k, l);
  }

  /** A catalogue food left out of the list scores no higher than the last one listed. */
  lemma RecommendationsAreBest(foodDb: seq<FoodItem>, consumed: Nutrients, goals: MacroGoals, j: nat)
    requires goals.calories - consumed.calories > 0.0
    requires j < |foodDb|
    requires forall k :: 0 <= k < |Recommendations(foodDb, consumed, goals)| ==>
      Ranking(foodDb, consumed, goals)[k] != j
    ensures var r := Recommendations(foodDb, consumed, goals);
      ScoreFood(foodDb[j], consumed, goals).score <= r[|r| - 1].score
  {
    var r := Recommendations(foodDb, consumed, goals);
    var order := Ranking(foodDb, consumed, goals);
    assert j in order;
    var m :| 0 <= m < |order| && order[m] == j;
    assert m >= |r|;
    RankedKeysDescend(Scores(foodDb, consumed, goals), order, |r| - 1, m);
  }

  /** Every recommendation names a catalogue food and carries the one reason of the chosen gap. */
  lemma RecommendationsFromCatalogue(foodDb: seq<FoodItem>, consumed: Nutrients, goals: MacroGoals, k: nat)
    requires k < |Recommendations(foodDb, consumed, goals)|
    ensures var r := Recommendations(foodDb, consumed, goals)[k];
      && (exists i :: 0 <= i < |foodDb| && r.foodId == foodDb[i].id && r.name == foodDb[i].name)
      && r.reason == Reason(TopGap(consumed, goals))
  {
    var i := Ranking(foodDb, consumed, goals)[k];
    assert i in Ranking(foodDb, consumed, goals);
  }

  /** A food of 0 kcal is divided by 1: without penalties its score is its macro content times 100. */
  lemma ZeroCalorieFoodScore(food: FoodItem, top: Macro, gaps: seq<real>)
    requires food.calories == 0.0
    requires |gaps| == 3 && gaps[0] >= 10.0 && gaps[1] >= 5.0 && gaps[2] >= 15.0
    ensures Score(food, top, gaps) == Content(food, top) * 100.0
  {
  }
}
