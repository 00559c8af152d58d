/**
 * The application shell (App.tsx): the session state, the icon repair of the
 * stored catalogue, the log entry snapshot, the "today" views and the list updates.
 */
module App {
  import opened JsMath
  import opened JsArray
  import opened Types
  import opened Constants
  import opened Calculators

  // ---------------------------------------------------------------------------
  // Catalogue icon repair
  // ---------------------------------------------------------------------------

  /** Position `i` holds the first food of the catalogue that carries `id`. */
  predicate FirstWithId(catalogue: seq<FoodItem>, id: string, i: int)
  {
    0 <= i < |catalogue| && catalogue[i].id == id
    && forall j :: 0 <= j < i ==> catalogue[j].id != id
  }

  /** `catalogue.find(f => f.id === id)`: the first food with that id, if any. */
  function FindById(catalogue: seq<FoodItem>, id: string): (r: Option<FoodItem>)
    ensures r.Some? ==> r.value in catalogue && r.value.id == id
    ensures r.Some? ==> exists i :: FirstWithId(catalogue, id, i) && catalogue[i] == r.value
    ensures r.None? <==> forall i :: 0 <= i < |catalogue| ==> catalogue[i].id != id
  {
    if catalogue == [] then None
    else if catalogue[0].id == id then
      assert FirstWithId(catalogue, id, 0);
      Some(catalogue[0])
    else
      var rest := FindById(catalogue[1..], id);
      if rest.Some? then
        var i :| FirstWithId(catalogue[1..], id, i) && catalogue[1..][i] == rest.value;
        assert FirstWithId(catalogue, id, i + 1);
        rest
      else
        rest
  }

  /** An icon the repair replaces: none at all, or the fallback glyph. */
  predicate IconMissing(icon: string)
  {
    icon == "" || icon == FallbackIcon
  }

  function RepairIcon(item: FoodItem, builtin: seq<FoodItem>): FoodItem
  {
    var reference := FindById(builtin, item.id);
    if reference.Some? && IconMissing(item.icon) then item.(icon := reference.value.icon) else item
  }

  /**
   * The stored catalogue with the icons of built-in foods restored: only the icon
   * of a food whose id is built in and whose icon is missing changes, to the
   * built-in icon; everything else, the length and the order are kept.
   */
  function RepairIcons(stored: seq<FoodItem>, builtin: seq<FoodItem>): (r: seq<FoodItem>)
    ensures |r| == |stored|
    ensures forall i :: 0 <= i < |r| ==> r[i] == stored[i].(icon := r[i].icon)
    ensures forall i :: 0 <= i < |r| && r[i].icon != stored[i].icon ==>
      && IconMissing(stored[i].icon)
      && FindById(builtin, stored[i].id).Some?
      && r[i].icon == FindById(builtin, stored[i].id).value.icon
    ensures forall i :: 0 <= i < |r| && IconMissing(stored[i].icon) && FindById(builtin, stored[i].id).Some? ==>
      r[i].icon == FindById(builtin, stored[i].id).value.icon
  {
    seq(|stored|, i requires 0 <= i < |stored| => RepairIcon(stored[i], builtin))
  }

  /** Repairing a second time changes nothing. */
  lemma RepairIconsIdempotent(stored: seq<FoodItem>, builtin: seq<FoodItem>)
    ensures RepairIcons(RepairIcons(stored, builtin), builtin) == RepairIcons(stored, builtin)
  {
    var once := RepairIcons(stored, builtin);
    var twice := RepairIcons(once, builtin);
    forall i | 0 <= i < |once| ensures twice[i] == once[i] {
      assert once[i].id == stored[i].id;
    }
  }

  /** No built-in icon counts as missing, so the repair never touches an icon it restored. */
  lemma InitialIconsNotMissing()
    ensures forall i :: 0 <= i < |InitialFoodDb| ==> !IconMissing(InitialFoodDb[i].icon)
  {
    InitialIconsPresent();
  }

  /**
   * The repair never adds a food: an id absent from the stored catalogue, built in
   * or not, is absent from the result.
   */
  lemma RepairAddsNothing(stored: seq<FoodItem>, builtin: seq<FoodItem>, id: string)
    requires forall i :: 0 <= i < |stored| ==> stored[i].id != id
    ensures forall i :: 0 <= i < |RepairIcons(stored, builtin)| ==> RepairIcons(stored, builtin)[i].id != id
  {
  }

  /** A stored catalogue that lost every built-in food stays without them. */
  lemma RepairKeepsEmptyCatalogueEmpty()
    ensures |InitialFoodDb| > 0 && RepairIcons([], InitialFoodDb) == []
  {
  }

  // ---------------------------------------------------------------------------
  // Log entries and the views of today
  // ---------------------------------------------------------------------------

  /**
   * The log entry for `weight` grams of `food`: a snapshot of the food's id, name
   * and icon (the fallback glyph when it has none) with the per-100 g figures
   * scaled to the portion; calories are rounded, the macros are not.
   */
  function NewLogEntry(food: FoodItem, weight: real, id: string, timestamp: int): (e: DailyLogEntry)
    ensures e.id == id && e.timestamp == timestamp && e.weight == weight
    ensures e.foodId == food.id && e.foodName == food.name
    ensures food.icon != "" ==> e.icon == food.icon
    ensures food.icon == "" ==> e.icon == FallbackIcon
    ensures e.nutrients.calories == e.nutrients.calories.Floor as real
    ensures food.calories * weight / 100.0 - 0.5 < e.nutrients.calories <= food.calories * weight / 100.0 + 0.5
    ensures e.nutrients.protein == food.protein * weight / 100.0
    ensures e.nutrients.fat == food.fat * weight / 100.0
    ensures e.nutrients.carbs == food.carbs * weight / 100.0
  {
    var factor := weight / 100.0;
    DailyLogEntry(
      id, food.id, food.name, if food.icon == "" then FallbackIcon else food.icon, weight, timestamp,
      Nutrients(Round(food.calories * factor) as real, food.protein * factor, food.fat * factor, food.carbs * factor))
  }

  /** 150 g of chicken breast: 248 kcal (247.5 rounded up), 46.5 g protein, 5.4 g fat, no carbs. */
  lemma ChickenBreastEntry(id: string, timestamp: int)
    ensures InitialFoodDb[0].name == "鸡胸肉"
    ensures NewLogEntry(InitialFoodDb[0], 150.0, id, timestamp).nutrients == Nutrients(248.0, 46.5, 5.4, 0.0)
  {
    assert Round(165.0 * (150.0 / 100.0)) == 248;
  }

  /** The food log entries of day `today`, in order. */
  function TodayLogs(logs: seq<DailyLogEntry>, today: int): (r: seq<DailyLogEntry>)
    ensures forall e :: e in r <==> e in logs && DayOf(e.timestamp) == today
  {
    LogsOnDay(logs, today)
  }

  /** TodayLogs keeps the order of the log: it distributes over concatenation, entry by entry. */
  lemma TodayLogsKeepOrder(a: seq<DailyLogEntry>, b: seq<DailyLogEntry>, e: DailyLogEntry, today: int)
    ensures TodayLogs(a + b, today) == TodayLogs(a, today) + TodayLogs(b, today)
    ensures TodayLogs([e], today) == if DayOf(e.timestamp) == today then [e] else []
  {
    LogsOnDayKeepsOrder(a, b, e, today);
  }

  function ExerciseOnDay(day: int): ExerciseEntry -> bool
  {
    (e: ExerciseEntry) => DayOf(e.timestamp) == day
  }

  /** The exercise entries of day `today`, in order. */
  function TodayExercise(exerciseLogs: seq<ExerciseEntry>, today: int): (r: seq<ExerciseEntry>)
    ensures forall e :: e in r <==> e in exerciseLogs && DayOf(e.timestamp) == today
  {
    Filter(exerciseLogs, ExerciseOnDay(today))
  }
  /** TodayExercise keeps the order of the exercise log: it distributes over concatenation, entry by entry. */
  lemma TodayExerciseKeepsOrder(a: seq<ExerciseEntry>, b: seq<ExerciseEntry>, e: ExerciseEntry, today: int)
    ensures TodayExercise(a + b, today) == TodayExercise(a, today) + TodayExercise(b, today)
    ensures TodayExercise([e], today) == if DayOf(e.timestamp) == today then [e] else []
  {
    FilterConcat(a, b, ExerciseOnDay(today));
    assert [e][1..] == [];
  }


  function Burned(e: ExerciseEntry): real
  {
    e.caloriesBurned
  }

  /** The calories burned today, summed and then rounded. */
  function TotalBurned(todayExercise: seq<ExerciseEntry>): (r: int)
    ensures todayExercise == [] ==> r == 0
    ensures Sum(todayExercise, Burned) - 0.5 < r as real <= Sum(todayExercise, Burned) + 0.5
  {
    Round(Sum(todayExercise, Burned))
  }

  /** Burned calories that are all non-negative give a non-negative total. */
  lemma TotalBurnedNonNegative(todayExercise: seq<ExerciseEntry>)
    requires forall i :: 0 <= i < |todayExercise| ==> todayExercise[i].caloriesBurned >= 0.0
    ensures TotalBurned(todayExercise) >= 0
  {
    SumAtLeast(todayExercise, Burned, 0.0);
  }

  /** Without saved goals the session starts from the default profile: 2594.3125 kcal, 195/259/86 g. */
  lemma DefaultGoals()
    ensures MacroGoalsFromCalories(Tdee(DefaultProfile)) == MacroGoals(2594.3125, 195.0, 259.0, 86.0)
  {
    DefaultProfileEnergy();
  }

  // ---------------------------------------------------------------------------
  // List updates
  // ---------------------------------------------------------------------------

  /** The entry does not carry `id`. */
  function LogIdIsNot(id: string): DailyLogEntry -> bool
  {
    (e: DailyLogEntry) => e.id != id
  }

  /** The food log without the entries carrying `id`. */
  function LogsWithoutId(logs: seq<DailyLogEntry>, id: string): (r: seq<DailyLogEntry>)
    ensures forall e :: e in r <==> e in logs && e.id != id
  {
    Filter(logs, LogIdIsNot(id))
  }

  /**
   * Deleting works entry by entry and keeps the order: on a concatenation it is
   * the deletion on each part, and a single entry stays exactly when its id differs.
   */
  lemma DeleteLogKeepsOrder(a: seq<DailyLogEntry>, b: seq<DailyLogEntry>, e: DailyLogEntry, id: string)
    ensures LogsWithoutId(a + b, id) == LogsWithoutId(a, id) + LogsWithoutId(b, id)
    ensures LogsWithoutId([e], id) == if e.id == id then [] else [e]
  {
    FilterConcat(a, b, LogIdIsNot(id));
    assert [e][1..] == [];
  }

  /** The exercise does not carry `id`. */
  function ExerciseIdIsNot(id: string): ExerciseEntry -> bool
  {
    (e: ExerciseEntry) => e.id != id
  }

  /** The exercise log without the entries carrying `id`. */
  function ExercisesWithoutId(exerciseLogs: seq<ExerciseEntry>, id: string): (r: seq<ExerciseEntry>)
    ensures forall e :: e in r <==> e in exerciseLogs && e.id != id
  {
    Filter(exerciseLogs, ExerciseIdIsNot(id))
  }

  /** Deleting an exercise works entry by entry and keeps the order, as for the food log. */
  lemma DeleteExerciseKeepsOrder(a: seq<ExerciseEntry>, b: seq<ExerciseEntry>, e: ExerciseEntry, id: string)
    ensures ExercisesWithoutId(a + b, id) == ExercisesWithoutId(a, id) + ExercisesWithoutId(b, id)
    ensures ExercisesWithoutId([e], id) == if e.id == id then [] else [e]
  {
    FilterConcat(a, b, ExerciseIdIsNot(id));
    assert [e][1..] == [];
  }

  /** What the persistent store held at start-up, one optional value per key. */
  datatype SavedState = SavedState(
    profile: Option<UserProfile>, goals: Option<MacroGoals>, foodDb: Option<seq<FoodItem>>,
    logs: Option<seq<DailyLogEntry>>, exerciseLogs: Option<seq<ExerciseEntry>>)

  /** The state the application keeps for the session. */
  class Session {
    var profile: UserProfile
    var goals: MacroGoals
    var foodDb: seq<FoodItem>
    var logs: seq<DailyLogEntry>
    var exerciseLogs: seq<ExerciseEntry>

    /**
     * The initial state: saved values where there are some, the defaults otherwise;
     * the catalogue gets its icons repaired and the two logs are pruned.
     */
    constructor (saved: SavedState,
                 pruneLogs: seq<DailyLogEntry> -> seq<DailyLogEntry>,
                 pruneExercise: seq<ExerciseEntry> -> seq<ExerciseEntry>)
      ensures profile == saved.profile.GetOr(DefaultProfile)
      ensures goals == saved.goals.GetOr(MacroGoalsFromCalories(Tdee(DefaultProfile)))
      ensures foodDb == RepairIcons(saved.foodDb.GetOr(InitialFoodDb), InitialFoodDb)
      ensures logs == (if saved.logs.Some? then pruneLogs(saved.logs.value) else [])
      ensures exerciseLogs == (if saved.exerciseLogs.Some? then pruneExercise(saved.exerciseLogs.value) else [])
    {
      profile := saved.profile.GetOr(DefaultProfile);
      goals := saved.goals.GetOr(MacroGoalsFromCalories(Tdee(DefaultProfile)));
      foodDb := RepairIcons(saved.foodDb.GetOr(InitialFoodDb), InitialFoodDb);
      logs := if saved.logs.Some? then pruneLogs(saved.logs.value) else [];
      exerciseLogs := if saved.exerciseLogs.Some? then pruneExercise(saved.exerciseLogs.value) else [];
    }

    /** Logs a portion: the new entry goes in front, then the log is pruned. */
    method AddLog(food: FoodItem, weight: real, id: string, timestamp: int,
                  prune: seq<DailyLogEntry> -> seq<DailyLogEntry>)
      modifies this
      ensures logs == prune([NewLogEntry(food, weight, id, timestamp)] + old(logs))
      ensures profile == old(profile) && goals == old(goals)
      ensures foodDb == old(foodDb) && exerciseLogs == old(exerciseLogs)
    {
      var entry := NewLogEntry(food, weight, id, timestamp);
      logs := prune([entry] + logs);
    }

    method DeleteLog(id: string)
      modifies this
      ensures logs == LogsWithoutId(old(logs), id)
      ensures profile == old(profile) && goals == old(goals)
      ensures foodDb == old(foodDb) && exerciseLogs == old(exerciseLogs)
    {
      logs := LogsWithoutId(logs, id);
    }

    method ClearLogs()
      modifies this
      ensures logs == []
      ensures profile == old(profile) && goals == old(goals)
      ensures foodDb == old(foodDb) && exerciseLogs == old(exerciseLogs)
    {
      logs := [];
    }

    /** Records an exercise at the end of the exercise log. */
    method AddExercise(name: string, caloriesBurned: real, id: string, timestamp: int)
      modifies this
      ensures exerciseLogs == old(exerciseLogs) + [ExerciseEntry(id, name, caloriesBurned, timestamp)]
      ensures profile == old(profile) && goals == old(goals)
      ensures foodDb == old(foodDb) && logs == old(logs)
    {
      exerciseLogs := exerciseLogs + [ExerciseEntry(id, name, caloriesBurned, timestamp)];
    }

    method DeleteExercise(id: string)
      modifies this
      ensures exerciseLogs == ExercisesWithoutId(old(exerciseLogs), id)
      ensures profile == old(profile) && goals == old(goals)
      ensures foodDb == old(foodDb) && logs == old(logs)
    {
      exerciseLogs := ExercisesWithoutId(exerciseLogs, id);
    }
  }
}
