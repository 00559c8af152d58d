/**
 * The goal settings screen (components/GoalSetter.tsx): profile edits that
 * recompute the goals, manual edits of a single goal, and the exercise form.
 */
module GoalSetter {
  import opened JsMath
  import opened Types
  import opened Calculators
  import opened App
  import opened Constants

  /** A partial profile: the fields an edit supplies; the others are absent. */
  datatype ProfileUpdate = ProfileUpdate(
    gender: Option<Gender>, age: Option<int>, weight: Option<real>, height: Option<real>,
    activityLevel: Option<ActivityLevel>)

  /** `{ ...profile, ...updates }`. */
  function ApplyUpdate(p: UserProfile, u: ProfileUpdate): (q: UserProfile)
    ensures q.gender == u.gender.GetOr(p.gender)
    ensures q.age == u.age.GetOr(p.age)
    ensures q.weight == u.weight.GetOr(p.weight)
    ensures q.height == u.height.GetOr(p.height)
    ensures q.activityLevel == u.activityLevel.GetOr(p.activityLevel)
  {
    UserProfile(
      u.gender.GetOr(p.gender), u.age.GetOr(p.age), u.weight.GetOr(p.weight),
      u.height.GetOr(p.height), u.activityLevel.GetOr(p.activityLevel))
  }

  /** An empty update leaves the profile as it is, and applying an update twice is applying it once. */
  lemma ApplyUpdateLaws(p: UserProfile, u: ProfileUpdate)
    ensures ApplyUpdate(p, ProfileUpdate(None, None, None, None, None)) == p
    ensures ApplyUpdate(ApplyUpdate(p, u), u) == ApplyUpdate(p, u)
  {
  }

  /** The goal recomputed from a profile: the default split of its unrounded TDEE. */
  function GoalsFor(p: UserProfile): (g: MacroGoals)
    ensures g.calories == Tdee(p)
    ensures g.protein == g.protein.Floor as real
      && Tdee(p) * 0.3 / 4.0 - 0.5 < g.protein <= Tdee(p) * 0.3 / 4.0 + 0.5
    ensures g.carbs == g.carbs.Floor as real
      && Tdee(p) * 0.4 / 4.0 - 0.5 < g.carbs <= Tdee(p) * 0.4 / 4.0 + 0.5
    ensures g.fat == g.fat.Floor as real
      && Tdee(p) * 0.3 / 9.0 - 0.5 < g.fat <= Tdee(p) * 0.3 / 9.0 + 0.5
    ensures -8.5 <= 4.0 * g.protein + 4.0 * g.carbs + 9.0 * g.fat - g.calories <= 8.5
  {
    MacroEnergyTolerance(Tdee(p));
    MacroGoalsFromCalories(Tdee(p))
  }

  /** The TDEE the profile tab displays, rounded. */
  function DisplayedTdee(p: UserProfile): (r: int)
    ensures Tdee(p) - 0.5 < r as real <= Tdee(p) + 0.5
  {
    Round(Tdee(p))
  }

  /** The default profile displays 2594 kcal while its goal keeps 2594.3125. */
  lemma DefaultDisplayedTdee()
    ensures DisplayedTdee(DefaultProfile) == 2594
    ensures GoalsFor(DefaultProfile).calories == 2594.3125
  {
    DefaultProfileEnergy();
  }

  /** The field a manual edit targets. */
  datatype GoalField = CaloriesField | ProteinField | CarbsField | FatField

  /** The goals with one field replaced; nothing is recomputed from the others. */
  function SetGoalField(g: MacroGoals, field: GoalField, v: real): (r: MacroGoals)
    ensures r.calories == (if field == CaloriesField then v else g.calories)
    ensures r.protein == (if field == ProteinField then v else g.protein)
    ensures r.carbs == (if field == CarbsField then v else g.carbs)
    ensures r.fat == (if field == FatField then v else g.fat)
  {
    match field
    case CaloriesField => g.(calories := v)
    case ProteinField => g.(protein := v)
    case CarbsField => g.(carbs := v)
    case FatField => g.(fat := v)
  }

  /**
   * A manual edit changes the energy balance 4p + 4c + 9f of the goals by the
   * macro's energy only, and leaves the calorie target where it was: the
   * target and the macros can drift apart.
   */
  lemma ManualMacroEditKeepsCalories(g: MacroGoals, v: real)
    ensures SetGoalField(g, ProteinField, v).calories == g.calories
    ensures var r := SetGoalField(g, ProteinField, v);
      4.0 * r.protein + 4.0 * r.carbs + 9.0 * r.fat
        == 4.0 * g.protein + 4.0 * g.carbs + 9.0 * g.fat + 4.0 * (v - g.protein)
  {
  }

  /** The screen's own state: the two fields of the exercise form. */
  class GoalSetterForm {
    var exerciseName: string
    var exerciseCals: string

    constructor ()
      ensures exerciseName == "" && exerciseCals == ""
    {
      exerciseName := "";
      exerciseCals := "";
    }

    /** `updateProfile`: the new profile replaces the old and the goals are recomputed from it. */
    method UpdateProfile(app: Session, u: ProfileUpdate)
      modifies app
      ensures app.profile == ApplyUpdate(old(app.profile), u)
      ensures app.goals == GoalsFor(app.profile)
      ensures app.foodDb == old(app.foodDb) && app.logs == old(app.logs)
      ensures app.exerciseLogs == old(app.exerciseLogs)
    {
      var newProfile := ApplyUpdate(app.profile, u);
      app.profile := newProfile;
      app.goals := MacroGoalsFromCalories(Tdee(newProfile));
    }

    /** A manual goal edit: the parsed number, or 0 when the input is not a number. */
    method EditGoal(app: Session, field: GoalField, parsed: Option<real>)
      modifies app
      ensures app.goals == SetGoalField(old(app.goals), field, OrZero(parsed))
      ensures app.profile == old(app.profile) && app.foodDb == old(app.foodDb)
      ensures app.logs == old(app.logs) && app.exerciseLogs == old(app.exerciseLogs)
    {
      app.goals := SetGoalField(app.goals, field, OrZero(parsed));
    }

    /**
     * `handleLogExercise`: nothing happens without a calorie text; otherwise the
     * exercise is appended (named "未命名运动" when unnamed) and the form is cleared.
     * `parseInt` stands for the parse of the calorie text.
     */
    method LogExercise(app: Session, parseInt: string -> real, id: string, timestamp: int)
      modifies this, app
      ensures old(exerciseCals) == "" ==>
        && exerciseName == old(exerciseName) && exerciseCals == old(exerciseCals)
        && app.exerciseLogs == old(app.exerciseLogs)
      ensures old(exerciseCals) != "" ==>
        && exerciseName == "" && exerciseCals == ""
        && app.exerciseLogs == old(app.exerciseLogs) + [ExerciseEntry(
             id, if old(exerciseName) == "" then UnnamedExercise else old(exerciseName),
             parseInt(old(exerciseCals)), timestamp)]
      ensures app.profile == old(app.profile) && app.goals == old(app.goals)
      ensures app.foodDb == old(app.foodDb) && app.logs == old(app.logs)
    {
      if exerciseCals == "" {
        return;
      }
      var name := if exerciseName == "" then UnnamedExercise else exerciseName;
      app.AddExercise(name, parseInt(exerciseCals), id, timestamp);
      exerciseName := "";
      exerciseCals := "";
    }
  }

  const UnnamedExercise: string := "未命名运动"
}
