/** The records of the application (types.ts). Every quantity is a `real`. */
module Types {
  import opened JsMath

  datatype Gender = Male | Female

  /** The five activity levels and the factor each stands for. */
  datatype ActivityLevel = Sedentary | LightlyActive | ModeratelyActive | VeryActive | ExtraActive
  {
    function Factor(): real
    {
      match this
      case Sedentary => 1.2
      case LightlyActive => 1.375
      case ModeratelyActive => 1.55
      case VeryActive => 1.725
      case ExtraActive => 1.9
    }
  }

  datatype UserProfile = UserProfile(
    gender: Gender, age: int, weight: real, height: real, activityLevel: ActivityLevel)

  /** Daily targets: kcal and grams. */
  datatype MacroGoals = MacroGoals(calories: real, protein: real, carbs: real, fat: real)

  /**
   * A catalogue food; the four figures are per 100 g. An `icon` of "" stands for a
   * missing icon (foods added by the user carry none).
   */
  datatype FoodItem = FoodItem(
    id: string, name: string, icon: string,
    calories: real, protein: real, fat: real, carbs: real)

  /** Nutrient totals: kcal and grams. */
  datatype Nutrients = Nutrients(calories: real, protein: real, fat: real, carbs: real)
  {
    function Plus(other: Nutrients): Nutrients
    {
      Nutrients(calories + other.calories, protein + other.protein,
                fat + other.fat, carbs + other.carbs)
    }
  }

  const ZeroNutrients := Nutrients(0.0, 0.0, 0.0, 0.0)

  /** One eaten portion, with a snapshot of the food taken when it was logged. */
  datatype DailyLogEntry = DailyLogEntry(
    id: string, foodId: string, foodName: string, icon: string,
    weight: real, timestamp: int, nutrients: Nutrients)

  datatype ExerciseEntry = ExerciseEntry(id: string, name: string, caloriesBurned: real, timestamp: int)

  /**
   * One day of the weekly trend. The three per-macro goals are declared but never
   * filled in by the trend builder, so they are optional here.
   */
  datatype TrendDay = TrendDay(
    dateLabel: string, calories: real, goal: real,
    protein: real, proteinGoal: Option<real>,
    fat: real, fatGoal: Option<real>,
    carbs: real, carbsGoal: Option<real>)
}
