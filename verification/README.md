# NutriTrack in Dafny

A model of the arithmetic and list logic of NutriTrack, a single-page nutrition
diary. Users keep a profile (gender, age, weight, height, activity level) and
derive daily macro goals from it. They record portions of foods from a
catalogue and exercise sessions, and view today's budget, a seven-day trend
and food recommendations. The model follows the TypeScript code as written.

Modules, one per source file:

- `JsMath` (`js_math.dfy`), `JsArray` (`js_array.dfy`), `JsString` (`js_string.dfy`):
  the JavaScript built-ins the code relies on.
  - `Math.round` rounds halves toward +infinity, as section 20.2.2.28 of ECMA-262 describes.
  - `Number(x) || 0`.
  - `filter`, `reduce`, and the stable `sort` of section 22.1.3.27 of ECMA-262 (as insertion of indices by descending key).
  - `toLowerCase` and `includes`.
- `Types` (`types.dfy`): the records of `types.ts`.
  - `ActivityLevel` carries its factors 1.2/1.375/1.55/1.725/1.9.
  - Optional values are `Option`.
- `Constants` (`constants.dfy`): the 25-item seed catalogue and the default profile.
- `Calculators` (`calculators.dfy`), from `utils/calculators.ts`:
  - BMR and TDEE;
  - the 30/40/30 macro split;
  - consumed totals;
  - the seven-day trend: an imperative loop from day 6 down to 0;
  - recommendations.
- `App` (`app.dfy`): log-entry snapshots, the catalogue icon repair, today's filters,
  the burned-calorie total, and the `Session` class. `Session` holds the five state
  slots of `App.tsx`. Its methods are the updates `App.tsx` makes itself: adding,
  deleting and clearing log entries, and adding and deleting exercises.
- `GoalSetter`, `FoodManager`, `DailyDashboard`, `HistoryTrend`: one module per component.
  - Each component's form state is a class.
  - A component method receives the `Session` it updates. The profile and goal edits
    (`GoalSetterForm`) and the catalogue edits (`FoodManagerView`) assign the
    `Session`'s fields there.
  - The view figures are functions.

Quantities are `real`, so there is no floating-point error, NaN or infinity.
Dates are abstract:
- the day of a timestamp is `DayOf(t) = t / 86400000` (the UTC date);
- "today" is a parameter;
- the weekday labels come from a supplied function;
- ids and timestamps that the code takes from `Date.now()` are parameters.

Some of the code's behaviour may be unexpected:
- TDEE is not rounded. The default profile has BMR 1673.75 and TDEE 2594.3125.
- Goals derived from a TDEE keep its unrounded calories. Each macro is rounded separately,
  so 4·protein + 4·carbs + 9·fat can differ from the calorie goal by up to 8.5 kcal:
  0.5 g of rounding on each of protein and carbs is 2 kcal each, and 0.5 g on fat is 4.5 kcal.
- Consumed calories are summed without rounding.
- Repairing the stored catalogue only restores icons. It never re-adds missing built-in foods.
- A manual macro edit changes one goal field. Calories are not recomputed from the macros.
- Trend days never set their per-macro goals.

## Model

| member | source | states |
|---|---|---|
| JsMath.Round | utils/calculators.ts:30 | `Math.round`: an integer within half a unit of the argument, halves rounded up |
| JsMath.OrZero | components/FoodManager.tsx:30-33 | `Number(x) \|\| 0`: a number is kept, a missing or NaN value becomes 0 |
| JsArray.Filter | App.tsx:80 | the result holds exactly the elements that satisfy the predicate and is no longer than the input |
| JsArray.FilterConcat | App.tsx:132 | filtering a concatenation filters each part, so order is kept |
| JsArray.Sum | App.tsx:84 | the `reduce` sum from 0; stated by SumConcat, SumAtLeast and SumAtMost |
| JsArray.StableOrder | utils/calculators.ts:100 | the stable descending sort yields a permutation of the positions, ranked by key with ties in original order |
| JsArray.RankedUnique | utils/calculators.ts:121 | a ranking of all positions is unique, so the stable sort's result is determined |
| JsString.ToLowerCase | components/FoodManager.tsx:23 | same length, each character lowered (ASCII capitals only) |
| JsString.Includes | components/FoodManager.tsx:23 | `includes`: stated by IncludesAt and IncludesEmpty |
| JsString.IncludesAt | components/FoodManager.tsx:23 | `includes` holds exactly when the needle occurs at some index |
| JsString.ToLowerCaseIdempotent | components/FoodManager.tsx:23 | lowering twice equals lowering once |
| Constants.InitialIdsDistinct | constants.ts:4-39 | 25 built-in foods whose ids are pairwise distinct, "1" to "25" |
| Constants.InitialNutrientsSound | constants.ts:6-38 | every built-in food has positive calories and non-negative macros |
| Constants.InitialIconsPresent | constants.ts:6-38 | every built-in icon is non-empty and differs from the fallback 🍱 |
| Calculators.Bmr | utils/calculators.ts:7-14 | the Mifflin–St Jeor BMR; its weights, gender gap and default value are stated by BmrSensitivity, BmrGenderGap and DefaultProfileEnergy |
| Calculators.Tdee | utils/calculators.ts:19-22 | BMR times the activity factor, unrounded; stated by TdeeMonotoneInActivity and DefaultProfileEnergy |
| Calculators.BmrGenderGap | utils/calculators.ts:7-14 | for equal weight, height and age, male BMR exceeds female BMR by exactly 166 |
| Calculators.BmrSensitivity | utils/calculators.ts:7-14 | each kilogram adds 10 kcal, each centimetre 6.25 kcal, each year of age takes 5 kcal away |
| Calculators.ActivityFactorsIncrease | types.ts:7-13 | the activity factors rise strictly from sedentary to extra active |
| Calculators.TdeeMonotoneInActivity | utils/calculators.ts:19-22 | TDEE is BMR times the factor, so a higher activity level never lowers a non-negative TDEE |
| Calculators.DefaultProfileEnergy | constants.ts:41-47 | the default profile has BMR 1673.75 and unrounded TDEE 2594.3125 |
| Calculators.MacroGoalsFromCalories | utils/calculators.ts:27-34 | calories pass through unchanged; each macro is an integer within 0.5 of 30%/4, 40%/4 and 30%/9 of the calories |
| Calculators.MacroEnergyTolerance | utils/calculators.ts:27-34 | 4·protein + 4·carbs + 9·fat differs from the calories by at most 8.5 |
| Calculators.Consumed | utils/calculators.ts:39-46 | the componentwise sum of the logs' nutrients; stated by ConsumedEmpty, ConsumedSingle, ConsumedConcat and ConsumedPermutation |
| Calculators.ConsumedEmpty | utils/calculators.ts:39-46 | no logs give all-zero totals |
| Calculators.ConsumedSingle | utils/calculators.ts:39-46 | one log's totals are its own nutrients |
| Calculators.ConsumedConcat | utils/calculators.ts:39-46 | the totals of a concatenation are the componentwise sum of the parts |
| Calculators.ConsumedPermutation | utils/calculators.ts:39-46 | the totals do not depend on the order of the logs |
| Calculators.LogsOnDay | utils/calculators.ts:61-64 | the logs of one UTC day, in order; stated by LogsOnDayMembers, LogsOnDayKeepsOrder, OtherDayIgnored, SameDayAdded and EmptyDayIsZero |
| Calculators.DayOf | utils/calculators.ts:62 | the day number d of a timestamp t is the UTC day containing it: d·86400000 ≤ t < (d+1)·86400000 |
| Calculators.OnDay | utils/calculators.ts:58-63 | an entry passes exactly when its timestamp lies in the 86400000 ms of the given UTC day, which is when its `toISOString` date equals that day's |
| Calculators.LogsOnDayKeepsOrder | utils/calculators.ts:61-64 | the day filter distributes over concatenation and keeps a single entry exactly when it is dated on the day, so the day's logs keep their order in the log |
| Calculators.LogsOnDayMembers | utils/calculators.ts:61-64 | a day's logs are exactly the logs whose timestamp falls on that day |
| Calculators.WeeklyTrend | utils/calculators.ts:51-79 | seven entries; entry k covers day today−(6−k); only the last is labelled 今日; goal is the calorie goal; rounded calories and unrounded macros of that day's logs; no per-macro goals |
| Calculators.EntryLabel | utils/calculators.ts:59-69 | the entry for today is labelled 今日; an entry for an earlier day takes that day's weekday name |
| Calculators.OnlyLastLabelledToday | utils/calculators.ts:69 | when no weekday name reads 今日, of the seven entries exactly the last is labelled 今日 |
| Calculators.TrendBucket | utils/calculators.ts:61-75 | one trend entry: the given label, the calorie goal, the rounded calories and the unrounded protein, fat and carbs of the logs of its UTC day, and no per-macro goals |
| Calculators.EmptyDayIsZero | utils/calculators.ts:61-66 | a day without logs has all-zero totals |
| Calculators.OtherDayIgnored | utils/calculators.ts:61-64 | a log of another day does not change a day's logs |
| Calculators.SameDayAdded | utils/calculators.ts:61-66 | a log of the day adds exactly its nutrients to that day's totals |
| Calculators.TopGap | utils/calculators.ts:96-102 | the first gap of the stable descending sort; stated by TopGapIsLargest |
| Calculators.Gaps | utils/calculators.ts:90-92 | the protein, fat and carbs gaps, in that order, each what remains to add to the consumed amount to reach the goal |
| Calculators.TopGapIsLargest | utils/calculators.ts:96-102 | the chosen gap is the largest of the protein, fat and carbs gaps, ties going to protein, then fat, then carbs |
| Calculators.CaloriesOrOne | utils/calculators.ts:106-108 | `calories \|\| 1` is never zero and equals the calories when they are non-zero |
| Calculators.UnpenalizedScore | utils/calculators.ts:106-108 | without penalties the score times the divisor is 100 times the chosen macro's content |
| Calculators.Penalties | utils/calculators.ts:110-112 | each penalty applies on its own gap threshold, and with non-negative contents only lowers the score |
| Calculators.Score | utils/calculators.ts:104-113 | the chosen macro per kcal times 100, less the penalties; stated by UnpenalizedScore, Penalties and ZeroCalorieFoodScore |
| Calculators.ZeroCalorieFoodScore | utils/calculators.ts:106-108 | every 0 kcal food is divided by 1: without penalties its score is its macro content times 100 |
| Calculators.Reason | utils/calculators.ts:118 | 富含蛋白质, 富含优质脂肪 or 富含能量 for the chosen gap; RecommendationsFromCatalogue states that every entry carries it |
| Calculators.ScoreFood | utils/calculators.ts:114-119 | a food's id, name, score and reason; RecommendationsFromCatalogue and RecommendationsOrdered state what the list holds |
| Calculators.Ranking | utils/calculators.ts:121 | the scored foods in stable descending score order, every catalogue position once |
| Calculators.Scores | utils/calculators.ts:104-120 | one score per catalogue food, in catalogue order, each the score of that food against the top gap |
| Calculators.Recommendations | utils/calculators.ts:84-122 | empty when the calorie gap is at most 0, whatever the macro gaps; otherwise min(3, catalogue size) foods, taken in ranking order |
| Calculators.RecommendationsOrdered | utils/calculators.ts:121-122 | scores never increase along the list, and equal scores keep catalogue order |
| Calculators.RecommendationsAreBest | utils/calculators.ts:121-122 | any food left out scores no higher than the last one listed |
| Calculators.RecommendationsFromCatalogue | utils/calculators.ts:114-119 | each entry's id and name come from one catalogue food, and every entry has the reason of the chosen gap |
| App.FindById | App.tsx:44 | the first catalogue item carrying the id, and none exactly when no item carries it |
| App.RepairIcon | App.tsx:43-49 | the repair of one item; RepairIcons states its effect on the whole catalogue |
| App.RepairIcons | App.tsx:43-50 | same length and order, all non-icon fields kept; an icon changes only for a built-in id whose stored icon is empty or 🍱, and then takes the built-in icon |
| App.RepairIconsIdempotent | App.tsx:43-50 | repairing a repaired catalogue changes nothing, whatever the built-in catalogue |
| App.InitialIconsNotMissing | App.tsx:46 | no built-in icon counts as missing |
| App.RepairAddsNothing | App.tsx:40-50 | the repair never introduces an id the stored catalogue lacks |
| App.RepairKeepsEmptyCatalogueEmpty | App.tsx:40-50 | an empty stored catalogue stays empty: built-in foods are not re-added |
| App.NewLogEntry | App.tsx:88-103 | copies the id, name and weight; the icon is the food's, or 🍱 when the food has none; calories are the rounded per-100 g value × weight/100; macros are unrounded |
| App.ChickenBreastEntry | App.tsx:97-102 | 150 g of chicken breast logs {248, 46.5, 5.4, 0} |
| App.TodayLogs | App.tsx:79-80 | keeps exactly the logs whose timestamp falls on today |
| App.TodayLogsKeepOrder | App.tsx:80 | today's filter distributes over concatenation and keeps a single log exactly when it is dated today, so today's logs keep their order |
| App.TodayExercise | App.tsx:81 | keeps exactly the exercises whose timestamp falls on today |
| App.TodayExerciseKeepsOrder | App.tsx:81 | today's filter distributes over concatenation and keeps a single exercise exactly when it is dated today, so today's exercises keep their order |
| App.TotalBurned | App.tsx:84 | the rounded sum of today's burned calories, 0 when there is none |
| App.TotalBurnedNonNegative | App.tsx:84 | non-negative burned calories give a non-negative total |
| App.DefaultGoals | App.tsx:31-36 | without saved goals the goals are {2594.3125, 195, 259, 86} |
| App.LogsWithoutId | App.tsx:132 | keeps exactly the entries whose id differs |
| App.DeleteLogKeepsOrder | App.tsx:132 | deleting works entry by entry and keeps the order of the rest |
| App.ExercisesWithoutId | App.tsx:141 | keeps exactly the exercises whose id differs |
| App.DeleteExerciseKeepsOrder | App.tsx:141 | deleting an exercise works entry by entry and keeps the order of the rest |
| App.Session.constructor | App.tsx:26-61 | saved values or defaults; the default goals come from the default profile; the catalogue is repaired; the logs are pruned |
| App.Session.AddLog | App.tsx:88-105 | the new snapshot goes in front of the log, which is then pruned; nothing else changes |
| App.Session.DeleteLog | App.tsx:132 | the log loses the entries with the id; nothing else changes |
| App.Session.ClearLogs | App.tsx:133 | the log becomes empty; nothing else changes |
| App.Session.AddExercise | App.tsx:141 | the exercise is appended at the end; nothing else changes |
| App.Session.DeleteExercise | App.tsx:141 | the exercise log loses the entries with the id; nothing else changes |
| GoalSetter.ApplyUpdate | components/GoalSetter.tsx:27 | each field given in the update replaces the old one, the others are kept |
| GoalSetter.ApplyUpdateLaws | components/GoalSetter.tsx:26-28 | an empty update is the identity, and applying an update twice equals applying it once |
| GoalSetter.GoalsFor | components/GoalSetter.tsx:29-30 | the recomputed goals carry the unrounded TDEE as calories and the 30/40/30 split of it, each macro an integer within 0.5 g, so within the 8.5 kcal energy tolerance |
| GoalSetter.DisplayedTdee | components/GoalSetter.tsx:127 | the displayed TDEE is within half a unit of the unrounded TDEE |
| GoalSetter.DefaultDisplayedTdee | components/GoalSetter.tsx:127 | the default profile displays 2594 while its goal keeps 2594.3125 |
| GoalSetter.SetGoalField | components/GoalSetter.tsx:205-234 | a manual edit changes exactly the chosen goal field |
| GoalSetter.ManualMacroEditKeepsCalories | components/GoalSetter.tsx:216 | a protein edit leaves the calorie target unchanged while the macro energy moves by 4 kcal per gram |
| GoalSetter.GoalSetterForm.constructor | components/GoalSetter.tsx:23-24 | both exercise inputs start empty |
| GoalSetter.GoalSetterForm.UpdateProfile | components/GoalSetter.tsx:26-31 | the profile takes the update, and the goals are recomputed from the new profile whatever they were before |
| GoalSetter.GoalSetterForm.EditGoal | components/GoalSetter.tsx:205-234 | one goal field takes the parsed number, or 0 when it is not a number; nothing else changes |
| GoalSetter.GoalSetterForm.LogExercise | components/GoalSetter.tsx:33-38 | nothing happens without a calorie text; otherwise one exercise is appended, named 未命名运动 when unnamed, and both inputs are cleared |
| FoodManager.FilteredFood | components/FoodManager.tsx:23 | keeps exactly the items whose lower-cased name includes the lower-cased search |
| FoodManager.FilteredFoodKeepsOrder | components/FoodManager.tsx:23 | the search distributes over concatenation and keeps a single item exactly when its lower-cased name includes the lower-cased search, so the shown list keeps catalogue order |
| FoodManager.EmptySearchShowsAll | components/FoodManager.tsx:23 | an empty search shows the whole catalogue in order |
| FoodManager.SearchIgnoresCase | components/FoodManager.tsx:23 | a search and its lower-case form show the same list |
| FoodManager.ShownItemsContainSearch | components/FoodManager.tsx:23 | every shown name holds the search text at some index |
| FoodManager.NewFoodItem | components/FoodManager.tsx:27-34 | the new item has the given id and name, no icon, and 0 for each field that is not a number |
| FoodManager.FoodsWithoutId | components/FoodManager.tsx:51 | keeps exactly the items whose id differs |
| FoodManager.DeleteFoodKeepsOrder | components/FoodManager.tsx:51 | deleting works item by item and keeps the catalogue order |
| FoodManager.FoodManagerView.constructor | components/FoodManager.tsx:13-21 | empty search, closed form, no selection, weight text "100", blank form |
| FoodManager.FoodManagerView.AddFood | components/FoodManager.tsx:25-38 | an unnamed form changes nothing; otherwise exactly one item is appended and the form is reset and closed |
| FoodManager.FoodManagerView.DeleteFood | components/FoodManager.tsx:48-53 | once confirmed the items with the id are removed; unconfirmed, nothing changes |
| FoodManager.FoodManagerView.HandleLog | components/FoodManager.tsx:40-46 | logs the selected food only when one is selected and the weight text is non-empty, then clears the selection |
| DailyDashboard.AdjustedGoal | components/DailyDashboard.tsx:15-16 | the budget is the calorie goal plus the burned calories (0 when absent), rounded |
| DailyDashboard.Percent | components/DailyDashboard.tsx:22 | with a non-zero target, `min(round(current / target · 100), 100)`; over a zero target, exactly 100 for a positive amount, and for zero or a negative amount no finite percentage (NaN or −Infinity), modelled as None; never above 100 |
| DailyDashboard.PercentInRange | components/DailyDashboard.tsx:22 | a non-negative amount over a positive target gives 0 to 100 |
| DailyDashboard.PercentFull | components/DailyDashboard.tsx:22 | reaching a positive target gives exactly 100 |
| DailyDashboard.PercentMonotone | components/DailyDashboard.tsx:22 | more consumed never shrinks the bar |
| DailyDashboard.CalPercent | components/DailyDashboard.tsx:17-18 | the progress percentage of the rounded consumption against the adjusted budget; it never exceeds 100, and lies in 0..100 for non-negative consumption and a positive budget |
| DailyDashboard.RemainingCals | components/DailyDashboard.tsx:19 | never negative: the budget less the rounded consumption when that is non-negative, 0 otherwise |
| DailyDashboard.NothingRemainingFullRing | components/DailyDashboard.tsx:18-19 | with a positive budget, nothing remaining means a full ring |
| DailyDashboard.ExerciseRaisesBudget | components/DailyDashboard.tsx:15-16 | burned calories raise the budget by at most their amount plus rounding, and never lower it |
| HistoryTrend.MaxCal | components/HistoryTrend.tsx:10 | the scale is at least 2000, at least each day's calories and goal, and equal to 2000 or to one of them |
| HistoryTrend.HeightPerc | components/HistoryTrend.tsx:26 | the bar height is the calories as a percentage of the scale |
| HistoryTrend.GoalPerc | components/HistoryTrend.tsx:27 | the goal marker is the goal as a percentage of the scale |
| HistoryTrend.IsOver | components/HistoryTrend.tsx:28 | calories above the goal; BarsFitChart states that this is the bar rising above the goal marker |
| HistoryTrend.BarsFitChart | components/HistoryTrend.tsx:26-28 | on the chart's scale, bars and markers of non-negative days lie in 0..100, and a day is flagged exactly when its bar is above its marker |
| HistoryTrend.AvgProtein | components/HistoryTrend.tsx:62 | the protein sum divided by 7, rounded |
| HistoryTrend.AvgCarbs | components/HistoryTrend.tsx:68 | the carbohydrate sum divided by 7, rounded |
| HistoryTrend.AvgProteinBetween | components/HistoryTrend.tsx:62 | over seven days the average lies between the rounded least and greatest day |
| HistoryTrend.AvgCarbsBetween | components/HistoryTrend.tsx:68 | over seven days the average lies between the rounded least and greatest day |
| HistoryTrend.AvgDividesBySeven | components/HistoryTrend.tsx:62 | the divisor is 7 whatever the number of days: over fewer than seven days of non-negative protein the average is at most the rounded mean of those days |

## Left out

- `pruneOldEntries`: it is called but not defined in `App.tsx`. It is a function parameter with no contract.
- Persistence: reading and writing `localStorage` as JSON, and the `STORAGE_KEYS` names. Saved state comes in as a `SavedState` value.
- The once-a-minute timer that notices a new calendar day.
- Dates: `toISOString`, `setDate` and local-time weekday labels. Days are whole multiples of 86 400 000 ms since the epoch (UTC days); the local day of `setDate` is taken to be that UTC day.
- `Date.now()`: ids and timestamps are parameters.
- `window.confirm`: the user's answer is a parameter.
- `parseInt` and `parseFloat`: the parsed value is a parameter. In the manual goal edits (`EditGoal`) and the new-food form, a value that is not a number is `None` and becomes 0. `GoalSetterForm.LogExercise` and `FoodManagerView.HandleLog` take the parse as a function `string -> real`, so they assume it gives a number. A text such as ".5", which `parseInt` reads as NaN, is not modelled there.
- Floating point: no rounding error, NaN or infinity. A percentage that would be NaN or −Infinity is `None`.
- NaN scores in the recommendation sort.
- `toLowerCase`: the model lowers only ASCII capitals and leaves every other character unchanged. This matches JavaScript only for scripts without case, such as the Chinese food names. JavaScript also lowers cased non-ASCII letters (Latin `Ä`, Greek, Cyrillic), which the model does not.
- The Gemini advice service, `SmartAssistant`'s asynchronous fetch and the service worker: network and browser I/O.
- Rendering: JSX, CSS, the SVG ring geometry, view navigation (`setView`, `onBack`), tab switching, and the emoji the dashboard picks from a food name's characters.
