# Nutrition tracker core, modelled in Dafny

This project models the core of a nutrition-tracking backend (a Spring service
written in Java) and proves properties of that model.

The main part is the diet-plan engine:

- the **food classifier** sorts a food into lean protein, fatty protein,
  complex carb, simple carb, fat or unknown, from the share of its calories
  each macro provides, and gives each role a portion cap;
- the **meal allocator** picks up to three foods for a meal (protein, carb,
  fat) and sizes each portion as `target / macro x serving size`, rounded
  and clamped to `[10, cap]`, skipping the protein item once the day already
  holds 105% of its protein target and then boosting the carb portion by 20%;
- the **plan orchestrator** splits the daily targets over breakfast, lunch,
  dinner and snack, threads the used food ids and the running macro totals
  through the meals in order, versions plans (latest + 1, the previous one
  discarded when a new plan is forced) and accepts a plan by logging each
  recommendation as a meal entry;
- the **presenter** groups a plan's recommendations by meal and adds up the
  nutrient totals of the items, the meals and the plan.

Around it sit the supporting rules of the backend: the daily log (entries
whose four totals are kept equal to the sums over the entries), the food
catalogue (unique barcodes, nutrition of a portion in grams or in a serving
unit), food conversions, favourites and frequent foods, recipes (nutrition
per serving) and meal templates (ownership rules, applying a template to a
day), achievements (progress capped at the target, unlocking), macro presets
(percentage checks in 32-bit arithmetic, a single default per user), the
goal-achievement streak counter, the calendar's goal checks and the RDA
tables.

`BigDecimal` values are Dafny `real`s; `setScale`/`divide` with `HALF_UP`
are `Decimal.Round` and `Decimal.Divide`. Exceptions become the `Err` case
of `Wrappers.Result`, and a failing transactional operation changes
nothing. Repositories are maps or sequences: a repository whose rows an
operation inserts or deletes is a class with a `map` field, and lookups the
service only reads are parameters. Entities changed in place (`DietPlan`,
`DailyLog`, `Recipe`, `MealTemplate`) are classes whose methods update their
fields; values (recommendations, entries, foods, DTOs) are datatypes.

One Dafny module models each source file: `FoodClassification`,
`RecommendationAlgorithm` (with the meal lemmas in `MealProperties`),
`DietGeneration` (with `DayProperties`, `PlanRequests`, `PlanLifecycle` and
`PlanHydration`), `RecommendationMapper`, `DietPlans`, `DailyLogs`,
`DailyLogService`, `FoodService`, `FoodMapper`, `FoodStats`, `Recipes`,
`RecipeService`, `RecipeMapper`, `MealTemplates`, `MealTemplateService`,
`MealTemplateMapper`, `Achievements`, `MacroPresets`, `GoalStreaks`,
`Calendar` and `Rda`. `Wrappers`, `Decimal` and `Nutrition` (foods, nutrient
blocks, meal types, profiles) are shared.

## Model

| member | source | states |
|---|---|---|
| Decimal.Round | src/main/java/com/nutritiontracker/modules/food/service/FoodService.java:255 | `setScale(s, HALF_UP)`: rounding keeps the sign of its argument |
| Decimal.Divide | src/main/java/com/nutritiontracker/modules/food/service/FoodService.java:219-220 | `divide(b, s, HALF_UP)`: a non-negative quotient by a positive divisor stays non-negative |
| Achievements.AchievementType.Target | src/main/java/com/nutritiontracker/modules/achievement/enums/AchievementType.java:5-25 | the target declared with each type: 3, 7, 30 and 100 for the streaks, 7 and 30 for the week and month of consistency, and 1 for every other type |
| Achievements.Truncate | src/main/java/com/nutritiontracker/modules/achievement/entity/Achievement.java:54 | the `(int)` cast of a `double`: rounds toward zero, so the result is within 1 of its argument on the side of zero |
| Achievements.ProgressPercentage | src/main/java/com/nutritiontracker/modules/achievement/entity/Achievement.java:51-55 | a zero target shows 100%; every percentage is at most 100 |
| Achievements.PercentageShowsUnlock | src/main/java/com/nutritiontracker/modules/achievement/entity/Achievement.java:47-55 | for an achievement the store keeps, the percentage is between 0 and 100, and it is 100 exactly when the achievement is unlocked |
| Achievements.Initial | src/main/java/com/nutritiontracker/modules/achievement/service/AchievementService.java:54-59 | a new achievement has progress 0, its type's target, and is locked |
| Achievements.Progressed | src/main/java/com/nutritiontracker/modules/achievement/service/AchievementService.java:76-81 | progress becomes the new value capped at the target; the achievement unlocks at `now` exactly when the new value reaches the target; id, user, type and target are kept |
| Achievements.Step | src/main/java/com/nutritiontracker/modules/achievement/service/AchievementService.java:72-84 | an unlocked achievement is left as it is; a locked one progresses |
| Achievements.StepWellFormed | src/main/java/com/nutritiontracker/modules/achievement/service/AchievementService.java:72-84 | an update keeps an achievement well formed (its progress never passes the target, and it is unlocked exactly when progress has reached the target), and a locked one unlocks exactly when the new progress reaches its target |
| Achievements.IncrementAddsOne | src/main/java/com/nutritiontracker/modules/achievement/service/AchievementService.java:92-105 | an increment on a locked achievement adds exactly one, and unlocks it exactly on the step that reaches the target |
| Achievements.StreakTypesReached | src/main/java/com/nutritiontracker/modules/achievement/service/AchievementService.java:113-127 | a streak updates exactly the streak and consistency types whose target it reaches; a streak below 3 updates nothing |
| Achievements.StreakUnlocks | src/main/java/com/nutritiontracker/modules/achievement/service/AchievementService.java:113-127 | every type a streak updates ends up unlocked |
| Achievements.UpdateIn | src/main/java/com/nutritiontracker/modules/achievement/service/AchievementService.java:72-84 | one update keeps the store's keys; only the achievement under the key takes a step |
| Achievements.StreakAppliedEach | src/main/java/com/nutritiontracker/modules/achievement/service/AchievementService.java:113-127 | after a streak, each of the user's types it reached has taken one step with the streak's length; every other achievement is unchanged |
| Achievements.AchievementStore.InitializeAchievementsForUser | src/main/java/com/nutritiontracker/modules/achievement/service/AchievementService.java:50-64 | a fresh achievement is saved for each type the user lacks; stored achievements are untouched; the store stays well formed |
| Achievements.AchievementStore.UpdateProgress | src/main/java/com/nutritiontracker/modules/achievement/service/AchievementService.java:71-85 | the store after the update is the old store with that one achievement stepped; a missing achievement changes nothing |
| Achievements.AchievementStore.IncrementProgress | src/main/java/com/nutritiontracker/modules/achievement/service/AchievementService.java:91-106 | an update to one more than the current progress; a missing achievement changes nothing |
| Achievements.AchievementStore.EvaluateStreakAchievements | src/main/java/com/nutritiontracker/modules/achievement/service/AchievementService.java:113-127 | the store after the call is the old one with the streak's updates applied in source order |
| Calendar.CalorieGoal | src/main/java/com/nutritiontracker/modules/dailylog/service/CalendarService.java:40-42 | the profile's calorie goal, or 2000 when there is no profile or no goal |
| Calendar.GoalMetBand | src/main/java/com/nutritiontracker/modules/dailylog/service/CalendarService.java:50-56 | a day meets its goal exactly when its calories lie within 100 kcal of the goal, on either side |
| Calendar.CalendarDayOf | src/main/java/com/nutritiontracker/modules/dailylog/service/CalendarService.java:49-67 | the calendar day carries the log's date and four totals and the goal, and is met exactly when calories are within 100 kcal of the goal |
| Calendar.MonthlySummary | src/main/java/com/nutritiontracker/modules/dailylog/service/CalendarService.java:30-47 | one calendar day per log of the month, in log order, each judged against the same goal |
| Calendar.MonthlySummaryDays | src/main/java/com/nutritiontracker/modules/dailylog/service/CalendarService.java:44-46 | the i-th calendar day is the i-th log mapped with the profile's goal |
| Calendar.DefaultGoalBand | src/main/java/com/nutritiontracker/modules/dailylog/service/CalendarService.java:40-56 | a user without a profile is judged against 2000 kcal: a day meets it exactly when it has 1900 to 2100 kcal |
| Rda.Upper | src/main/java/com/nutritiontracker/modules/stats/service/RdaService.java:22 | upper-casing keeps the length and maps each character on its own |
| Rda.Iron | src/main/java/com/nutritiontracker/modules/stats/service/RdaService.java:53-59 | iron is 8 or 18 mg, and 18 exactly for a woman aged 50 or under |
| Rda.GetRdaForUser | src/main/java/com/nutritiontracker/modules/stats/service/RdaService.java:18-51 | no profile is NotFound; otherwise calcium is 1200 exactly over 50, and iron is 18 exactly for a non-male aged 50 or under |
| Rda.MissingGenderIsMale | src/main/java/com/nutritiontracker/modules/stats/service/RdaService.java:22-27 | a missing gender and "male" in any letter case give the same amounts as "MALE" |
| Rda.OtherGendersAreFemale | src/main/java/com/nutritiontracker/modules/stats/service/RdaService.java:22-48 | every gender other than "MALE" in some letter case gives the female amounts |
| Rda.MissingAgeIsThirty | src/main/java/com/nutritiontracker/modules/stats/service/RdaService.java:23-25 | a missing age gives the amounts of a 30-year-old |
| Rda.FixedAmounts | src/main/java/com/nutritiontracker/modules/stats/service/RdaService.java:32-49 | sodium (2300), vitamin D (600) and folate (400) are fixed, and saturated fats, vitamins E, B12 and B6 are the same for every profile |
| Rda.IronBySexAndAge | src/main/java/com/nutritiontracker/modules/stats/service/RdaService.java:53-59 | women of 50 or under need at least as much iron as anyone of their age; above 50 the sex does not matter |
| DailyLogs.RemoveFirst | src/main/java/com/nutritiontracker/modules/dailylog/entity/DailyLog.java:73-74 | removal drops exactly one occurrence of the entry when present (as a multiset) and leaves a list without it as it is |
| DailyLogs.RemoveFirstKeepsOrder | src/main/java/com/nutritiontracker/modules/dailylog/entity/DailyLog.java:73-74 | the entries before the removed one and those after it keep their order |
| DailyLogs.DailyLog.constructor | src/main/java/com/nutritiontracker/modules/dailylog/entity/DailyLog.java:38-56 | a new log has no id, zero totals and no entries |
| DailyLogs.DailyLog.AddMealEntry | src/main/java/com/nutritiontracker/modules/dailylog/entity/DailyLog.java:67-70 | the entry is appended with its back-reference set to this log; totals and other fields are untouched |
| DailyLogs.DailyLog.RemoveMealEntry | src/main/java/com/nutritiontracker/modules/dailylog/entity/DailyLog.java:73-76 | the first equal entry is removed and handed back with its back-reference cleared; totals and other fields are untouched |
| DailyLogs.EntriesTotalsAppend | src/main/java/com/nutritiontracker/modules/dailylog/service/DailyLogService.java:200-217 | the totals of a list with one more entry are the old totals plus that entry's snapshot |
| DailyLogs.EntriesTotalsConcat | src/main/java/com/nutritiontracker/modules/dailylog/service/DailyLogService.java:200-217 | the totals of two lists put together are the sum of their totals |
| DailyLogs.RemovedEntryTotals | src/main/java/com/nutritiontracker/modules/dailylog/service/DailyLogService.java:129-132 | removing an entry takes exactly its snapshot off the sums |
| DailyLogService.EntryMacros | src/main/java/com/nutritiontracker/modules/dailylog/service/DailyLogService.java:187-198 | the snapshot fails exactly when the serving size, the nutrient block or one of the four nutrients is missing, or the serving size is zero; a zero serving size is a division by zero, anything else a null dereference |
| DailyLogService.EntryMacrosNonNegative | src/main/java/com/nutritiontracker/modules/dailylog/service/DailyLogService.java:187-198 | a non-negative portion of a food with a positive serving size and non-negative nutrients has a non-negative snapshot |
| DailyLogService.RecalculateTotals | src/main/java/com/nutritiontracker/modules/dailylog/service/DailyLogService.java:200-217 | the log's totals become the sums over its entries; entries and other fields are unchanged |
| DailyLogService.EntriesOf | src/main/java/com/nutritiontracker/modules/dailylog/service/DailyLogService.java:232-234 | the shown entries of one meal type are no more than the log's entries |
| DailyLogService.MealsByType | src/main/java/com/nutritiontracker/modules/dailylog/service/DailyLogService.java:224-234 | every meal type has a list, possibly empty |
| DailyLogService.MealsByTypeAppend | src/main/java/com/nutritiontracker/modules/dailylog/service/DailyLogService.java:232-234 | one more entry lands at the end of its own meal type's list and changes no other list |
| DailyLogService.EntryShownInItsMeal | src/main/java/com/nutritiontracker/modules/dailylog/service/DailyLogService.java:232-234 | each entry is shown in its own meal type's list |
| DailyLogService.MealListsPartition | src/main/java/com/nutritiontracker/modules/dailylog/service/DailyLogService.java:224-234 | the four meal lists together hold exactly as many items as the log has entries |
| DailyLogService.GetUserGoals | src/main/java/com/nutritiontracker/modules/dailylog/service/DailyLogService.java:257-275 | the profile's four goals, or 2000 kcal, 150 g protein, 200 g carbohydrates and 65 g fats without a profile |
| DailyLogService.MapToDto | src/main/java/com/nutritiontracker/modules/dailylog/service/DailyLogService.java:223-255 | the response carries the log's id, date, weight and totals, the given goals, and the entries grouped by meal type |
| DailyLogService.AddEntry | src/main/java/com/nutritiontracker/modules/dailylog/service/DailyLogService.java:67-91 | an unknown food is NotFound and a food without a snapshot fails, both leaving the book and every log, entries and weight included, unchanged; otherwise the (user, date) log, reused with its id and weight or started empty without a weight under a newly generated id that no stored log has, gains the new entry at its end, its totals are the sums over its entries, no other log changes, and the response carries the log's id, date, weight, totals and grouped entries |
| DailyLogService.LogEntry | src/main/java/com/nutritiontracker/modules/dailylog/service/DailyLogService.java:72-88 | the (user, date) log is reused, keeping its id and weight, or started empty under a newly generated id that no stored log has, gains the entry at its end and is stored; other logs are untouched |
| DailyLogService.AppendToStored | src/main/java/com/nutritiontracker/modules/dailylog/service/DailyLogService.java:78-88 | the stored log gains the entry at its end with balanced totals and keeps its id and weight; the book stays valid and every other log keeps its entries |
| DailyLogService.StartLog | src/main/java/com/nutritiontracker/modules/dailylog/service/DailyLogService.java:160-171 | a missing (user, date) log is started fresh without a weight, saved under the book's next generated id, which no stored log has, holds just the new entry and is stored; stored logs keep their entries |
| DailyLogService.StoreLog | src/main/java/com/nutritiontracker/modules/dailylog/service/DailyLogService.java:160-171 | a log not yet stored takes the book's next generated id, which no stored log has, and is stored under its own (user, date); the id counter advances and the other stored logs stay as they were |
| DailyLogService.AppendEntry | src/main/java/com/nutritiontracker/modules/dailylog/service/DailyLogService.java:84-87 | the log gains the entry at its end and its totals are the sums over its entries |
| DailyLogService.FindEntry | src/main/java/com/nutritiontracker/modules/dailylog/service/DailyLogService.java:100-101 | the position found holds an entry with that id; when none is found no entry has it |
| DailyLogService.UpdateEntry | src/main/java/com/nutritiontracker/modules/dailylog/service/DailyLogService.java:97-117 | a missing entry is NotFound and changes nothing; otherwise the entry keeps its place, takes the new quantity, unit and meal type and a snapshot from its own food, and the totals are the sums over the entries |
| DailyLogService.DeleteEntry | src/main/java/com/nutritiontracker/modules/dailylog/service/DailyLogService.java:123-136 | a missing entry is NotFound and changes nothing; otherwise the entry leaves the log, the others keep their order, and the totals drop by exactly its snapshot |
| DailyLogService.UpdateDailyWeight | src/main/java/com/nutritiontracker/modules/dailylog/service/DailyLogService.java:142-148 | the (user, date) log, reused with its id or started empty under a newly generated id that no stored log has, takes the weight; an existing log's entries and totals are unchanged, no other log changes, and the response carries the log's id, date and new weight |
| DailyLogService.RecordWeight | src/main/java/com/nutritiontracker/modules/dailylog/service/DailyLogService.java:144-146 | the (user, date) log, reused with its id, entries and totals or started empty under a newly generated id, takes the weight and is stored |
| DailyLogService.SetWeight | src/main/java/com/nutritiontracker/modules/dailylog/service/DailyLogService.java:145 | only the weight changes |
| FoodClassification.MacroCalories | src/main/java/com/nutritiontracker/modules/recommendation/service/FoodClassificationService.java:86-93 | the calories derived from non-negative macros are non-negative |
| FoodClassification.EffectiveCalories | src/main/java/com/nutritiontracker/modules/recommendation/service/FoodClassificationService.java:21-25 | the stored calories when present and positive, otherwise those derived from the macros |
| FoodClassification.Classify | src/main/java/com/nutritiontracker/modules/recommendation/service/FoodClassificationService.java:16-73 | a food without nutrients or without positive calories is UNKNOWN |
| FoodClassification.ClassifyProteinRole | src/main/java/com/nutritiontracker/modules/recommendation/service/FoodClassificationService.java:39-49 | a food is lean or fatty protein exactly when it has calories and its protein share exceeds a quarter |
| FoodClassification.ClassifyFattyProtein | src/main/java/com/nutritiontracker/modules/recommendation/service/FoodClassificationService.java:43-48 | a protein food is fatty exactly when its fat share exceeds a quarter, and lean otherwise |
| FoodClassification.ClassifyFat | src/main/java/com/nutritiontracker/modules/recommendation/service/FoodClassificationService.java:51-54 | FAT exactly when the protein share is at most a quarter and the fat share above a half |
| FoodClassification.FatFoodHasFats | src/main/java/com/nutritiontracker/modules/recommendation/service/FoodClassificationService.java:51-54 | a food classified FAT has a nutrient block with a positive fat amount |
| FoodClassification.ClassifyCarb | src/main/java/com/nutritiontracker/modules/recommendation/service/FoodClassificationService.java:56-70 | a carbohydrate category exactly when neither protein nor fat rules apply and carbohydrates are positive; simple exactly when sugars exceed 15% of the carbohydrates |
| FoodClassification.ClassifyUnknown | src/main/java/com/nutritiontracker/modules/recommendation/service/FoodClassificationService.java:16-73 | UNKNOWN exactly when the food has no calories or fits none of the protein, fat and carbohydrate rules |
| FoodClassification.PureProteinIsLean | src/main/java/com/nutritiontracker/modules/recommendation/service/FoodClassificationService.java:21-48 | a food whose calories all come from protein is lean protein, whatever its stated calories |
| FoodClassification.PureFatIsFat | src/main/java/com/nutritiontracker/modules/recommendation/service/FoodClassificationService.java:21-54 | a food whose calories all come from fat is a fat source |
| FoodClassification.SugarFreeCarbIsComplex | src/main/java/com/nutritiontracker/modules/recommendation/service/FoodClassificationService.java:56-70 | a food with carbohydrates and no sugar, protein or fat is a complex carbohydrate |
| FoodClassification.PortionLimits | src/main/java/com/nutritiontracker/modules/recommendation/service/FoodClassificationService.java:75-84 | every category has a cap between 40 and 350 g, ordered fat < simple carbs < unknown < fatty protein < lean protein < complex carbs |
| FoodClassification.EveryCategoryHasCap | src/main/java/com/nutritiontracker/modules/recommendation/service/FoodClassificationService.java:75-84 | the table covers every category |
| FoodClassification.PortionCap | src/main/java/com/nutritiontracker/modules/recommendation/service/RecommendationAlgorithmService.java:127 | the cap looked up for any category lies between 40 and 350 g |
| FoodClassification.PortionCapFromTable | src/main/java/com/nutritiontracker/modules/recommendation/service/RecommendationAlgorithmService.java:127 | the lookup's default of 300 is never used: every cap comes from the table |
| RecommendationAlgorithm.Bucket | src/main/java/com/nutritiontracker/modules/recommendation/service/RecommendationAlgorithmService.java:37-39 | a category's bucket holds exactly the candidates of that category whose id is unused |
| RecommendationAlgorithm.SelectBestSource | src/main/java/com/nutritiontracker/modules/recommendation/service/RecommendationAlgorithmService.java:105-111 | nothing is chosen exactly when the list is empty; a choice is always an element of the list |
| RecommendationAlgorithm.SelectAnySource | src/main/java/com/nutritiontracker/modules/recommendation/service/RecommendationAlgorithmService.java:105-111 | every element of a non-empty list can be the one chosen |
| RecommendationAlgorithm.CalculateInitialQuantity | src/main/java/com/nutritiontracker/modules/recommendation/service/RecommendationAlgorithmService.java:113-129 | no food or no target gives 0; a food without nutrients or without the macro gives 100; otherwise the solved whole-gram quantity clamped to [10, the category's cap] |
| RecommendationAlgorithm.GetMacroContribution | src/main/java/com/nutritiontracker/modules/recommendation/service/RecommendationAlgorithmService.java:142-157 | zero without a food, a positive quantity or nutrients; a zero serving size is a division by zero; otherwise the nutrient times round4(quantity / serving size) |
| RecommendationAlgorithm.BuildBalancedMeal | src/main/java/com/nutritiontracker/modules/recommendation/service/RecommendationAlgorithmService.java:25-103 | the method's recommendations are those of the meal specification `BalancedMeal` |
| RecommendationAlgorithm.AllocatePortions | src/main/java/com/nutritiontracker/modules/recommendation/service/RecommendationAlgorithmService.java:58-102 | the portions sized in turn are those of the meal specification for the chosen sources |
| RecommendationAlgorithm.AllocateCarbs | src/main/java/com/nutritiontracker/modules/recommendation/service/RecommendationAlgorithmService.java:73-88 | the carbohydrate item, boosted by 1.2 when capped, added only when its quantity is positive |
| RecommendationAlgorithm.AllocateFat | src/main/java/com/nutritiontracker/modules/recommendation/service/RecommendationAlgorithmService.java:90-100 | the fat item, only beside a non-fatty protein, when more than 5 g of fat remain and the portion exceeds 5 |
| MealProperties.MealParts | src/main/java/com/nutritiontracker/modules/recommendation/service/RecommendationAlgorithmService.java:58-102 | a meal with candidates succeeds exactly when the protein source's fat contribution does, and is then its protein, carbohydrate and fat parts in that order |
| MealProperties.EmptyCandidatesNoMeal | src/main/java/com/nutritiontracker/modules/recommendation/service/RecommendationAlgorithmService.java:28-30 | no candidates, no recommendations |
| MealProperties.MealFailure | src/main/java/com/nutritiontracker/modules/recommendation/service/RecommendationAlgorithmService.java:142-150 | a meal fails exactly when it has a protein source with nutrients and a zero serving size, and the failure is a division by zero |
| MealProperties.MealShape | src/main/java/com/nutritiontracker/modules/recommendation/service/RecommendationAlgorithmService.java:58-102 | at most three items, in the order protein, carbohydrate, fat, at most one of each; a carbohydrate item is present exactly when there are candidates |
| MealProperties.ProteinCapEnforced | src/main/java/com/nutritiontracker/modules/recommendation/service/RecommendationAlgorithmService.java:32-88 | once the day's protein reaches 105% of the daily target the meal has no protein item, starts with the carbohydrate item, and that portion is the plain one times 1.2 rounded to whole grams |
| MealProperties.ProteinItemSource | src/main/java/com/nutritiontracker/modules/recommendation/service/RecommendationAlgorithmService.java:42-70 | a protein item only appears without the cap; its food is an unused lean protein, or an unused fatty protein only when no unused lean one exists, with the matching reason |
| MealProperties.ProteinItemPresent | src/main/java/com/nutritiontracker/modules/recommendation/service/RecommendationAlgorithmService.java:42-71 | without the cap, a protein item leads the meal whenever an unused lean or fatty protein exists |
| MealProperties.FatItemRule | src/main/java/com/nutritiontracker/modules/recommendation/service/RecommendationAlgorithmService.java:90-100 | a fat item appears exactly when an unused fat source exists, the protein is not fatty and more than 5 g of fat remain after the protein's own fat; its food is an unused FAT candidate |
| MealProperties.SourcesAreCandidates | src/main/java/com/nutritiontracker/modules/recommendation/service/RecommendationAlgorithmService.java:37-56 | the protein and fat sources are unused candidates of their categories; the carbohydrate source is always a candidate |
| MealProperties.MealItemForms | src/main/java/com/nutritiontracker/modules/recommendation/service/RecommendationAlgorithmService.java:63-100 | each item is the protein, the carbohydrate or the fat item built from its source and portion |
| MealProperties.MealItemsPending | src/main/java/com/nutritiontracker/modules/recommendation/service/RecommendationAlgorithmService.java:159-170 | every item is an unsaved PENDING recommendation for the plan's user, day and meal |
| MealProperties.BaseCarbBounds | src/main/java/com/nutritiontracker/modules/recommendation/service/RecommendationAlgorithmService.java:73-129 | the carbohydrate portion before the boost is whole and between 10 and 350 g, whatever the food, as it is always clamped with the CARB_COMPLEX cap |
| MealProperties.BoostedBounds | src/main/java/com/nutritiontracker/modules/recommendation/service/RecommendationAlgorithmService.java:80-83 | the boost keeps a whole portion between 10 and 420 g |
| MealProperties.ItemPortionBounds | src/main/java/com/nutritiontracker/modules/recommendation/service/RecommendationAlgorithmService.java:113-129 | one item's portion is whole and between 10 and 420 g; a protein portion is within its category's cap; a fat portion is within the FAT cap of 40 g, since a FAT food always has fats and its portion is always solved and clamped |
| MealProperties.MealPortionBounds | src/main/java/com/nutritiontracker/modules/recommendation/service/RecommendationAlgorithmService.java:113-129 | the same bounds for every item of the meal: whole, 10 to 420 g, a protein portion within its category's cap and a fat portion at most 40 g |
| MealProperties.SourcesUnused | src/main/java/com/nutritiontracker/modules/recommendation/service/RecommendationAlgorithmService.java:37-39 | every protein or fat item names a food id outside the used set |
| DietGeneration.CalculateDailyTargets | src/main/java/com/nutritiontracker/modules/recommendation/service/DietGenerationService.java:256-262 | the day's targets are the profile's four goals, an absent goal counting as 0 |
| DietGeneration.MealTargetsSplitDay | src/main/java/com/nutritiontracker/modules/recommendation/service/DietGenerationService.java:93-113 | the four meal targets (20%, 40%, 30%, 10%) add up to the day's calories, protein, carbohydrates and fats, and each carries the whole day's protein target |
| DietGeneration.Candidates | src/main/java/com/nutritiontracker/modules/recommendation/service/DietGenerationService.java:115-118 | a meal's candidates start with its frequent foods, followed by the fallback foods exactly when there are fewer than 12 frequent ones |
| DietGeneration.UpdateAccumulatedTotals | src/main/java/com/nutritiontracker/modules/recommendation/service/DietGenerationService.java:130-144 | a food not found or without nutrients leaves the totals as they are; the update fails, with a division by zero, exactly for a found food with nutrients and a zero serving size |
| DietGeneration.AccumulationIsContribution | src/main/java/com/nutritiontracker/modules/recommendation/service/DietGenerationService.java:130-144 | the running totals grow by exactly what the allocator reckons the food contributes, macro by macro |
| DietGeneration.Absorb | src/main/java/com/nutritiontracker/modules/recommendation/service/DietGenerationService.java:122-126 | after a meal is added, the used set is the old one plus the meal's food ids |
| DietGeneration.GenerateRecommendationsForPlan | src/main/java/com/nutritiontracker/modules/recommendation/service/DietGenerationService.java:90-128 | the outcome is that of the day specification `Day`; on success the plan's list gains the day's recommendations, owned by the plan; the plan's other fields are unchanged |
| DietGeneration.GenerateMeal | src/main/java/com/nutritiontracker/modules/recommendation/service/DietGenerationService.java:105-127 | one loop iteration is one meal step of the day specification, appended to the plan |
| DietGeneration.AddMeal | src/main/java/com/nutritiontracker/modules/recommendation/service/DietGenerationService.java:122-126 | a meal's recommendations are appended one by one, their ids marked used and their nutrients added, as the specification `Absorb` says |
| DietGeneration.MealsFromUnfold | src/main/java/com/nutritiontracker/modules/recommendation/service/DietGenerationService.java:105-127 | a failing meal stops the day with its error; otherwise the day from that meal on is the meal followed by the later meals from the state it leaves |
| DayProperties.MealStepFacts | src/main/java/com/nutritiontracker/modules/recommendation/service/DietGenerationService.java:105-127 | one meal has at most three PENDING items of its own meal type for the user and day, fresh protein and fat sources, and adds its food ids to the used set |
| DayProperties.MealsFromFacts | src/main/java/com/nutritiontracker/modules/recommendation/service/DietGenerationService.java:105-127 | from any meal on: at most three items per meal, PENDING items of the user and day in meal-type order, the used set grows by exactly the food ids, and no protein or fat source is reused |
| DayProperties.DayFacts | src/main/java/com/nutritiontracker/modules/recommendation/service/DietGenerationService.java:90-128 | a generated day has at most twelve recommendations, all PENDING for the plan's user and day in meal-type order; the used set ends as the day's food ids; no meal reuses an earlier meal's food as a protein or fat source |
| DayProperties.JoinMeal | src/main/java/com/nutritiontracker/modules/recommendation/service/DietGenerationService.java:105-127 | joining one meal to the later meals keeps order, freshness and the no-reuse rule |
| DietPlans.DietPlan.constructor | src/main/java/com/nutritiontracker/modules/recommendation/entity/DietPlan.java:36-43 | a new plan is unsaved, GENERATED and has no recommendations |
| DietPlans.DietPlan.AddRecommendation | src/main/java/com/nutritiontracker/modules/recommendation/entity/DietPlan.java:55-58 | the recommendation is appended with its back-reference set to this plan; the plan's other fields are unchanged and it keeps owning its list |
| DietPlans.Attached | src/main/java/com/nutritiontracker/modules/recommendation/entity/DietPlan.java:55-58 | attaching keeps the recommendations and their order, setting each back-reference to the plan |
| DietPlans.AttachedAppend | src/main/java/com/nutritiontracker/modules/recommendation/entity/DietPlan.java:55-58 | attaching two batches one after the other is attaching them together |
| DietGeneration.TotalsAreShares | src/main/java/com/nutritiontracker/modules/recommendation/service/DietGenerationService.java:130-144 | a food with nutrients adds to each running total its nutrient times the rounded quantity / serving-size ratio |
| PlanLifecycle.RequestOf | src/main/java/com/nutritiontracker/modules/recommendation/service/DietGenerationService.java:162-170 | the entry request carries the recommendation's day, meal, food and quantity, in the food's serving unit, or "g" when the food or its unit is unknown |
| PlanLifecycle.LogFailure | src/main/java/com/nutritiontracker/modules/recommendation/service/DietGenerationService.java:169-172 | logging fails exactly when the recommendation is not loggable; an unknown food is NotFound |
| PlanLifecycle.FirstFailure | src/main/java/com/nutritiontracker/modules/recommendation/service/DietGenerationService.java:154-156 | no failure exactly when every recommendation can be logged; a failure is that of some recommendation |
| PlanLifecycle.AcceptedEntry | src/main/java/com/nutritiontracker/modules/recommendation/service/DietGenerationService.java:162-172 | the entry created for a recommendation belongs to the log, is unsaved, names the recommendation's food, meal and quantity, and carries the food's snapshot for that quantity |
| PlanLifecycle.AcceptedEntriesOneEach | src/main/java/com/nutritiontracker/modules/recommendation/service/DietGenerationService.java:154-156 | each log receives one entry per recommendation of its (user, date), in plan order |
| PlanLifecycle.RecsForSameKey | src/main/java/com/nutritiontracker/modules/recommendation/service/DietGenerationService.java:154-156 | when all recommendations go to one day, that day's log receives one entry for each of them |
| PlanLifecycle.AcceptedEntriesNone | src/main/java/com/nutritiontracker/modules/recommendation/service/DietGenerationService.java:154-156 | a log that no recommendation goes to receives nothing |
| PlanLifecycle.AcceptRecommendation | src/main/java/com/nutritiontracker/modules/recommendation/service/DietGenerationService.java:162-174 | the recommendation's entry is appended to the log of its user and day, which keeps its id and weight when it exists and is started when missing; the entries of every other day stay as they were, and every other log is the one stored before |
| PlanLifecycle.AcceptPlan | src/main/java/com/nutritiontracker/modules/recommendation/service/DietGenerationService.java:147-160 | a missing plan is a runtime error and an ACCEPTED plan is left alone; a recommendation that cannot be logged fails the whole acceptance and changes nothing; otherwise every recommendation becomes ACCEPTED and is logged, and so does the plan, while every log that existed stays under its key with its id and weight |
| PlanLifecycle.AcceptPending | src/main/java/com/nutritiontracker/modules/recommendation/service/DietGenerationService.java:154-159 | the plan and all its recommendations become ACCEPTED, existing logs stay under their keys with their ids and weights, and every recommendation is logged |
| PlanLifecycle.MarkAccepted | src/main/java/com/nutritiontracker/modules/recommendation/service/DietGenerationService.java:173 | every recommendation is kept, in order, with status ACCEPTED |
| PlanLifecycle.AcceptAll | src/main/java/com/nutritiontracker/modules/recommendation/service/DietGenerationService.java:154-156 | the loop logs each recommendation in order into the log of its day; every log that existed stays under its key with its id and weight |
| PlanLifecycle.AcceptStep | src/main/java/com/nutritiontracker/modules/recommendation/service/DietGenerationService.java:155 | one turn of the loop logs one more recommendation, so the book's entries and logs are those of the replay extended by that turn; the touched log, when it existed, keeps its id and weight |
| PlanLifecycle.AcceptEach | src/main/java/com/nutritiontracker/modules/recommendation/service/DietGenerationService.java:154-156 | after the loop the book's entries and logs are those of the replay of every recommendation, in order, with one touched log recorded per recommendation |
| PlanLifecycle.ReplayLogged | src/main/java/com/nutritiontracker/modules/recommendation/service/DietGenerationService.java:154-156 | replaying the recommendations logs each of them in its day's log, after the entries already there |
| PlanRequests.DailyGoalOf | src/main/java/com/nutritiontracker/modules/recommendation/service/DietGenerationService.java:247-254 | the goal shown beside a plan is the profile's four goals, absent ones left absent |
| PlanRequests.SavedDistinct | src/main/java/com/nutritiontracker/modules/recommendation/service/DietGenerationService.java:86 | saved recommendations all have ids and no two share one |
| PlanRequests.NextVersion | src/main/java/com/nutritiontracker/modules/recommendation/service/DietGenerationService.java:68 | the first plan of a day is version 1; a new plan's version is above the latest one's |
| PlanRequests.GenerateOrRegeneratePlan | src/main/java/com/nutritiontracker/modules/recommendation/service/DietGenerationService.java:57-88 | no profile is a runtime error; a latest plan that is not DISCARDED is shown again unless a new one is forced; otherwise a fresh GENERATED plan under the next version holds the day's recommendations, is saved and shown, and a forced regeneration discards the latest plan; a failure changes nothing |
| PlanRequests.BuildPlan | src/main/java/com/nutritiontracker/modules/recommendation/service/DietGenerationService.java:76-86 | a fresh plan of the day under the given version, GENERATED, holding the day's recommendations as saved |
| PlanRequests.SavePlan | src/main/java/com/nutritiontracker/modules/recommendation/service/DietGenerationService.java:86 | saving gives the plan its id and its recommendations consecutive ids, in order; nothing else changes |
| PlanRequests.GeneratedPlanReused | src/main/java/com/nutritiontracker/modules/recommendation/service/DietGenerationService.java:63-87 | a freshly generated plan is reused by the next request without forceNew, and it can be shown whenever each of its recommendations can |
| PlanRequests.GetLatestPlan | src/main/java/com/nutritiontracker/modules/recommendation/service/DietGenerationService.java:48-54 | no profile is a runtime error; no plan of the day gives nothing; otherwise the latest plan is shown, whatever its status, or its showing fails |
| PlanHydration.MatchFrom | src/main/java/com/nutritiontracker/modules/recommendation/service/DietGenerationService.java:193-195 | the position found is the first from `from` on stored under the id; none found means no such recommendation |
| PlanHydration.Enrich | src/main/java/com/nutritiontracker/modules/recommendation/service/DietGenerationService.java:189-202 | an item whose food is unknown or whose recommendation is not found is left as it is; otherwise it takes the name, unit and nutrition of its recommendation's item with the food, or fails as that does; id, food, quantity, reason and status are kept |
| PlanHydration.HydrateAndMap | src/main/java/com/nutritiontracker/modules/recommendation/service/DietGenerationService.java:176-212 | the method's response is that of the specification `Hydrate` applied to the presenter's response for the plan |
| PlanHydration.EnrichAllMeals | src/main/java/com/nutritiontracker/modules/recommendation/service/DietGenerationService.java:188-206 | the meals are enriched one by one as `EnrichMeals` says, stopping at the first failure |
| PlanHydration.EnrichMealItems | src/main/java/com/nutritiontracker/modules/recommendation/service/DietGenerationService.java:189-205 | a meal's items are enriched one by one and its totals recomputed, as `EnrichMeal` says |
| PlanHydration.CalculatePlanTotals | src/main/java/com/nutritiontracker/modules/recommendation/service/DietGenerationService.java:227-236 | the plan totals are the sum of the meals' totals |
| PlanHydration.EnrichItemsPrefixFails | src/main/java/com/nutritiontracker/modules/recommendation/service/DietGenerationService.java:189-203 | once an item fails, the whole enrichment fails with that error |
| PlanHydration.EnrichMealsPrefixFails | src/main/java/com/nutritiontracker/modules/recommendation/service/DietGenerationService.java:188-206 | once a meal fails, the whole response fails with that error |
| PlanHydration.EnrichItemsOk | src/main/java/com/nutritiontracker/modules/recommendation/service/DietGenerationService.java:189-203 | the items enrich together exactly when each of them enriches |
| PlanHydration.EnrichItemsEach | src/main/java/com/nutritiontracker/modules/recommendation/service/DietGenerationService.java:189-203 | enriched items keep their number and order, each the enrichment of the item in its place |
| PlanHydration.EnrichMealsOk | src/main/java/com/nutritiontracker/modules/recommendation/service/DietGenerationService.java:188-206 | the meals enrich together exactly when each of them enriches |
| PlanHydration.EnrichMealsEach | src/main/java/com/nutritiontracker/modules/recommendation/service/DietGenerationService.java:188-206 | enriched meals keep their number and order, each the enrichment of the meal in its place |
| PlanHydration.EnrichOwn | src/main/java/com/nutritiontracker/modules/recommendation/service/DietGenerationService.java:193-197 | with distinct stored ids, each item is enriched from its own recommendation |
| PlanHydration.MealHydrates | src/main/java/com/nutritiontracker/modules/recommendation/service/DietGenerationService.java:188-206 | a meal hydrates when every recommendation of the plan can be shown |
| PlanHydration.MealShown | src/main/java/com/nutritiontracker/modules/recommendation/service/DietGenerationService.java:188-206 | a hydrated meal keeps its type, shows each recommendation of its group as meant, in order, and totals its items |
| PlanHydration.ItemOfGroup | src/main/java/com/nutritiontracker/modules/recommendation/service/DietGenerationService.java:189-202 | the j-th item of a meal is enriched as the j-th recommendation of its group is shown |
| PlanHydration.HydratedTotals | src/main/java/com/nutritiontracker/modules/recommendation/service/DietGenerationService.java:204-209 | each hydrated meal totals its items, and the plan total is the sum over all shown items |
| PlanHydration.HydratedMeals | src/main/java/com/nutritiontracker/modules/recommendation/service/DietGenerationService.java:188-206 | hydrating grouped meals keeps them in order and succeeds when every recommendation can be shown |
| PlanHydration.HydratedPlan | src/main/java/com/nutritiontracker/modules/recommendation/service/DietGenerationService.java:176-212 | on a plan with distinct stored ids, hydration succeeds when every recommendation can be shown, keeps the presenter's meals in order, and enriches each |
| RecommendationMapper.SafeMultiply | src/main/java/com/nutritiontracker/modules/recommendation/mapper/RecommendationMapper.java:103-107 | the value times the multiplier rounded HALF_UP to 2 places; an absent value gives 0 |
| RecommendationMapper.ToItem | src/main/java/com/nutritiontracker/modules/recommendation/mapper/RecommendationMapper.java:62-73 | the plain item keeps the recommendation's id, food, quantity, reason and status name, in grams, with no name and no nutrition |
| RecommendationMapper.ToItemWithFood | src/main/java/com/nutritiontracker/modules/recommendation/mapper/RecommendationMapper.java:75-101 | the item fails exactly when the serving size is zero (division by zero) or the food has no nutrients (null dereference); otherwise it carries the food's name and unit ("g" by default) and nutrition |
| RecommendationMapper.ItemNutritionIsContribution | src/main/java/com/nutritiontracker/modules/recommendation/mapper/RecommendationMapper.java:82-89 | a shown macro is the allocator's contribution of that food and quantity rounded to 2 places: the presenter and the planner agree |
| RecommendationMapper.CalculateMealTotals | src/main/java/com/nutritiontracker/modules/recommendation/mapper/RecommendationMapper.java:109-136 | the loop's totals are the sums over the items that have nutrition |
| RecommendationMapper.ItemsTotalsAppend | src/main/java/com/nutritiontracker/modules/recommendation/mapper/RecommendationMapper.java:109-136 | the totals of two item lists put together are the sum of their totals |
| RecommendationMapper.ItemsWithoutNutrition | src/main/java/com/nutritiontracker/modules/recommendation/mapper/RecommendationMapper.java:115-133 | items without nutrition add up to nothing |
| RecommendationMapper.PlanTotalsAreItemTotals | src/main/java/com/nutritiontracker/modules/recommendation/mapper/RecommendationMapper.java:42-49 | plan totals are the totals of all items, however they are grouped into meals |
| RecommendationMapper.Group | src/main/java/com/nutritiontracker/modules/recommendation/mapper/RecommendationMapper.java:24-26 | a group holds exactly the recommendations of its meal type |
| RecommendationMapper.ToItems | src/main/java/com/nutritiontracker/modules/recommendation/mapper/RecommendationMapper.java:30-32 | one plain item per recommendation, in order |
| RecommendationMapper.ToDto | src/main/java/com/nutritiontracker/modules/recommendation/mapper/RecommendationMapper.java:20-60 | no response exactly for a missing plan; the response carries the plan's id, date, version, status and the daily goal |
| RecommendationMapper.MealsForCount | src/main/java/com/nutritiontracker/modules/recommendation/mapper/RecommendationMapper.java:28-40 | the meals hold as many items as the listed types' groups together |
| RecommendationMapper.GroupsPartition | src/main/java/com/nutritiontracker/modules/recommendation/mapper/RecommendationMapper.java:24-26 | the meal-type groups split the recommendations: their sizes add up to the number of recommendations |
| RecommendationMapper.MealsForShape | src/main/java/com/nutritiontracker/modules/recommendation/mapper/RecommendationMapper.java:28-40 | each meal is the non-empty group of one listed type, with that group's totals |
| RecommendationMapper.MealsForCovers | src/main/java/com/nutritiontracker/modules/recommendation/mapper/RecommendationMapper.java:24-40 | every listed type with recommendations gets a meal |
| RecommendationMapper.MealsForOrdered | src/main/java/com/nutritiontracker/modules/recommendation/mapper/RecommendationMapper.java:28-40 | the meals follow the order of the listed types |
| RecommendationMapper.MealGrouping | src/main/java/com/nutritiontracker/modules/recommendation/mapper/RecommendationMapper.java:20-60 | the response's meals group the plan's recommendations: one non-empty meal per meal type with recommendations, in meal-type order, each holding exactly the items of its type, together holding every recommendation once |
| RecommendationMapper.PlainTotalsAreZero | src/main/java/com/nutritiontracker/modules/recommendation/mapper/RecommendationMapper.java:42-73 | items built without their food carry no nutrition, so every meal total and the plan total of the plain response are zero |
| RecommendationMapper.MealsForCoverAll | src/main/java/com/nutritiontracker/modules/recommendation/mapper/RecommendationMapper.java:24-40 | every recommendation whose type is listed lands in a meal of its type |
| FoodService.FoodStore.CreateFood | src/main/java/com/nutritiontracker/modules/food/service/FoodService.java:36-51 | a non-blank barcode some food already has is refused with the duplicate-barcode message and nothing changes; the food is saved exactly when no other food has its barcode, under the next id, and the response shows the saved food; ids stay unique and no two foods share a barcode |
| FoodService.FoodStore.UpdateFood | src/main/java/com/nutritiontracker/modules/food/service/FoodService.java:146-166 | a missing food is not found; a new non-blank barcode that another food has is refused; otherwise the food takes the request's fields under its own id and the response shows it; a refusal changes nothing and barcodes stay unique |
| FoodService.FoodStore.DeleteFood | src/main/java/com/nutritiontracker/modules/food/service/FoodService.java:173-182 | succeeds exactly when the food exists and then removes only that food; a missing food is not found and nothing changes |
| FoodService.OnlyBlankBarcodesReachTheColumn | src/main/java/com/nutritiontracker/modules/food/service/FoodService.java:40-44 | a barcode clash that passes the service's check can only be a blank barcode: every non-blank clash is caught by the check |
| FoodService.SafeMultiply | src/main/java/com/nutritiontracker/modules/food/service/FoodService.java:252-256 | a missing value gives 0; otherwise value times factor rounded HALF_UP to 2 places |
| FoodService.FindUnit | src/main/java/com/nutritiontracker/modules/food/service/FoodService.java:208-211 | finds one of the food's serving units with that id, or reports that none has it |
| FoodService.Grams | src/main/java/com/nutritiontracker/modules/food/service/FoodService.java:206-216 | without a unit the quantity is grams; with a unit, the unit's weight times the quantity, and an unknown unit is a validation error |
| FoodService.Scaled | src/main/java/com/nutritiontracker/modules/food/service/FoodService.java:232-249 | each reported nutrient is the stored value scaled by the factor and rounded, a missing value 0 |
| FoodService.NutritionOfGrams | src/main/java/com/nutritiontracker/modules/food/service/FoodService.java:218-249 | a food without nutrients reports zero macros; otherwise its per-100 g values scaled by grams / 100 rounded to 4 places |
| FoodService.CalculateNutrition | src/main/java/com/nutritiontracker/modules/food/service/FoodService.java:201-250 | a missing food is not found, an unknown unit is a validation error, otherwise the nutrition of the portion's weight in grams |
| FoodService.UnitPortionIsGrams | src/main/java/com/nutritiontracker/modules/food/service/FoodService.java:206-216 | a portion in a serving unit has the same nutrition as its weight in grams |
| FoodService.HundredGramsIsTheBase | src/main/java/com/nutritiontracker/modules/food/service/FoodService.java:218-236 | 100 g of a food report its stored macros, rounded to 2 places |
| FoodService.LargerPortionNoLess | src/main/java/com/nutritiontracker/modules/food/service/FoodService.java:218-234 | a larger portion never reports less of a non-negative nutrient |
| FoodMapper.ToEntity | src/main/java/com/nutritiontracker/modules/food/mapper/FoodMapper.java:12-31 | null maps to null; otherwise a new food without id or alternative units, with the request's name, brand, barcode, serving size and unit, and a new nutrient block exactly when the request has one |
| FoodMapper.ToDto | src/main/java/com/nutritiontracker/modules/food/mapper/FoodMapper.java:33-54 | null maps to null; otherwise the food's id, scalar fields and nutrient block (when it has one), category empty |
| FoodMapper.RoundTrip | src/main/java/com/nutritiontracker/modules/food/mapper/FoodMapper.java:12-54 | showing a food built from a request gives back every scalar and nutrient field of the request; a given category is lost |
| FoodMapper.UpdateEntityFromDto | src/main/java/com/nutritiontracker/modules/food/mapper/FoodMapper.java:56-75 | a null request or food changes nothing; otherwise the food keeps its id and units, takes the request's five scalar fields, and its nutrient block (keeping its id, or a new one when it had none) takes the request's values; no request block leaves the food's block alone |
| FoodMapper.UpdateThenShow | src/main/java/com/nutritiontracker/modules/food/mapper/FoodMapper.java:56-137 | updating a food from a request and showing it reproduces the request, with the food's own id |
| FoodMapper.UpdateIdempotent | src/main/java/com/nutritiontracker/modules/food/mapper/FoodMapper.java:56-75 | applying the same request twice gives the same food as applying it once |
| FoodStats.FavoriteStore.AddFavorite | src/main/java/com/nutritiontracker/modules/food/service/FoodStatsService.java:33-45 | an unknown food is not found and nothing changes; otherwise the (user, food) pair is marked, and a pair already marked leaves the favourites as they were |
| FoodStats.FavoriteStore.RemoveFavorite | src/main/java/com/nutritiontracker/modules/food/service/FoodStatsService.java:48-53 | succeeds exactly when the pair is marked, and then unmarks only it; otherwise not found and nothing changes |
| FoodStats.Known | src/main/java/com/nutritiontracker/modules/food/service/FoodStatsService.java:67-69 | keeps only ranked ids that have a food, never more than were ranked |
| FoodStats.KnownMembers | src/main/java/com/nutritiontracker/modules/food/service/FoodStatsService.java:67-69 | an id is kept exactly when it is ranked and has a food |
| FoodStats.KnownAppend | src/main/java/com/nutritiontracker/modules/food/service/FoodStatsService.java:66-69 | filtering never reorders the ranking: filtering two runs of ranks together is filtering each in turn |
| FoodStats.GetFrequentFoods | src/main/java/com/nutritiontracker/modules/food/service/FoodStatsService.java:62-72 | one response per ranked id that has a food, in rank order, each the shown food of that id |
| FoodStats.FrequentFoodsFollowRanking | src/main/java/com/nutritiontracker/modules/food/service/FoodStatsService.java:62-72 | the j-th frequent food has the id of the j-th kept ranked id, which is one of the ranked ids |
| MacroPresets.Wrap32 | src/main/java/com/nutritiontracker/modules/auth/service/MacroPresetService.java:29 | Java `int` addition: the true value when it fits in 32 bits, and always equal to it modulo 2^32 |
| MacroPresets.SumInRange | src/main/java/com/nutritiontracker/modules/auth/entity/MacroPreset.java:38-67 | for percentages between 0 and 100 the 32-bit sum check is the true sum check |
| MacroPresets.SumCheckWraps | src/main/java/com/nutritiontracker/modules/auth/entity/MacroPreset.java:62-67 | the 32-bit sum check alone accepts percentages whose true sum is not 100, so the 0 to 100 bounds are needed |
| MacroPresets.CheckPercentages | src/main/java/com/nutritiontracker/modules/auth/service/MacroPresetService.java:29-31 | passes exactly when no percentage is missing and the 32-bit sum is 100; a missing percentage is a null unboxing, a wrong sum the "must sum to 100" refusal |
| MacroPresets.ApplyPresetToProfile | src/main/java/com/nutritiontracker/modules/auth/service/MacroPresetService.java:102-115 | a preset not the user's is not found, a missing profile is refused; otherwise the profile switches custom macros on with the preset's three percentages and keeps every other field |
| MacroPresets.AppliedSplitSumsTo100 | src/main/java/com/nutritiontracker/modules/auth/service/MacroPresetService.java:102-115 | applying a stored preset gives the profile a custom split that sums to 100% |
| MacroPresets.WithDefault | src/main/java/com/nutritiontracker/modules/auth/service/MacroPresetService.java:83-99 | keeps exactly the same preset ids |
| MacroPresets.WithDefaultKeepsInvariant | src/main/java/com/nutritiontracker/modules/auth/service/MacroPresetService.java:83-99 | moving a user's default keeps the store invariant (unique names per user, at most one default per user), and the chosen preset is then the user's only default |
| MacroPresets.Cleared | src/main/java/com/nutritiontracker/modules/auth/service/MacroPresetService.java:88-94 | keeps exactly the same preset ids |
| MacroPresets.DefaultMoved | src/main/java/com/nutritiontracker/modules/auth/service/MacroPresetService.java:88-98 | clearing the user's defaults and then setting the chosen preset's flag is moving the default to it |
| MacroPresets.ClearDefaults | src/main/java/com/nutritiontracker/modules/auth/service/MacroPresetService.java:88-94 | the loop over the user's presets, newest first, leaves exactly the presets with every default flag of the user cleared |
| MacroPresets.PresetStore.CreatePreset | src/main/java/com/nutritiontracker/modules/auth/service/MacroPresetService.java:26-48 | the percentage check comes first, then the duplicate-name check, then the entity's constraints; a preset is saved exactly when all pass, under the next id, not the default; a refusal changes nothing; the store invariant is kept |
| MacroPresets.PresetStore.UpdatePreset | src/main/java/com/nutritiontracker/modules/auth/service/MacroPresetService.java:51-72 | a preset not the user's is not found; then the percentage check, the name check only when the name changes, and the entity's constraints; on success only that preset's name and percentages change, its default flag kept |
| MacroPresets.PresetStore.DeletePreset | src/main/java/com/nutritiontracker/modules/auth/service/MacroPresetService.java:75-80 | succeeds exactly when the preset is the user's, and removes only it; otherwise not found and nothing changes |
| MacroPresets.PresetStore.SetDefaultPreset | src/main/java/com/nutritiontracker/modules/auth/service/MacroPresetService.java:83-99 | succeeds exactly when the preset is the user's; it becomes the user's only default and is returned; otherwise not found and nothing changes |
| GoalStreaks.AchievedMeansNear | src/main/java/com/nutritiontracker/modules/stats/service/StatsService.java:229-241 | a day meets its goal exactly when the goal is positive and the calories (0 when absent) are within 5% of it |
| GoalStreaks.Insert | src/main/java/com/nutritiontracker/modules/stats/service/StatsService.java:124-126 | inserting a day adds exactly that day |
| GoalStreaks.SortByDate | src/main/java/com/nutritiontracker/modules/stats/service/StatsService.java:124-126 | the days sorted by date are a permutation of the days, in date order |
| GoalStreaks.InsertSorted | src/main/java/com/nutritiontracker/modules/stats/service/StatsService.java:124-126 | inserting into date order keeps date order |
| GoalStreaks.GetGoalAchievement | src/main/java/com/nutritiontracker/modules/stats/service/StatsService.java:114-155 | the walk reports all days, the days that met their goal, the run still going at the last day and the longest run over the date-ordered days, and the rate achieved * 100 / total (0 without days) |
| GoalStreaks.CountConcat | src/main/java/com/nutritiontracker/modules/stats/service/StatsService.java:128-139 | the goal-meeting days of two runs of days add up |
| GoalStreaks.InsertCount | src/main/java/com/nutritiontracker/modules/stats/service/StatsService.java:124-131 | inserting a day adds only its own count |
| GoalStreaks.SortedCount | src/main/java/com/nutritiontracker/modules/stats/service/StatsService.java:124-131 | sorting by date does not change how many days met their goal |
| GoalStreaks.StreakOrder | src/main/java/com/nutritiontracker/modules/stats/service/StatsService.java:117-144 | current streak at most best streak, at most the goal-meeting days, at most all days |
| GoalStreaks.RunBelowCount | src/main/java/com/nutritiontracker/modules/stats/service/StatsService.java:128-144 | the current streak never exceeds the goal-meeting days |
| GoalStreaks.TrailingRunExact | src/main/java/com/nutritiontracker/modules/stats/service/StatsService.java:128-144 | the current streak is exactly the goal-meeting days at the end: each of them met the goal and the day before them did not |
| GoalStreaks.TrailingRunLongest | src/main/java/com/nutritiontracker/modules/stats/service/StatsService.java:128-144 | every run of goal-meeting days that reaches the last day is no longer than the current streak |
| GoalStreaks.BestRunLongest | src/main/java/com/nutritiontracker/modules/stats/service/StatsService.java:128-139 | no run of consecutive goal-meeting days is longer than the best streak |
| GoalStreaks.BestRunAttained | src/main/java/com/nutritiontracker/modules/stats/service/StatsService.java:128-139 | some run of consecutive goal-meeting days has exactly the best streak's length |
| GoalStreaks.CurrentStreakNeedsLastDay | src/main/java/com/nutritiontracker/modules/stats/service/StatsService.java:141-144 | the current streak is 0 unless the last day met its goal |
| GoalStreaks.RateIsPercentage | src/main/java/com/nutritiontracker/modules/stats/service/StatsService.java:146 | the rate lies between 0 and 100, and is 100 exactly when every day met its goal |
| Recipes.OwnedBy | src/main/java/com/nutritiontracker/modules/recipe/entity/Recipe.java:68-71 | the same ingredients in the same order, each pointing back to the owner |
| Recipes.Recipe.constructor | src/main/java/com/nutritiontracker/modules/recipe/entity/Recipe.java:20-58 | an unsaved recipe with the given fields and no ingredients |
| Recipes.Recipe.AddIngredient | src/main/java/com/nutritiontracker/modules/recipe/entity/Recipe.java:68-71 | the ingredient is appended, pointing back to this recipe; nothing else changes |
| RecipeService.RecipeStore.GetRecipeById | src/main/java/com/nutritiontracker/modules/recipe/service/RecipeService.java:29-32 | the stored recipe exactly when the id is stored, otherwise not found |
| RecipeService.RecipeStore.UpdateRecipe | src/main/java/com/nutritiontracker/modules/recipe/service/RecipeService.java:41-58 | a missing recipe is not found; otherwise the stored recipe keeps its id and owner, takes the eight descriptive fields of the update, and its ingredients become the update's, in order, pointing back to it (none when a recipe is updated from itself, since the list is cleared first) |
| RecipeService.CopyDetails | src/main/java/com/nutritiontracker/modules/recipe/service/RecipeService.java:43-50 | the stored recipe takes the eight descriptive fields of the update and keeps its id, owner and ingredients; a distinct update is left as it was |
| RecipeService.IngredientRatio | src/main/java/com/nutritiontracker/modules/recipe/service/RecipeService.java:72-73 | quantity / serving size rounded HALF_UP to 4 places; a missing serving size is a null dereference, a zero one a division by zero |
| RecipeService.IngredientNutrition | src/main/java/com/nutritiontracker/modules/recipe/service/RecipeService.java:72-79 | each of the food's four values times the ratio; fails with the ratio's error, or as a null dereference when the food lacks its nutrient block or one of the four values |
| RecipeService.TotalOkIffEveryIngredient | src/main/java/com/nutritiontracker/modules/recipe/service/RecipeService.java:71-80 | the recipe's totals can be formed exactly when every ingredient's contribution can |
| RecipeService.TotalAppend | src/main/java/com/nutritiontracker/modules/recipe/service/RecipeService.java:71-80 | the totals of two ingredient lists put together are the sum of each list's totals |
| RecipeService.TotalOrderFree | src/main/java/com/nutritiontracker/modules/recipe/service/RecipeService.java:71-80 | swapping two parts of the ingredient list does not change the totals |
| RecipeService.FailureSticks | src/main/java/com/nutritiontracker/modules/recipe/service/RecipeService.java:71-80 | once an ingredient fails, every longer list fails with the same error |
| RecipeService.PerServing | src/main/java/com/nutritiontracker/modules/recipe/service/RecipeService.java:82-88 | each total divided by the servings, rounded HALF_UP to 2 places; missing servings are a null dereference, zero servings a division by zero |
| RecipeService.NutritionPerServing | src/main/java/com/nutritiontracker/modules/recipe/service/RecipeService.java:65-89 | the first failing ingredient's error, or else the totals per serving |
| RecipeService.EmptyRecipeIsZero | src/main/java/com/nutritiontracker/modules/recipe/service/RecipeService.java:65-89 | a recipe without ingredients has zero of everything per serving for any non-zero servings |
| RecipeService.OneServingIsTheTotal | src/main/java/com/nutritiontracker/modules/recipe/service/RecipeService.java:82-88 | one serving shows the recipe's totals rounded to 2 places |
| RecipeService.CalculateNutritionPerServing | src/main/java/com/nutritiontracker/modules/recipe/service/RecipeService.java:65-89 | the loop's result is the nutrition per serving: the sum of the ingredients' contributions divided by the servings, or the error of the first failing step |
| RecipeMapper.IngredientsOf | src/main/java/com/nutritiontracker/modules/recipe/controller/RecipeMapper.java:36-45 | one unsaved ingredient per requested one, in order, with the requested quantity and unit and a placeholder food carrying only the requested id |
| RecipeMapper.Build | src/main/java/com/nutritiontracker/modules/recipe/controller/RecipeMapper.java:24-45 | a new recipe with the request's fields, one serving and not public by default, and the given ingredients in order, owned by it |
| RecipeMapper.ToEntity | src/main/java/com/nutritiontracker/modules/recipe/controller/RecipeMapper.java:20-48 | null maps to null; otherwise a new recipe built from the request, with placeholder foods |
| RecipeMapper.ToIngredientDto | src/main/java/com/nutritiontracker/modules/recipe/controller/RecipeMapper.java:78-86 | the ingredient's id, its food's id and name, quantity and unit |
| RecipeMapper.ToDto | src/main/java/com/nutritiontracker/modules/recipe/controller/RecipeMapper.java:50-76 | null maps to null; it fails exactly when the nutrition per serving fails, with the same error; otherwise the recipe's fields, its ingredients in order, and the nutrition per serving |
| RecipeMapper.RequestBuiltRecipeCannotBeShown | src/main/java/com/nutritiontracker/modules/recipe/controller/RecipeMapper.java:36-45 | as written, a recipe built from a request listing any ingredient cannot be shown: it fails with a null dereference |
| RecipeMapper.StoredIngredientsOf | src/main/java/com/nutritiontracker/modules/recipe/controller/RecipeMapper.java:36-45 | one unsaved ingredient per requested one, in order, each with the stored food of the requested id |
| RecipeMapper.ToEntityWithStoredFoods | src/main/java/com/nutritiontracker/modules/recipe/controller/RecipeMapper.java:20-48 | corrected: null maps to null; a request naming no food or an unknown one is not found; otherwise a new recipe built from the request with the stored foods |
| RecipeMapper.StoredFoodsShowRequest | src/main/java/com/nutritiontracker/modules/recipe/controller/RecipeMapper.java:20-76 | corrected: a recipe built with stored measurable foods and non-zero servings can be shown, and the response gives back the request's name, description, preparation and cooking times, instructions and image URL, the defaults for servings and visibility, and each ingredient's food, name, quantity and unit in order |
| MealTemplates.OwnedItems | src/main/java/com/nutritiontracker/modules/mealtemplate/entity/MealTemplate.java:61-64 | the same items in the same order, each pointing back to the owner |
| MealTemplates.MealTemplate.constructor | src/main/java/com/nutritiontracker/modules/mealtemplate/entity/MealTemplate.java:22-51 | an unsaved template, not a system one, with the given fields and no items |
| MealTemplates.MealTemplate.AddItem | src/main/java/com/nutritiontracker/modules/mealtemplate/entity/MealTemplate.java:61-64 | the item is appended, pointing back to this template; nothing else changes |
| MealTemplateService.TargetMealType | src/main/java/com/nutritiontracker/modules/mealtemplate/service/MealTemplateService.java:93-96 | the requested meal, else the template's own, else breakfast |
| MealTemplateService.ItemFailure | src/main/java/com/nutritiontracker/modules/mealtemplate/service/MealTemplateService.java:98-107 | logging an item fails exactly when its food is not stored (not found) or the entry's macros cannot be computed (that error) |
| MealTemplateService.FirstItemFailure | src/main/java/com/nutritiontracker/modules/mealtemplate/service/MealTemplateService.java:98-108 | no failure exactly when every item can be logged; otherwise the failure of an item all of whose predecessors can be logged |
| MealTemplateService.ItemEntry | src/main/java/com/nutritiontracker/modules/mealtemplate/service/MealTemplateService.java:99-107 | the entry logged for an item: new, in the day's log, under the target meal, with the stored food and the item's quantity and unit |
| MealTemplateService.TemplateEntries | src/main/java/com/nutritiontracker/modules/mealtemplate/service/MealTemplateService.java:98-108 | one entry per item, in item order |
| MealTemplateService.TemplateEntriesStep | src/main/java/com/nutritiontracker/modules/mealtemplate/service/MealTemplateService.java:98-108 | logging one more item appends exactly its entry |
| MealTemplateService.ChangeRefusal | src/main/java/com/nutritiontracker/modules/mealtemplate/service/MealTemplateService.java:52-57 | a change is allowed exactly for a non-system template owned by the user; a system template is refused with its message, another user's with "User does not own this template", and one without owner is a null dereference |
| MealTemplateService.LogItem | src/main/java/com/nutritiontracker/modules/mealtemplate/service/MealTemplateService.java:99-107 | the day's log exists afterwards (created if missing, otherwise keeping its id and weight) and gains exactly the item's entry at the end; every other log and its entries are unchanged |
| MealTemplateService.LogItems | src/main/java/com/nutritiontracker/modules/mealtemplate/service/MealTemplateService.java:98-108 | no items leave the book and every log, entries and weight included, unchanged; otherwise the day's log exists, keeps its id and weight if it existed, and gains the items' entries in order, and no other log changes |
| MealTemplateService.LogRest | src/main/java/com/nutritiontracker/modules/mealtemplate/service/MealTemplateService.java:98-108 | the items after the first are appended to the day's log in order, which keeps its id and weight; no log is added |
| MealTemplateService.LogNext | src/main/java/com/nutritiontracker/modules/mealtemplate/service/MealTemplateService.java:98-108 | the next item's entry is appended to the day's log, which keeps its id and weight; no log is added |
| MealTemplateService.LogItemInto | src/main/java/com/nutritiontracker/modules/mealtemplate/service/MealTemplateService.java:99-107 | the item's entry is appended to the existing day log, which keeps its id and weight; no log is added and every other log keeps its entries |
| MealTemplateService.TemplateStore.GetTemplateById | src/main/java/com/nutritiontracker/modules/mealtemplate/service/MealTemplateService.java:34-38 | the stored template exactly when the id is stored, otherwise not found |
| MealTemplateService.TemplateStore.UpdateTemplate | src/main/java/com/nutritiontracker/modules/mealtemplate/service/MealTemplateService.java:49-71 | a missing template is not found; a refused change leaves the template unchanged; otherwise it keeps id, owner and system flag, takes the update's name, description, meal type and visibility, and its items become the update's in order, pointing back to it |
| MealTemplateService.TemplateStore.DeleteTemplate | src/main/java/com/nutritiontracker/modules/mealtemplate/service/MealTemplateService.java:75-86 | a missing template is not found; a refused change leaves the store as it was; otherwise only that template is removed |
| MealTemplateService.TemplateStore.ApplyTemplate | src/main/java/com/nutritiontracker/modules/mealtemplate/service/MealTemplateService.java:89-109 | a missing template is not found; the first item that cannot be logged fails the whole application; on any failure, and for a template without items, the book and every log, entries and weight included, are unchanged; otherwise every item is logged in order under the target meal into the user's log of that day, which keeps its id and weight if it existed, and no other log changes |
| MealTemplateMapper.ItemsOf | src/main/java/com/nutritiontracker/modules/mealtemplate/mapper/MealTemplateMapper.java:27-36 | one unsaved item per requested one, in order, with the requested quantity and unit and a placeholder food carrying only the requested id |
| MealTemplateMapper.Build | src/main/java/com/nutritiontracker/modules/mealtemplate/mapper/MealTemplateMapper.java:19-36 | a new template owned by the user, not a system one, with the request's fields, not public by default, and the given items in order, owned by it |
| MealTemplateMapper.ToEntity | src/main/java/com/nutritiontracker/modules/mealtemplate/mapper/MealTemplateMapper.java:15-39 | null maps to null; otherwise a new template built from the request, with placeholder foods |
| MealTemplateMapper.ToItemDto | src/main/java/com/nutritiontracker/modules/mealtemplate/mapper/MealTemplateMapper.java:57-70 | the item's id, its food's id, name and brand, the portion and the food's four values; a food without nutrient block is a null dereference |
| MealTemplateMapper.ToDto | src/main/java/com/nutritiontracker/modules/mealtemplate/mapper/MealTemplateMapper.java:41-55 | null maps to null; it fails exactly when some item's food has no nutrient block; otherwise the template's fields and its items shown in order |
| MealTemplateMapper.RequestBuiltTemplateCannotBeShown | src/main/java/com/nutritiontracker/modules/mealtemplate/mapper/MealTemplateMapper.java:27-36 | as written, a template built from a request listing any item cannot be shown: it fails with a null dereference |
| MealTemplateMapper.StoredItemsOf | src/main/java/com/nutritiontracker/modules/mealtemplate/mapper/MealTemplateMapper.java:27-36 | one unsaved item per requested one, in order, each with the stored food of the requested id |
| MealTemplateMapper.ToEntityWithStoredFoods | src/main/java/com/nutritiontracker/modules/mealtemplate/mapper/MealTemplateMapper.java:15-39 | corrected: null maps to null; a request naming no food or an unknown one is not found; otherwise a new template built from the request with the stored foods |
| MealTemplateMapper.StoredFoodsShowRequest | src/main/java/com/nutritiontracker/modules/mealtemplate/mapper/MealTemplateMapper.java:15-70 | corrected: a template built with stored foods that have nutrient blocks can be shown, and the response gives back the request's fields, default and each item's food, name, brand, quantity, unit and the food's stored calories, protein, carbohydrates and fats in order |

## Left out

- HTTP controllers, exception handlers, configuration, authentication, notifications, reports, search indexing and the external food clients are not part of this model: they are framework wiring, network or rendering code.
- `NutritionalCalculationService` and the rest of `StatsService` (weight history, moving averages, adherence, weekly change) are not part of this model: they are `double` arithmetic.
- Repository queries (frequent foods, the fallback food list, lookups by id, logs of a date range) are parameters. Their ordering and paging are not modelled.
- Timestamps, `LocalDate.now()`, caching and `@Transactional` are left out. Times are plain inputs. A transaction is modelled as "a failing operation changes nothing".
- `RecommendationAlgorithm.SelectBestSource`: the shuffle is replaced by an injected pick index, so the model covers every choice the shuffle could make, but not its distribution.
- The meal-type enum's source is not part of this model. Its order is taken as breakfast, lunch, dinner, snack. The presenter groups with a `HashMap`, whose iteration order Java leaves unspecified, so `RecommendationMapper.ToDto` lists meals in the enum's order.
- `PlanHydration.HydrateAndMap` models what `hydrateAndMap` evidently means. The source calls `getRecommendationId` and `setNutritionPerServing`, which the item response type does not define. An item is matched to its recommendation by the item's id and takes its name, nutrition and unit from `toItemDto(rec, food)`.
- `acceptMeal` and the daily-log controller's range, breakdown and copy calls are left out: they call service methods that do not exist in the source.
- `PlanRequests.GenerateOrRegeneratePlan`: the source discards the previous plan before generating the new one, and the model does it after. Under rollback the two orders leave the same state.
- `Achievements.ProgressPercentage` uses exact real arithmetic, whereas the source computes in `double` and truncates. For example, progress 29 of 100 gives 28 in `double` but 29 here.
- Rda.Upper: upper-cases ASCII letters only, whereas Java's `toUpperCase` follows Unicode and the default locale; the two agree on ASCII text outside Turkic locales (where `i` upper-cases to a dotted capital), so the comparison with "MALE" it feeds is modelled exactly for such input.
- The achievement types' display names are left out; only their targets, as the enum declares them, are modelled.
- `GoalStreaks.GetGoalAchievement` and `GoalStreaks.AchievedMeansNear` use exact reals for the `double` tolerance bounds and the achievement rate.
- Entity getters that the shown entities do not declare (`Food.getServingUnits`, `DailyLog.getCalorieGoal`, `UserProfile.getAge`) are modelled as plain fields.
- Aliasing between a template item or recipe ingredient object and the list that holds it is not modelled. Items and ingredients are values with a back-reference field. Updating a recipe or template from itself (the refill reads the list just cleared) is the one aliasing case kept.
- `removeIngredient` and `removeItem` are left out: no modelled operation calls them.
- `createRecipe`, `deleteRecipe`, `getUserRecipes`, `createTemplate` and `getUserTemplates` are left out: they pass a value straight to or from the repository.
- Foreign-key constraints, lazy loading and JPA's dirty checking are not modelled. Quantity columns declared `NOT NULL` are non-null reals.
- A placeholder food built from an id alone has a null name, modelled as the empty string.
- The food category field is not carried by the food conversions, as in the source. Its enum is not modelled.
- DailyLogService.AddEntry: the new meal entry has no id, whereas saving the log assigns it a generated one through the cascade, so the response shows the entry without an id. In the model, `UpdateEntry` and `DeleteEntry` therefore reach only entries whose ids the input log already holds. The entries that `PlanLifecycle.AcceptPlan` and `MealTemplateService.TemplateStore.ApplyTemplate` log through it have no id either. Day-log ids, by contrast, are generated from the log book's counter.
- `MealTemplateService.TemplateStore.ApplyTemplate` does not check ownership, faithfully: any user may apply any template.

## Findings

| source | as written | input that shows it | evidently intended | confidence | as-written member | corrected member |
|---|---|---|---|---|---|---|
| src/main/java/com/nutritiontracker/modules/recipe/controller/RecipeMapper.java:36-45 | each ingredient gets a new food holding only the requested id; the controller then shows the saved recipe, and the nutrition per serving dereferences that food's null serving size | a create request listing one ingredient | each ingredient refers to the stored food of that id, so the recipe can be shown | not executed | RecipeMapper.RequestBuiltRecipeCannotBeShown | RecipeMapper.ToEntityWithStoredFoods |
| src/main/java/com/nutritiontracker/modules/mealtemplate/mapper/MealTemplateMapper.java:27-36 | each item gets a new food holding only the requested id; showing the saved template reads that food's null nutrient block | a create request listing one item | each item refers to the stored food of that id, so the template can be shown | not executed | MealTemplateMapper.RequestBuiltTemplateCannotBeShown | MealTemplateMapper.ToEntityWithStoredFoods |
