/**
 * The shared entities of the nutrition tracker: foods with their optional
 * nutritional information, meal types and the parts of a user profile the
 * modelled services read. Dates are epoch-day numbers.
 */
module Nutrition {
  import opened Wrappers

  /** The meal slots of a day, in declaration order. */
  datatype MealType = Breakfast | Lunch | Dinner | Snack

  const MealTypes: seq<MealType> := [Breakfast, Lunch, Dinner, Snack]

  /** The position of a meal type in declaration order. */
  function MealIndex(t: MealType): (i: nat)
    ensures i < |MealTypes| && MealTypes[i] == t
  {
    match t
    case Breakfast => 0
    case Lunch => 1
    case Dinner => 2
    case Snack => 3
  }

  /** Nutrients per serving of a food; every value may be absent (SQL NULL). */
  datatype NutritionalInfo = NutritionalInfo(
    id: Option<int>,
    calories: Option<real>,
    protein: Option<real>,
    carbohydrates: Option<real>,
    fats: Option<real>,
    fiber: Option<real>,
    sugars: Option<real>,
    saturatedFats: Option<real>,
    sodium: Option<real>,
    calcium: Option<real>,
    iron: Option<real>,
    potassium: Option<real>,
    vitaminA: Option<real>,
    vitaminC: Option<real>,
    vitaminD: Option<real>,
    vitaminE: Option<real>,
    vitaminB12: Option<real>)

  /** An alternative serving of a food, weighing `weightGrams` grams. */
  datatype ServingUnit = ServingUnit(id: int, unitLabel: string, weightGrams: real)

  /** A catalogue food. `id` is absent until the food has been stored. */
  datatype Food = Food(
    id: Option<int>,
    name: string,
    brand: Option<string>,
    barcode: Option<string>,
    servingSize: Option<real>,
    servingUnit: Option<string>,
    nutritionalInfo: Option<NutritionalInfo>,
    servingUnits: seq<ServingUnit>)

  /** The profile fields read by the diet engine, the daily log, statistics and presets. */
  datatype UserProfile = UserProfile(
    userId: int,
    gender: Option<string>,
    age: Option<int>,
    dailyCalorieGoal: Option<real>,
    dailyProteinGoal: Option<real>,
    dailyCarbsGoal: Option<real>,
    dailyFatsGoal: Option<real>,
    useCustomMacros: bool,
    customProteinPercentage: Option<real>,
    customCarbsPercentage: Option<real>,
    customFatsPercentage: Option<real>)

  /** A nullable BigDecimal read as zero when absent. */
  function Safe(v: Option<real>): real
  {
    v.GetOr(0.0)
  }

  /** The amount of a nullable nutrient in `ratio` servings, a missing nutrient counting as zero. */
  function Share(v: Option<real>, ratio: real): real
  {
    Safe(v) * ratio
  }

  /** The serving size, 100 when absent. */
  function ServingSizeOr100(food: Food): real
  {
    food.servingSize.GetOr(100.0)
  }

  /**
   * A food known only by its id, as a mapper builds it from a request that
   * names the food; its name (null in the source) is empty, every other
   * field absent.
   */
  function Placeholder(foodId: Option<int>): Food
  {
    Food(foodId, "", None, None, None, None, None, [])
  }

  /** `foodRepository.findById`: the food stored under `id`, if any. */
  function FindFood(foods: map<int, Food>, id: Option<int>): Option<Food>
  {
    if id.Some? && id.value in foods then Some(foods[id.value]) else None
  }
}
