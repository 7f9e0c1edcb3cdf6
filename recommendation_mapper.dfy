/**
 * The presenter of diet plans: groups a plan's recommendations by meal,
 * builds one item per recommendation, and sums the items' nutrients into meal
 * totals and the meal totals into plan totals.
 *
 * Meal groups come out in meal-type declaration order; every total the
 * presenter computes is present (never null).
 */
module RecommendationMapper {
  import opened Wrappers
  import opened Decimal
  import opened Nutrition
  import opened DietPlans
  import opened RecommendationAlgorithm

  /** Calories and macros, as shown for an item, a meal or a plan. */
  datatype NutritionalTotals = NutritionalTotals(calories: real, protein: real, carbs: real, fats: real)
  {
    function Plus(other: NutritionalTotals): NutritionalTotals
    {
      NutritionalTotals(calories + other.calories, protein + other.protein, carbs + other.carbs, fats + other.fats)
    }
  }

  const NoNutrients: NutritionalTotals := NutritionalTotals(0.0, 0.0, 0.0, 0.0)

  /** The profile's daily goals as shown beside a plan; each goal may be absent. */
  datatype DailyGoal = DailyGoal(calories: Option<real>, protein: Option<real>, carbs: Option<real>, fats: Option<real>)

  /** One shown recommendation; nutrition and name are filled in only when the food is known. */
  datatype RecommendationItem = RecommendationItem(
    id: Option<int>,
    foodId: Option<int>,
    foodName: Option<string>,
    suggestedQuantity: real,
    unit: string,
    reason: string,
    status: string,
    nutritionalInfo: Option<NutritionalTotals>)

  datatype RecommendedMeal = RecommendedMeal(mealType: MealType, items: seq<RecommendationItem>,
                                             totals: NutritionalTotals)

  datatype DietPlanResponse = DietPlanResponse(
    id: Option<int>,
    date: int,
    version: int,
    status: PlanStatus,
    meals: seq<RecommendedMeal>,
    planTotals: NutritionalTotals,
    dailyGoal: DailyGoal)

  /** The enum constant's name. */
  function StatusName(s: RecommendationStatus): string
  {
    match s
    case Pending => "PENDING"
    case Accepted => "ACCEPTED"
    case Rejected => "REJECTED"
  }

  /** `value × multiplier` rounded HALF_UP to 2 decimals, with an absent value counted as 0. */
  function SafeMultiply(value: Option<real>, multiplier: real): (r: real)
    ensures r == Round(Share(value, multiplier), 2)
    ensures value.None? ==> r == 0.0
  {
    RoundZero(2);
    if value.None? then 0.0
    else
      var x := value.value * multiplier;
      assert Share(value, multiplier) == x;
      Round(x, 2)
  }

  /** The item of a recommendation without its food: grams, no name and no nutrition. */
  function ToItem(rec: DietRecommendation): (item: RecommendationItem)
    ensures item.nutritionalInfo.None? && item.foodName.None? && item.unit == "g"
    ensures item.id == rec.id && item.foodId == rec.foodId && item.suggestedQuantity == rec.suggestedQuantity
    ensures item.reason == rec.reason && item.status == StatusName(rec.status)
  {
    RecommendationItem(rec.id, rec.foodId, None, rec.suggestedQuantity, "g", rec.reason, StatusName(rec.status), None)
  }

  /**
   * The item of a recommendation with its food: the food's name and unit, and
   * each macro as round2(nutrient × round4(quantity / servingSize)), the serving
   * size defaulting to 100. A zero serving size fails the division; a food
   * without nutritional information fails on dereferencing it.
   */
  function ToItemWithFood(rec: DietRecommendation, food: Food): (r: Result<RecommendationItem>)
    ensures r.Err? <==> food.servingSize == Some(0.0) || food.nutritionalInfo.None?
    ensures food.servingSize == Some(0.0) ==> r == Err(DivisionByZero)
    ensures food.servingSize != Some(0.0) && food.nutritionalInfo.None? ==> r == Err(NullPointer)
    ensures r.Ok? ==>
      r.value.id == rec.id && r.value.foodId == rec.foodId && r.value.foodName == Some(food.name)
      && r.value.suggestedQuantity == rec.suggestedQuantity && r.value.unit == food.servingUnit.GetOr("g")
      && r.value.reason == rec.reason && r.value.status == StatusName(rec.status)
      && r.value.nutritionalInfo.Some?
  {
    var servingSize := ServingSizeOr100(food);
    if servingSize == 0.0 then Err(DivisionByZero)
    else if food.nutritionalInfo.None? then Err(NullPointer)
    else
      var ratio := Divide(rec.suggestedQuantity, servingSize, 4);
      var n := food.nutritionalInfo.value;
      var totals := NutritionalTotals(SafeMultiply(n.calories, ratio), SafeMultiply(n.protein, ratio),
                                      SafeMultiply(n.carbohydrates, ratio), SafeMultiply(n.fats, ratio));
      Ok(RecommendationItem(rec.id, rec.foodId, Some(food.name), rec.suggestedQuantity,
                            food.servingUnit.GetOr("g"), rec.reason, StatusName(rec.status), Some(totals)))
  }

  /**
   * A shown macro is the allocator's contribution of that food and quantity,
   * rounded to 2 decimals: the presenter and the planner agree on nutrients.
   */
  lemma ItemNutritionIsContribution(rec: DietRecommendation, food: Food)
    requires rec.suggestedQuantity > 0.0 && ToItemWithFood(rec, food).Ok?
    ensures GetMacroContribution(Some(food), rec.suggestedQuantity, Protein).Ok?
    ensures ToItemWithFood(rec, food).value.nutritionalInfo.value.protein
      == Round(GetMacroContribution(Some(food), rec.suggestedQuantity, Protein).value, 2)
    ensures ToItemWithFood(rec, food).value.nutritionalInfo.value.carbs
      == Round(GetMacroContribution(Some(food), rec.suggestedQuantity, Carbs).value, 2)
    ensures ToItemWithFood(rec, food).value.nutritionalInfo.value.fats
      == Round(GetMacroContribution(Some(food), rec.suggestedQuantity, Fats).value, 2)
  {
    var ratio := Divide(rec.suggestedQuantity, ServingSizeOr100(food), 4);
    var n := food.nutritionalInfo.value;
    ItemTotalsAt(rec, food, ratio);
    ContributionAt(food, rec.suggestedQuantity, Protein, ratio);
    ContributionAt(food, rec.suggestedQuantity, Carbs, ratio);
    ContributionAt(food, rec.suggestedQuantity, Fats, ratio);
  }

  /** The item's nutrients, spelled out for a given portion ratio. */
  lemma ItemTotalsAt(rec: DietRecommendation, food: Food, ratio: real)
    requires ToItemWithFood(rec, food).Ok?
    requires ratio == Divide(rec.suggestedQuantity, ServingSizeOr100(food), 4)
    ensures var n := food.nutritionalInfo.value;
      ToItemWithFood(rec, food).value.nutritionalInfo
      == Some(NutritionalTotals(SafeMultiply(n.calories, ratio), SafeMultiply(n.protein, ratio),
                                SafeMultiply(n.carbohydrates, ratio), SafeMultiply(n.fats, ratio)))
  {
  }

  /** What an item adds to a total: its nutrition, or nothing when it has none. */
  function ItemNutrition(item: RecommendationItem): NutritionalTotals
  {
    if item.nutritionalInfo.Some? then item.nutritionalInfo.value else NoNutrients
  }

  /** The sum of the items' nutrition, skipping items without any. */
  function ItemsTotals(items: seq<RecommendationItem>): NutritionalTotals
  {
    if items == [] then NoNutrients
    else ItemsTotals(items[..|items| - 1]).Plus(ItemNutrition(items[|items| - 1]))
  }

  /** Adds up the items one by one. */
  method CalculateMealTotals(items: seq<RecommendationItem>) returns (t: NutritionalTotals)
    ensures t == ItemsTotals(items)
  {
    var calories, protein, carbs, fats := 0.0, 0.0, 0.0, 0.0;
    var i := 0;
    while i < |items|
      invariant 0 <= i <= |items|
      invariant NutritionalTotals(calories, protein, carbs, fats) == ItemsTotals(items[..i])
    {
      assert items[..i + 1][..i] == items[..i];
      if items[i].nutritionalInfo.Some? {
        var n := items[i].nutritionalInfo.value;
        calories := calories + n.calories;
        protein := protein + n.protein;
        carbs := carbs + n.carbs;
        fats := fats + n.fats;
      }
      i := i + 1;
    }
    assert items[..i] == items;
    t := NutritionalTotals(calories, protein, carbs, fats);
  }

  /** The totals of a concatenation are the sum of the parts' totals. */
  lemma {:induction false} ItemsTotalsAppend(a: seq<RecommendationItem>, b: seq<RecommendationItem>)
    ensures ItemsTotals(a + b) == ItemsTotals(a).Plus(ItemsTotals(b))
    decreases |b|
  {
    if b == [] {
      assert a + b == a;
    } else {
      var b', last := b[..|b| - 1], b[|b| - 1];
      assert (a + b)[..|a + b| - 1] == a + b';
      assert (a + b)[|a + b| - 1] == last;
      ItemsTotalsAppend(a, b');
      PlusAssociative(ItemsTotals(a), ItemsTotals(b'), ItemNutrition(last));
    }
  }

  lemma PlusAssociative(x: NutritionalTotals, y: NutritionalTotals, z: NutritionalTotals)
    ensures x.Plus(y).Plus(z) == x.Plus(y.Plus(z))
  {
  }

  /** Items without nutrition add up to nothing. */
  lemma {:induction false} ItemsWithoutNutrition(items: seq<RecommendationItem>)
    requires forall i :: 0 <= i < |items| ==> items[i].nutritionalInfo.None?
    ensures ItemsTotals(items) == NoNutrients
    decreases |items|
  {
    if items != [] {
      ItemsWithoutNutrition(items[..|items| - 1]);
    }
  }

  /** The sum of the meals' totals. */
  function MealsTotals(meals: seq<RecommendedMeal>): NutritionalTotals
  {
    if meals == [] then NoNutrients
    else MealsTotals(meals[..|meals| - 1]).Plus(meals[|meals| - 1].totals)
  }

  /** Every item of every meal, meal by meal. */
  function AllItems(meals: seq<RecommendedMeal>): seq<RecommendationItem>
  {
    if meals == [] then [] else AllItems(meals[..|meals| - 1]) + meals[|meals| - 1].items
  }

  /** Meals whose totals are their items' totals. */
  predicate TotalsOfItems(meals: seq<RecommendedMeal>)
  {
    forall i :: 0 <= i < |meals| ==> meals[i].totals == ItemsTotals(meals[i].items)
  }

  /** Plan totals are the totals of all items, however they are grouped into meals. */
  lemma {:induction false} PlanTotalsAreItemTotals(meals: seq<RecommendedMeal>)
    requires TotalsOfItems(meals)
    ensures MealsTotals(meals) == ItemsTotals(AllItems(meals))
    decreases |meals|
  {
    if meals != [] {
      var init := meals[..|meals| - 1];
      PlanTotalsAreItemTotals(init);
      ItemsTotalsAppend(AllItems(init), meals[|meals| - 1].items);
    }
  }

  /** The recommendations of one meal type, in plan order. */
  function Group(recs: seq<DietRecommendation>, t: MealType): (g: seq<DietRecommendation>)
    ensures |g| <= |recs|
    ensures forall i :: 0 <= i < |g| ==> g[i] in recs && g[i].mealType == t
    ensures forall i :: 0 <= i < |recs| && recs[i].mealType == t ==> recs[i] in g
  {
    if recs == [] then []
    else
      assert recs == [recs[0]] + recs[1..];
      (if recs[0].mealType == t then [recs[0]] else []) + Group(recs[1..], t)
  }

  function ToItems(recs: seq<DietRecommendation>): (items: seq<RecommendationItem>)
    ensures |items| == |recs|
    ensures forall i :: 0 <= i < |recs| ==> items[i] == ToItem(recs[i])
  {
    if recs == [] then [] else [ToItem(recs[0])] + ToItems(recs[1..])
  }

  /** One meal per meal type of `types` that has recommendations, in the order of `types`. */
  function MealsFor(recs: seq<DietRecommendation>, types: seq<MealType>): seq<RecommendedMeal>
  {
    if types == [] then []
    else
      var items := ToItems(Group(recs, types[0]));
      (if items == [] then [] else [RecommendedMeal(types[0], items, ItemsTotals(items))])
      + MealsFor(recs, types[1..])
  }

  /** The response for a plan, `None` for a missing plan. */
  function ToDto(plan: DietPlan?, dailyGoal: DailyGoal): (r: Option<DietPlanResponse>)
    reads plan
    ensures r.None? <==> plan == null
    ensures r.Some? ==>
      r.value.id == plan.id && r.value.date == plan.date && r.value.version == plan.version
      && r.value.status == plan.status && r.value.dailyGoal == dailyGoal
  {
    if plan == null then None
    else
      var meals := MealsFor(plan.recommendations, MealTypes);
      Some(DietPlanResponse(plan.id, plan.date, plan.version, plan.status, meals, MealsTotals(meals), dailyGoal))
  }

  /** How many items the meals hold together. */
  function ItemCount(meals: seq<RecommendedMeal>): nat
  {
    if meals == [] then 0 else |meals[0].items| + ItemCount(meals[1..])
  }

  /** How many recommendations have a meal type listed in `types`, counting a type once per listing. */
  function GroupSizes(recs: seq<DietRecommendation>, types: seq<MealType>): nat
  {
    if types == [] then 0 else |Group(recs, types[0])| + GroupSizes(recs, types[1..])
  }

  lemma {:induction false} MealsForCount(recs: seq<DietRecommendation>, types: seq<MealType>)
    ensures ItemCount(MealsFor(recs, types)) == GroupSizes(recs, types)
    decreases |types|
  {
    if types != [] {
      MealsForCount(recs, types[1..]);
      var items := ToItems(Group(recs, types[0]));
      var head := if items == [] then [] else [RecommendedMeal(types[0], items, ItemsTotals(items))];
      ItemCountAppend(head, MealsFor(recs, types[1..]));
    }
  }

  lemma {:induction false} ItemCountAppend(a: seq<RecommendedMeal>, b: seq<RecommendedMeal>)
    ensures ItemCount(a + b) == ItemCount(a) + ItemCount(b)
    decreases |a|
  {
    if a != [] {
      assert (a + b)[0] == a[0];
      assert (a + b)[1..] == a[1..] + b;
      ItemCountAppend(a[1..], b);
    } else {
      assert a + b == b;
    }
  }

  /** The number of times `t` is listed in `types`. */
  function Occurrences(types: seq<MealType>, t: MealType): nat
  {
    if types == [] then 0 else (if types[0] == t then 1 else 0) + Occurrences(types[1..], t)
  }

  lemma {:induction false} GroupSizesCons(r: DietRecommendation, rest: seq<DietRecommendation>,
                                          types: seq<MealType>)
    ensures GroupSizes([r] + rest, types) == GroupSizes(rest, types) + Occurrences(types, r.mealType)
    decreases |types|
  {
    if types != [] {
      assert ([r] + rest)[1..] == rest;
      GroupSizesCons(r, rest, types[1..]);
    }
  }

  /** Each meal type is listed exactly once, so the groups split the recommendations. */
  lemma {:induction false} GroupsPartition(recs: seq<DietRecommendation>)
    ensures GroupSizes(recs, MealTypes) == |recs|
    decreases |recs|
  {
    if recs != [] {
      GroupsPartition(recs[1..]);
      assert recs == [recs[0]] + recs[1..];
      GroupSizesCons(recs[0], recs[1..], MealTypes);
      OccursOnce(recs[0].mealType);
    } else {
      NoGroups(MealTypes);
    }
  }

  lemma {:induction false} NoGroups(types: seq<MealType>)
    ensures GroupSizes([], types) == 0
    decreases |types|
  {
    if types != [] {
      NoGroups(types[1..]);
    }
  }

  lemma OccursOnce(t: MealType)
    ensures Occurrences(MealTypes, t) == 1
  {
    assert MealTypes[1..] == [Lunch, Dinner, Snack];
    assert MealTypes[1..][1..] == [Dinner, Snack];
    assert MealTypes[1..][1..][1..] == [Snack];
    assert MealTypes[1..][1..][1..][1..] == [];
  }

  /** A meal holding exactly the non-empty group of its type, with that group's totals. */
  predicate GroupMeal(recs: seq<DietRecommendation>, m: RecommendedMeal)
  {
    m.items != [] && m.items == ToItems(Group(recs, m.mealType)) && m.totals == ItemsTotals(m.items)
  }

  /** The meal for the first listed type, if that type has recommendations. */
  function HeadMeal(recs: seq<DietRecommendation>, t: MealType): seq<RecommendedMeal>
  {
    var items := ToItems(Group(recs, t));
    if items == [] then [] else [RecommendedMeal(t, items, ItemsTotals(items))]
  }

  lemma MealsForUnfold(recs: seq<DietRecommendation>, types: seq<MealType>)
    requires types != []
    ensures MealsFor(recs, types) == HeadMeal(recs, types[0]) + MealsFor(recs, types[1..])
  {
  }

  /** Each meal for `types` is the group of one listed type. */
  lemma {:induction false} MealsForShape(recs: seq<DietRecommendation>, types: seq<MealType>)
    ensures forall i :: 0 <= i < |MealsFor(recs, types)| ==>
      MealsFor(recs, types)[i].mealType in types && GroupMeal(recs, MealsFor(recs, types)[i])
    decreases |types|
  {
    if types != [] {
      MealsForShape(recs, types[1..]);
      MealsForUnfold(recs, types);
      HeadMealShape(recs, types[0]);
      ShapeConcat(recs, HeadMeal(recs, types[0]), MealsFor(recs, types[1..]), types);
    }
  }

  lemma HeadMealShape(recs: seq<DietRecommendation>, t: MealType)
    ensures forall i :: 0 <= i < |HeadMeal(recs, t)| ==>
      HeadMeal(recs, t)[i].mealType == t && GroupMeal(recs, HeadMeal(recs, t)[i])
  {
  }

  lemma ShapeConcat(recs: seq<DietRecommendation>, head: seq<RecommendedMeal>, rest: seq<RecommendedMeal>,
                    types: seq<MealType>)
    requires types != []
    requires forall i :: 0 <= i < |head| ==> head[i].mealType == types[0] && GroupMeal(recs, head[i])
    requires forall i :: 0 <= i < |rest| ==> rest[i].mealType in types[1..] && GroupMeal(recs, rest[i])
    ensures forall i :: 0 <= i < |head + rest| ==>
      (head + rest)[i].mealType in types && GroupMeal(recs, (head + rest)[i])
  {
    forall i | 0 <= i < |head + rest|
      ensures (head + rest)[i].mealType in types && GroupMeal(recs, (head + rest)[i])
    {
      if i < |head| {
        assert (head + rest)[i] == head[i];
        assert types[0] in types;
      } else {
        assert (head + rest)[i] == rest[i - |head|];
        var t := rest[i - |head|].mealType;
        assert t in types[1..];
        var j :| 0 <= j < |types[1..]| && types[1..][j] == t;
        assert types[j + 1] == t;
      }
    }
  }

  /** Whether one of the meals is of type `t`. */
  predicate HasMeal(meals: seq<RecommendedMeal>, t: MealType)
  {
    exists i :: 0 <= i < |meals| && meals[i].mealType == t
  }

  /** Every listed type that has recommendations gets a meal. */
  lemma {:induction false} MealsForCovers(recs: seq<DietRecommendation>, types: seq<MealType>, t: MealType)
    requires t in types && Group(recs, t) != []
    ensures HasMeal(MealsFor(recs, types), t)
    decreases |types|
  {
    MealsForUnfold(recs, types);
    var head: seq<RecommendedMeal>, rest: seq<RecommendedMeal> := HeadMeal(recs, types[0]), MealsFor(recs, types[1..]);
    if types[0] == t {
      assert |ToItems(Group(recs, t))| > 0;
      assert head[0].mealType == t && (head + rest)[0] == head[0];
    } else {
      assert t in types[1..];
      MealsForCovers(recs, types[1..], t);
      HasMealAfter(head, rest, t);
    }
  }

  /** A meal of type `t` is still there after other meals are put in front. */
  lemma HasMealAfter(head: seq<RecommendedMeal>, rest: seq<RecommendedMeal>, t: MealType)
    requires HasMeal(rest, t)
    ensures HasMeal(head + rest, t)
  {
    var i :| 0 <= i < |rest| && rest[i].mealType == t;
    assert (head + rest)[|head| + i] == rest[i];
  }

  /** Meals in strictly increasing meal-type order. */
  predicate Ordered(meals: seq<RecommendedMeal>)
  {
    forall i, j :: 0 <= i < j < |meals| ==> MealIndex(meals[i].mealType) < MealIndex(meals[j].mealType)
  }

  lemma OrderedConcat(head: seq<RecommendedMeal>, rest: seq<RecommendedMeal>, t: MealType)
    requires |head| <= 1 && (head != [] ==> head[0].mealType == t)
    requires forall k :: 0 <= k < |rest| ==> MealIndex(t) < MealIndex(rest[k].mealType)
    requires Ordered(rest)
    ensures Ordered(head + rest)
  {
    forall i, j | 0 <= i < j < |head + rest|
      ensures MealIndex((head + rest)[i].mealType) < MealIndex((head + rest)[j].mealType)
    {
      assert (head + rest)[j] == rest[j - |head|];
      if i >= |head| {
        assert (head + rest)[i] == rest[i - |head|];
      }
    }
  }

  /** Meal types of the groups strictly follow `types` when `types` lists each type at most once. */
  lemma {:induction false} MealsForOrdered(recs: seq<DietRecommendation>, types: seq<MealType>)
    requires forall i, j :: 0 <= i < j < |types| ==> MealIndex(types[i]) < MealIndex(types[j])
    ensures Ordered(MealsFor(recs, types))
    decreases |types|
  {
    if types != [] {
      MealsForOrdered(recs, types[1..]);
      MealsForShape(recs, types[1..]);
      MealsForUnfold(recs, types);
      var rest := MealsFor(recs, types[1..]);
      forall k | 0 <= k < |rest|
        ensures MealIndex(types[0]) < MealIndex(rest[k].mealType)
      {
        var n :| 0 <= n < |types[1..]| && types[1..][n] == rest[k].mealType;
        assert types[n + 1] == rest[k].mealType;
      }
      OrderedConcat(HeadMeal(recs, types[0]), rest, types[0]);
    }
  }

  /** Every recommendation whose type is listed gets a meal. */
  lemma MealsForCoverAll(recs: seq<DietRecommendation>, types: seq<MealType>)
    ensures forall k :: 0 <= k < |recs| && recs[k].mealType in types ==>
      HasMeal(MealsFor(recs, types), recs[k].mealType)
  {
    forall k | 0 <= k < |recs| && recs[k].mealType in types
      ensures HasMeal(MealsFor(recs, types), recs[k].mealType)
    {
      assert recs[k] in Group(recs, recs[k].mealType);
      MealsForCovers(recs, types, recs[k].mealType);
    }
  }

  /**
   * The response's meals group the plan's recommendations: one meal per meal
   * type that has recommendations, none empty, in meal-type order, each holding
   * exactly the items of its type; together they hold every recommendation once.
   */
  lemma MealGrouping(plan: DietPlan, dailyGoal: DailyGoal)
    ensures forall i :: 0 <= i < |ToDto(plan, dailyGoal).value.meals| ==>
      GroupMeal(plan.recommendations, ToDto(plan, dailyGoal).value.meals[i])
    ensures forall k :: 0 <= k < |plan.recommendations| ==>
      HasMeal(ToDto(plan, dailyGoal).value.meals, plan.recommendations[k].mealType)
    ensures Ordered(ToDto(plan, dailyGoal).value.meals)
    ensures ItemCount(ToDto(plan, dailyGoal).value.meals) == |plan.recommendations|
  {
    var recs := plan.recommendations;
    MealsForShape(recs, MealTypes);
    MealsForOrdered(recs, MealTypes);
    MealsForCount(recs, MealTypes);
    GroupsPartition(recs);
    forall k | 0 <= k < |recs|
      ensures recs[k].mealType in MealTypes
    {
      assert MealTypes[MealIndex(recs[k].mealType)] == recs[k].mealType;
    }
    MealsForCoverAll(recs, MealTypes);
  }

  /**
   * Items built without their food carry no nutrition, so every meal total and
   * the plan total of the plain response are zero.
   */
  lemma PlainTotalsAreZero(plan: DietPlan, dailyGoal: DailyGoal)
    ensures forall i :: 0 <= i < |ToDto(plan, dailyGoal).value.meals| ==>
      ToDto(plan, dailyGoal).value.meals[i].totals == NoNutrients
    ensures ToDto(plan, dailyGoal).value.planTotals == NoNutrients
  {
    var recs := plan.recommendations;
    var meals := MealsFor(recs, MealTypes);
    MealsForShape(recs, MealTypes);
    forall i | 0 <= i < |meals|
      ensures meals[i].totals == NoNutrients
    {
      assert GroupMeal(recs, meals[i]);
      var g := Group(recs, meals[i].mealType);
      assert forall j :: 0 <= j < |meals[i].items| ==> meals[i].items[j] == ToItem(g[j]);
      ItemsWithoutNutrition(meals[i].items);
    }
    MealsTotalsZero(meals);
  }

  lemma {:induction false} MealsTotalsZero(meals: seq<RecommendedMeal>)
    requires forall i :: 0 <= i < |meals| ==> meals[i].totals == NoNutrients
    ensures MealsTotals(meals) == NoNutrients
    decreases |meals|
  {
    if meals != [] {
      MealsTotalsZero(meals[..|meals| - 1]);
    }
  }
}
