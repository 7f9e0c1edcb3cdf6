/**
 * Showing a stored plan: the presenter's response for the plan, with every
 * item whose food is known and whose recommendation is found by id enriched
 * with the food's name, unit and nutrition, and the meal and plan totals
 * recomputed from the enriched items.
 */
module PlanHydration {
  import opened Wrappers
  import opened Nutrition
  import opened DietPlans
  import opened RecommendationMapper

  /** The recommendation is stored under `id`. */
  predicate SavedAs(rec: DietRecommendation, id: Option<int>)
  {
    rec.id.Some? && rec.id == id
  }

  /** The position of the first recommendation from `from` on stored under `id`, if any. */
  function MatchFrom(recs: seq<DietRecommendation>, id: Option<int>, from: nat): (k: Option<nat>)
    requires from <= |recs|
    ensures k.Some? ==> from <= k.value < |recs| && SavedAs(recs[k.value], id)
    ensures k.Some? ==> forall j :: from <= j < k.value ==> !SavedAs(recs[j], id)
    ensures k.None? ==> forall j :: from <= j < |recs| ==> !SavedAs(recs[j], id)
    decreases |recs| - from
  {
    if from == |recs| then None
    else if SavedAs(recs[from], id) then Some(from)
    else MatchFrom(recs, id, from + 1)
  }

  /** The position of the first recommendation stored under `id`: the stream's `findFirst`. */
  function MatchIndex(recs: seq<DietRecommendation>, id: Option<int>): Option<nat>
  {
    MatchFrom(recs, id, 0)
  }

  /**
   * The enrichment of one item: when its food is known and a recommendation of
   * the plan is stored under the item's id, the item takes the name, unit and
   * nutrition of that recommendation's item with the food. A failure of that
   * item fails the whole response.
   */
  function Enrich(item: RecommendationItem, recs: seq<DietRecommendation>, foods: map<int, Food>)
    : (r: Result<RecommendationItem>)
    ensures FindFood(foods, item.foodId).None? || MatchIndex(recs, item.id).None? ==> r == Ok(item)
    ensures FindFood(foods, item.foodId).Some? && MatchIndex(recs, item.id).Some? ==>
      && (r.Err? <==> ToItemWithFood(recs[MatchIndex(recs, item.id).value], FindFood(foods, item.foodId).value).Err?)
      && (r.Err? ==>
            r.error == ToItemWithFood(recs[MatchIndex(recs, item.id).value], FindFood(foods, item.foodId).value).error)
      && (r.Ok? ==>
            && r.value.foodName == Some(FindFood(foods, item.foodId).value.name)
            && r.value.unit == FindFood(foods, item.foodId).value.servingUnit.GetOr("g")
            && r.value.nutritionalInfo
               == ToItemWithFood(recs[MatchIndex(recs, item.id).value],
                                 FindFood(foods, item.foodId).value).value.nutritionalInfo)
    ensures r.Ok? ==>
      r.value.id == item.id && r.value.foodId == item.foodId && r.value.suggestedQuantity == item.suggestedQuantity
      && r.value.reason == item.reason && r.value.status == item.status
  {
    var food := FindFood(foods, item.foodId);
    var k := MatchIndex(recs, item.id);
    if food.None? || k.None? then Ok(item)
    else
      var enriched := ToItemWithFood(recs[k.value], food.value);
      if enriched.Err? then Err(enriched.error)
      else
        Ok(item.(foodName := enriched.value.foodName, nutritionalInfo := enriched.value.nutritionalInfo,
                 unit := enriched.value.unit))
  }

  /** The items enriched one by one; the first failing item fails them all. */
  function EnrichItems(items: seq<RecommendationItem>, recs: seq<DietRecommendation>, foods: map<int, Food>)
    : (r: Result<seq<RecommendationItem>>)
    decreases |items|
  {
    if items == [] then Ok([])
    else
      var init := EnrichItems(items[..|items| - 1], recs, foods);
      if init.Err? then init
      else
        var last := Enrich(items[|items| - 1], recs, foods);
        if last.Err? then Err(last.error) else Ok(init.value + [last.value])
  }

  /** A meal with its items enriched and its totals recomputed from them. */
  function EnrichMeal(meal: RecommendedMeal, recs: seq<DietRecommendation>, foods: map<int, Food>)
    : Result<RecommendedMeal>
  {
    var items := EnrichItems(meal.items, recs, foods);
    if items.Err? then Err(items.error)
    else Ok(meal.(items := items.value, totals := ItemsTotals(items.value)))
  }

  /** The meals enriched one by one; the first failing meal fails them all. */
  function EnrichMeals(meals: seq<RecommendedMeal>, recs: seq<DietRecommendation>, foods: map<int, Food>)
    : (r: Result<seq<RecommendedMeal>>)
    decreases |meals|
  {
    if meals == [] then Ok([])
    else
      var init := EnrichMeals(meals[..|meals| - 1], recs, foods);
      if init.Err? then init
      else
        var last := EnrichMeal(meals[|meals| - 1], recs, foods);
        if last.Err? then Err(last.error) else Ok(init.value + [last.value])
  }

  /** A response with its meals enriched and its plan totals recomputed from them. */
  function Hydrate(response: DietPlanResponse, recs: seq<DietRecommendation>, foods: map<int, Food>)
    : Result<DietPlanResponse>
  {
    var meals := EnrichMeals(response.meals, recs, foods);
    if meals.Err? then Err(meals.error)
    else Ok(response.(meals := meals.value, planTotals := MealsTotals(meals.value)))
  }

  /* ---------------------------------------------------------------------- */
  /* The loops of hydrateAndMap                                              */
  /* ---------------------------------------------------------------------- */

  /**
   * `hydrateAndMap`: maps the plan, enriches every item of every meal from its
   * food and recommendation, then recomputes each meal's totals and the plan's.
   */
  method HydrateAndMap(plan: DietPlan, dailyGoal: DailyGoal, foods: map<int, Food>) returns (r: Result<DietPlanResponse>)
    ensures r == Hydrate(ToDto(plan, dailyGoal).value, plan.recommendations, foods)
  {
    var dto := ToDto(plan, dailyGoal).value;
    var meals := EnrichAllMeals(dto.meals, plan.recommendations, foods);
    if meals.Err? {
      return Err(meals.error);
    }
    var totals := CalculatePlanTotals(meals.value);
    r := Ok(dto.(meals := meals.value, planTotals := totals));
  }

  /** Enriches the meals one by one, stopping at the first failing meal. */
  method EnrichAllMeals(meals: seq<RecommendedMeal>, recs: seq<DietRecommendation>, foods: map<int, Food>)
    returns (r: Result<seq<RecommendedMeal>>)
    ensures r == EnrichMeals(meals, recs, foods)
  {
    var done: seq<RecommendedMeal> := [];
    for i := 0 to |meals|
      invariant EnrichMeals(meals[..i], recs, foods) == Ok(done)
    {
      assert meals[..i + 1][..i] == meals[..i];
      var meal := EnrichMealItems(meals[i], recs, foods);
      if meal.Err? {
        assert EnrichMeals(meals[..i + 1], recs, foods) == Err(meal.error);
        EnrichMealsPrefixFails(meals, recs, foods, i + 1);
        return Err(meal.error);
      }
      done := done + [meal.value];
    }
    assert meals[..|meals|] == meals;
    r := Ok(done);
  }

  /** Enriches a meal's items one by one and recomputes the meal's totals. */
  method EnrichMealItems(meal: RecommendedMeal, recs: seq<DietRecommendation>, foods: map<int, Food>)
    returns (r: Result<RecommendedMeal>)
    ensures r == EnrichMeal(meal, recs, foods)
  {
    var items: seq<RecommendationItem> := [];
    for j := 0 to |meal.items|
      invariant EnrichItems(meal.items[..j], recs, foods) == Ok(items)
    {
      assert meal.items[..j + 1][..j] == meal.items[..j];
      var item := Enrich(meal.items[j], recs, foods);
      if item.Err? {
        assert EnrichItems(meal.items[..j + 1], recs, foods) == Err(item.error);
        EnrichItemsPrefixFails(meal.items, recs, foods, j + 1);
        return Err(item.error);
      }
      items := items + [item.value];
    }
    assert meal.items[..|meal.items|] == meal.items;
    var totals := CalculateMealTotals(items);
    r := Ok(meal.(items := items, totals := totals));
  }

  /** `calculatePlanTotals`: adds up the meals' totals one by one. */
  method CalculatePlanTotals(meals: seq<RecommendedMeal>) returns (t: NutritionalTotals)
    ensures t == MealsTotals(meals)
  {
    var calories, protein, carbs, fats := 0.0, 0.0, 0.0, 0.0;
    for i := 0 to |meals|
      invariant NutritionalTotals(calories, protein, carbs, fats) == MealsTotals(meals[..i])
    {
      assert meals[..i + 1][..i] == meals[..i];
      calories := calories + meals[i].totals.calories;
      protein := protein + meals[i].totals.protein;
      carbs := carbs + meals[i].totals.carbs;
      fats := fats + meals[i].totals.fats;
    }
    assert meals[..|meals|] == meals;
    t := NutritionalTotals(calories, protein, carbs, fats);
  }

  /** Once a prefix of the items fails, all of them fail with the same error. */
  lemma {:induction false} EnrichItemsPrefixFails(items: seq<RecommendationItem>, recs: seq<DietRecommendation>,
                                                  foods: map<int, Food>, n: nat)
    requires n <= |items| && EnrichItems(items[..n], recs, foods).Err?
    ensures EnrichItems(items, recs, foods) == EnrichItems(items[..n], recs, foods)
    decreases |items| - n
  {
    if n < |items| {
      assert items[..n + 1][..n] == items[..n];
      EnrichItemsPrefixFails(items, recs, foods, n + 1);
    } else {
      assert items[..n] == items;
    }
  }

  /** Once a prefix of the meals fails, all of them fail with the same error. */
  lemma {:induction false} EnrichMealsPrefixFails(meals: seq<RecommendedMeal>, recs: seq<DietRecommendation>,
                                                  foods: map<int, Food>, n: nat)
    requires n <= |meals| && EnrichMeals(meals[..n], recs, foods).Err?
    ensures EnrichMeals(meals, recs, foods) == EnrichMeals(meals[..n], recs, foods)
    decreases |meals| - n
  {
    if n < |meals| {
      assert meals[..n + 1][..n] == meals[..n];
      EnrichMealsPrefixFails(meals, recs, foods, n + 1);
    } else {
      assert meals[..n] == meals;
    }
  }

  /** The items enrich together exactly when each of them enriches. */
  lemma {:induction false} EnrichItemsOk(items: seq<RecommendationItem>, recs: seq<DietRecommendation>,
                                         foods: map<int, Food>)
    ensures EnrichItems(items, recs, foods).Ok? <==> forall j :: 0 <= j < |items| ==> Enrich(items[j], recs, foods).Ok?
    decreases |items|
  {
    if items != [] {
      var n := |items| - 1;
      EnrichItemsOk(items[..n], recs, foods);
      assert forall j :: 0 <= j < n ==> items[..n][j] == items[j];
    }
  }

  /** Enriched items keep their number and order: each is the enrichment of the item in its place. */
  lemma {:induction false} EnrichItemsEach(items: seq<RecommendationItem>, recs: seq<DietRecommendation>,
                                           foods: map<int, Food>)
    requires EnrichItems(items, recs, foods).Ok?
    ensures |EnrichItems(items, recs, foods).value| == |items|
    ensures forall j :: 0 <= j < |items| ==>
      Enrich(items[j], recs, foods).Ok? && EnrichItems(items, recs, foods).value[j] == Enrich(items[j], recs, foods).value
    decreases |items|
  {
    if items != [] {
      var n := |items| - 1;
      EnrichItemsEach(items[..n], recs, foods);
      assert forall j :: 0 <= j < n ==> items[..n][j] == items[j];
    }
  }

  /** The meals enrich together exactly when each of them enriches. */
  lemma {:induction false} EnrichMealsOk(meals: seq<RecommendedMeal>, recs: seq<DietRecommendation>,
                                         foods: map<int, Food>)
    ensures EnrichMeals(meals, recs, foods).Ok? <==> forall i :: 0 <= i < |meals| ==> EnrichMeal(meals[i], recs, foods).Ok?
    decreases |meals|
  {
    if meals != [] {
      var n := |meals| - 1;
      EnrichMealsOk(meals[..n], recs, foods);
      assert forall i :: 0 <= i < n ==> meals[..n][i] == meals[i];
    }
  }

  /** Enriched meals keep their number and order: each is the enrichment of the meal in its place. */
  lemma {:induction false} EnrichMealsEach(meals: seq<RecommendedMeal>, recs: seq<DietRecommendation>,
                                           foods: map<int, Food>)
    requires EnrichMeals(meals, recs, foods).Ok?
    ensures |EnrichMeals(meals, recs, foods).value| == |meals|
    ensures forall i :: 0 <= i < |meals| ==>
      EnrichMeal(meals[i], recs, foods).Ok? && EnrichMeals(meals, recs, foods).value[i] == EnrichMeal(meals[i], recs, foods).value
    decreases |meals|
  {
    if meals != [] {
      var n := |meals| - 1;
      EnrichMealsEach(meals[..n], recs, foods);
      assert forall i :: 0 <= i < n ==> meals[..n][i] == meals[i];
    }
  }

  /* ---------------------------------------------------------------------- */
  /* What a hydrated response shows                                          */
  /* ---------------------------------------------------------------------- */

  /** Every recommendation is stored, under an id no other recommendation has. */
  predicate StoredDistinct(recs: seq<DietRecommendation>)
  {
    forall i, j :: 0 <= i < |recs| && 0 <= j < |recs| ==> recs[i].id.Some? && (i != j ==> recs[i].id != recs[j].id)
  }

  /**
   * How a stored recommendation is meant to be shown: with its food when the
   * food is known, and without it otherwise.
   */
  function Shown(rec: DietRecommendation, foods: map<int, Food>): Result<RecommendationItem>
  {
    if FindFood(foods, rec.foodId).Some? then ToItemWithFood(rec, FindFood(foods, rec.foodId).value)
    else Ok(ToItem(rec))
  }

  /** In a plan whose recommendations have distinct ids, each item is enriched from its own recommendation. */
  lemma EnrichOwn(recs: seq<DietRecommendation>, k: nat, foods: map<int, Food>)
    requires k < |recs| && StoredDistinct(recs)
    ensures MatchIndex(recs, recs[k].id) == Some(k)
    ensures Enrich(ToItem(recs[k]), recs, foods) == Shown(recs[k], foods)
  {
    assert SavedAs(recs[k], recs[k].id);
  }

  /**
   * One meal of a plan whose recommendations have distinct ids hydrates when
   * every recommendation of the plan can be shown.
   */
  lemma MealHydrates(recs: seq<DietRecommendation>, meal: RecommendedMeal, foods: map<int, Food>)
    requires StoredDistinct(recs) && GroupMeal(recs, meal)
    requires forall k :: 0 <= k < |recs| ==> Shown(recs[k], foods).Ok?
    ensures EnrichMeal(meal, recs, foods).Ok?
  {
    var g := Group(recs, meal.mealType);
    forall j | 0 <= j < |meal.items| ensures Enrich(meal.items[j], recs, foods).Ok? {
      ItemOfGroup(recs, meal, j, foods);
      assert g[j] in recs;
    }
    EnrichItemsOk(meal.items, recs, foods);
  }

  /**
   * A hydrated meal of a plan whose recommendations have distinct ids shows
   * each recommendation of the meal's group as it is meant to be shown, in
   * order, and totals them.
   */
  lemma MealShown(recs: seq<DietRecommendation>, meal: RecommendedMeal, foods: map<int, Food>)
    requires StoredDistinct(recs) && GroupMeal(recs, meal) && EnrichMeal(meal, recs, foods).Ok?
    ensures EnrichMeal(meal, recs, foods).value.mealType == meal.mealType
    ensures EnrichMeal(meal, recs, foods).value.totals == ItemsTotals(EnrichMeal(meal, recs, foods).value.items)
    ensures |EnrichMeal(meal, recs, foods).value.items| == |Group(recs, meal.mealType)|
    ensures forall j :: 0 <= j < |Group(recs, meal.mealType)| ==>
      Shown(Group(recs, meal.mealType)[j], foods).Ok?
      && EnrichMeal(meal, recs, foods).value.items[j] == Shown(Group(recs, meal.mealType)[j], foods).value
  {
    var g := Group(recs, meal.mealType);
    EnrichItemsEach(meal.items, recs, foods);
    forall j | 0 <= j < |g|
      ensures j < |meal.items|
      ensures Enrich(meal.items[j], recs, foods) == Shown(g[j], foods)
    {
      ItemOfGroup(recs, meal, j, foods);
    }
  }

  /** The `j`-th item of a group's meal is enriched as the `j`-th recommendation of the group is shown. */
  lemma ItemOfGroup(recs: seq<DietRecommendation>, meal: RecommendedMeal, j: nat, foods: map<int, Food>)
    requires StoredDistinct(recs) && GroupMeal(recs, meal) && j < |Group(recs, meal.mealType)|
    ensures j < |meal.items|
    ensures Enrich(meal.items[j], recs, foods) == Shown(Group(recs, meal.mealType)[j], foods)
  {
    var g := Group(recs, meal.mealType);
    assert meal.items[j] == ToItem(g[j]);
    assert g[j] in recs;
    var k :| 0 <= k < |recs| && recs[k] == g[j];
    EnrichOwn(recs, k, foods);
  }

  /**
   * Every meal and the plan of a hydrated response total their items, so the
   * plan total is the sum over all shown items.
   */
  lemma HydratedTotals(response: DietPlanResponse, recs: seq<DietRecommendation>, foods: map<int, Food>)
    requires Hydrate(response, recs, foods).Ok?
    ensures TotalsOfItems(Hydrate(response, recs, foods).value.meals)
    ensures Hydrate(response, recs, foods).value.planTotals
      == ItemsTotals(AllItems(Hydrate(response, recs, foods).value.meals))
  {
    var meals := Hydrate(response, recs, foods).value.meals;
    EnrichMealsEach(response.meals, recs, foods);
    forall i | 0 <= i < |meals| ensures meals[i].totals == ItemsTotals(meals[i].items) {
      assert meals[i] == EnrichMeal(response.meals[i], recs, foods).value;
    }
    PlanTotalsAreItemTotals(meals);
  }

  /**
   * Hydrating meals grouped from a plan whose recommendations have distinct
   * ids keeps the meals in order, the `i`-th one showing its group's
   * recommendations as they are meant to be shown; it succeeds when every
   * recommendation can be shown.
   */
  lemma HydratedMeals(recs: seq<DietRecommendation>, meals: seq<RecommendedMeal>, foods: map<int, Food>, i: nat)
    requires StoredDistinct(recs) && GroupsOf(recs, meals)
    ensures (forall k :: 0 <= k < |recs| ==> Shown(recs[k], foods).Ok?) ==> EnrichMeals(meals, recs, foods).Ok?
    ensures EnrichMeals(meals, recs, foods).Ok? ==> |EnrichMeals(meals, recs, foods).value| == |meals|
    ensures EnrichMeals(meals, recs, foods).Ok? && i < |meals| ==>
      EnrichMeal(meals[i], recs, foods).Ok?
      && EnrichMeals(meals, recs, foods).value[i] == EnrichMeal(meals[i], recs, foods).value
      && GroupMeal(recs, meals[i])
  {
    EnrichMealsOk(meals, recs, foods);
    if EnrichMeals(meals, recs, foods).Ok? {
      EnrichMealsEach(meals, recs, foods);
    }
    if forall k :: 0 <= k < |recs| ==> Shown(recs[k], foods).Ok? {
      forall m | 0 <= m < |meals| ensures EnrichMeal(meals[m], recs, foods).Ok? {
        MealHydrates(recs, meals[m], foods);
      }
    }
  }

  /** Meals whose items are the items of their groups. */
  predicate GroupsOf(recs: seq<DietRecommendation>, meals: seq<RecommendedMeal>)
  {
    forall i :: 0 <= i < |meals| ==> GroupMeal(recs, meals[i])
  }

  /**
   * `hydrateAndMap` on a plan whose recommendations have distinct ids: the
   * meals are those of the plain response in the same order, the `i`-th one
   * showing its group's recommendations as they are meant to be shown (see
   * MealShown); it succeeds when every recommendation can be shown.
   */
  lemma HydratedPlan(plan: DietPlan, dailyGoal: DailyGoal, foods: map<int, Food>, i: nat)
    requires StoredDistinct(plan.recommendations)
    ensures (forall k :: 0 <= k < |plan.recommendations| ==> Shown(plan.recommendations[k], foods).Ok?) ==>
      Hydrate(ToDto(plan, dailyGoal).value, plan.recommendations, foods).Ok?
    ensures Hydrate(ToDto(plan, dailyGoal).value, plan.recommendations, foods).Ok? ==>
      |Hydrate(ToDto(plan, dailyGoal).value, plan.recommendations, foods).value.meals|
      == |ToDto(plan, dailyGoal).value.meals|
    ensures Hydrate(ToDto(plan, dailyGoal).value, plan.recommendations, foods).Ok?
            && i < |ToDto(plan, dailyGoal).value.meals| ==>
      EnrichMeal(ToDto(plan, dailyGoal).value.meals[i], plan.recommendations, foods).Ok?
      && Hydrate(ToDto(plan, dailyGoal).value, plan.recommendations, foods).value.meals[i]
      == EnrichMeal(ToDto(plan, dailyGoal).value.meals[i], plan.recommendations, foods).value
      && GroupMeal(plan.recommendations, ToDto(plan, dailyGoal).value.meals[i])
  {
    var dto := ToDto(plan, dailyGoal).value;
    MealGrouping(plan, dailyGoal);
    assert GroupsOf(plan.recommendations, dto.meals);
    HydratedMeals(plan.recommendations, dto.meals, foods, i);
    assert Hydrate(dto, plan.recommendations, foods).Ok? ==>
      Hydrate(dto, plan.recommendations, foods).value.meals == EnrichMeals(dto.meals, plan.recommendations, foods).value;
  }
}
