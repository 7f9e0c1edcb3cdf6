/**
 * The plan orchestrator of the diet engine. It splits the day's targets across
 * the four meals by fixed factors, runs the per-meal allocator meal by meal in
 * declaration order, and threads two pieces of state through the meals: the set
 * of food ids used so far and the running macro totals of the day, which feed
 * the allocator's 105% protein cap.
 *
 * Repository reads are inputs: the frequent foods of each meal type, the
 * fallback page of foods, and the foods by id.
 */
module DietGeneration {
  import opened Wrappers
  import opened Decimal
  import opened Nutrition
  import opened FoodClassification
  import opened DietPlans
  import opened RecommendationAlgorithm
  import opened MealProperties

  /** The day's targets: the profile's four goals, an absent goal counting as 0. */
  datatype DayTargets = DayTargets(calories: real, protein: real, carbs: real, fats: real)

  function CalculateDailyTargets(profile: UserProfile): (d: DayTargets)
    ensures d.calories == Safe(profile.dailyCalorieGoal) && d.protein == Safe(profile.dailyProteinGoal)
    ensures d.carbs == Safe(profile.dailyCarbsGoal) && d.fats == Safe(profile.dailyFatsGoal)
    ensures profile.dailyProteinGoal.None? ==> d.protein == 0.0
  {
    DayTargets(Safe(profile.dailyCalorieGoal), Safe(profile.dailyProteinGoal),
               Safe(profile.dailyCarbsGoal), Safe(profile.dailyFatsGoal))
  }

  /** The share of the day given to a meal. Every meal type has an entry, so the 0.25 default never applies. */
  function MealFactor(t: MealType): real
  {
    match t
    case Breakfast => 0.2
    case Lunch => 0.4
    case Dinner => 0.3
    case Snack => 0.1
  }

  /** A meal's targets: the day's targets times the meal's factor, with the whole day's protein for the cap. */
  function MealTarget(daily: DayTargets, t: MealType): MacroTargets
  {
    var f := MealFactor(t);
    MacroTargets(daily.calories * f, daily.protein * f, daily.carbs * f, daily.fats * f, daily.protein)
  }

  /** The four meal targets add up to the day's targets, and each carries the day's protein target. */
  lemma MealTargetsSplitDay(daily: DayTargets)
    ensures MealTarget(daily, Breakfast).calories + MealTarget(daily, Lunch).calories
      + MealTarget(daily, Dinner).calories + MealTarget(daily, Snack).calories == daily.calories
    ensures MealTarget(daily, Breakfast).protein + MealTarget(daily, Lunch).protein
      + MealTarget(daily, Dinner).protein + MealTarget(daily, Snack).protein == daily.protein
    ensures MealTarget(daily, Breakfast).carbs + MealTarget(daily, Lunch).carbs
      + MealTarget(daily, Dinner).carbs + MealTarget(daily, Snack).carbs == daily.carbs
    ensures MealTarget(daily, Breakfast).fats + MealTarget(daily, Lunch).fats
      + MealTarget(daily, Dinner).fats + MealTarget(daily, Snack).fats == daily.fats
    ensures forall t :: MealTarget(daily, t).dailyProteinTarget == daily.protein
  {
  }

  /** The frequent foods of a meal type, none when the analysis found none. */
  function FrequentFoods(frequent: map<MealType, seq<Food>>, t: MealType): seq<Food>
  {
    if t in frequent then frequent[t] else []
  }

  /** A meal's candidates: its frequent foods, followed by the fallback foods when there are fewer than 12. */
  function Candidates(frequent: map<MealType, seq<Food>>, fallback: seq<Food>, t: MealType): (c: seq<Food>)
    ensures |FrequentFoods(frequent, t)| <= |c|
    ensures c[..|FrequentFoods(frequent, t)|] == FrequentFoods(frequent, t)
    ensures c[|FrequentFoods(frequent, t)|..] == if |FrequentFoods(frequent, t)| < 12 then fallback else []
  {
    var f := FrequentFoods(frequent, t);
    if |f| < 12 then f + fallback else f
  }

  /**
   * The running totals after one recommendation: each macro grows by the food's
   * nutrient times round4(quantity / serving size). A food that is not found,
   * or has no nutritional information, leaves the totals as they are.
   */
  function UpdateAccumulatedTotals(acc: MacroTotals, rec: DietRecommendation, foods: map<int, Food>)
    : (r: Result<MacroTotals>)
    ensures r.Err? <==>
      FindFood(foods, rec.foodId).Some? && FindFood(foods, rec.foodId).value.nutritionalInfo.Some?
      && ServingSizeOr100(FindFood(foods, rec.foodId).value) == 0.0
    ensures r.Err? ==> r.error == DivisionByZero
    ensures FindFood(foods, rec.foodId).None? || FindFood(foods, rec.foodId).value.nutritionalInfo.None? ==>
      r == Ok(acc)
  {
    var food := FindFood(foods, rec.foodId);
    if food.None? || food.value.nutritionalInfo.None? then Ok(acc)
    else
      var servingSize := ServingSizeOr100(food.value);
      if servingSize == 0.0 then Err(DivisionByZero)
      else
        var ratio := Divide(rec.suggestedQuantity, servingSize, 4);
        var n := food.value.nutritionalInfo.value;
        Ok(MacroTotals(acc.protein + Share(n.protein, ratio), acc.carbs + Share(n.carbohydrates, ratio),
                       acc.fats + Share(n.fats, ratio), acc.calories + Share(n.calories, ratio)))
  }

  /**
   * The running totals grow by exactly what the allocator reckons the food
   * contributes: the orchestrator and the allocator agree on every macro.
   */
  lemma AccumulationIsContribution(acc: MacroTotals, rec: DietRecommendation, foods: map<int, Food>)
    requires rec.suggestedQuantity > 0.0
    requires UpdateAccumulatedTotals(acc, rec, foods).Ok?
    ensures GetMacroContribution(FindFood(foods, rec.foodId), rec.suggestedQuantity, Protein).Ok?
    ensures UpdateAccumulatedTotals(acc, rec, foods).value.protein
      == acc.protein + GetMacroContribution(FindFood(foods, rec.foodId), rec.suggestedQuantity, Protein).value
    ensures UpdateAccumulatedTotals(acc, rec, foods).value.carbs
      == acc.carbs + GetMacroContribution(FindFood(foods, rec.foodId), rec.suggestedQuantity, Carbs).value
    ensures UpdateAccumulatedTotals(acc, rec, foods).value.fats
      == acc.fats + GetMacroContribution(FindFood(foods, rec.foodId), rec.suggestedQuantity, Fats).value
  {
    var food := FindFood(foods, rec.foodId);
    if food.Some? && food.value.nutritionalInfo.Some? {
      var ratio := Divide(rec.suggestedQuantity, ServingSizeOr100(food.value), 4);
      ContributionAt(food.value, rec.suggestedQuantity, Protein, ratio);
      ContributionAt(food.value, rec.suggestedQuantity, Carbs, ratio);
      ContributionAt(food.value, rec.suggestedQuantity, Fats, ratio);
      TotalsAreShares(acc, rec, foods, ratio);
    }
  }

  lemma TotalsAreShares(acc: MacroTotals, rec: DietRecommendation, foods: map<int, Food>, ratio: real)
    requires UpdateAccumulatedTotals(acc, rec, foods).Ok?
    requires FindFood(foods, rec.foodId).Some? && FindFood(foods, rec.foodId).value.nutritionalInfo.Some?
    requires ratio == Divide(rec.suggestedQuantity, ServingSizeOr100(FindFood(foods, rec.foodId).value), 4)
    ensures var n := FindFood(foods, rec.foodId).value.nutritionalInfo.value;
      UpdateAccumulatedTotals(acc, rec, foods)
      == Ok(MacroTotals(acc.protein + Share(n.protein, ratio), acc.carbs + Share(n.carbohydrates, ratio),
                        acc.fats + Share(n.fats, ratio), acc.calories + Share(n.calories, ratio)))
  {
  }

  /** The state threaded through the meals: the food ids used so far and the day's running totals. */
  datatype GenState = GenState(used: set<Option<int>>, acc: MacroTotals)

  /** The food ids of some recommendations. */
  function FoodIds(recs: seq<DietRecommendation>): set<Option<int>>
  {
    set i | 0 <= i < |recs| :: recs[i].foodId
  }

  /** The state after one recommendation is added to the plan. */
  function AbsorbOne(st: GenState, rec: DietRecommendation, foods: map<int, Food>): Result<GenState>
  {
    var acc :- UpdateAccumulatedTotals(st.acc, rec, foods);
    Ok(GenState(st.used + {rec.foodId}, acc))
  }

  /** The state after a meal's recommendations are added one by one; every food id joins the used set. */
  function Absorb(recs: seq<DietRecommendation>, st: GenState, foods: map<int, Food>): (r: Result<GenState>)
    ensures r.Ok? ==> r.value.used == st.used + FoodIds(recs)
    decreases |recs|
  {
    if recs == [] then Ok(st)
    else
      var next :- AbsorbOne(st, recs[0], foods);
      var r := Absorb(recs[1..], next, foods);
      assert r.Ok? ==> FoodIds(recs) == {recs[0].foodId} + FoodIds(recs[1..]) by {
        FoodIdsCons(recs);
      }
      r
  }

  lemma FoodIdsCons(recs: seq<DietRecommendation>)
    requires recs != []
    ensures FoodIds(recs) == {recs[0].foodId} + FoodIds(recs[1..])
  {
    forall id | id in FoodIds(recs)
      ensures id in {recs[0].foodId} + FoodIds(recs[1..])
    {
      var i :| 0 <= i < |recs| && recs[i].foodId == id;
      if i > 0 {
        assert recs[1..][i - 1] == recs[i];
      }
    }
    forall id | id in FoodIds(recs[1..])
      ensures id in FoodIds(recs)
    {
      var i :| 0 <= i < |recs[1..]| && recs[1..][i].foodId == id;
      assert recs[i + 1] == recs[1..][i];
    }
  }

  /** The outcome of the shuffles of each meal of the day. */
  datatype DayPicks = DayPicks(breakfast: Picks, lunch: Picks, dinner: Picks, snack: Picks)

  function PicksFor(d: DayPicks, t: MealType): Picks
  {
    match t
    case Breakfast => d.breakfast
    case Lunch => d.lunch
    case Dinner => d.dinner
    case Snack => d.snack
  }

  /** What the repositories and the shuffles supply to a generation. */
  datatype GenInputs = GenInputs(frequent: map<MealType, seq<Food>>, fallback: seq<Food>,
                                 foods: map<int, Food>, picks: DayPicks)

  /** The recommendations of the day in plan order, and the state after the last meal. */
  datatype DayOutcome = DayOutcome(recs: seq<DietRecommendation>, final: GenState)

  /** The request the allocator receives for meal `k` in state `st`. */
  function RequestFor(userId: int, date: int, daily: DayTargets, inputs: GenInputs, k: nat, st: GenState)
    : MealRequest
    requires k < |MealTypes|
  {
    var t := MealTypes[k];
    MealRequest(userId, date, t, MealTarget(daily, t), Candidates(inputs.frequent, inputs.fallback, t),
                st.used, Some(st.acc), PicksFor(inputs.picks, t))
  }

  /** The meals from the `k`-th meal type on, starting in state `st`; the first failure aborts the day. */
  function MealsFrom(userId: int, date: int, daily: DayTargets, inputs: GenInputs, k: nat, st: GenState)
    : Result<DayOutcome>
    requires k <= |MealTypes|
    decreases |MealTypes| - k
  {
    if k == |MealTypes| then Ok(DayOutcome([], st))
    else
      var meal :- MealStep(userId, date, daily, inputs, k, st);
      var rest :- MealsFrom(userId, date, daily, inputs, k + 1, meal.final);
      Ok(DayOutcome(meal.recs + rest.recs, rest.final))
  }

  /** The `k`-th meal in state `st`: the allocator's recommendations and the state after adding them. */
  function MealStep(userId: int, date: int, daily: DayTargets, inputs: GenInputs, k: nat, st: GenState)
    : Result<DayOutcome>
    requires k < |MealTypes|
  {
    var recs :- RequestFor(userId, date, daily, inputs, k, st).Meal();
    var next :- Absorb(recs, st, inputs.foods);
    Ok(DayOutcome(recs, next))
  }

  /** The whole day for a plan's user and date, from no used foods and zero totals. */
  function Day(userId: int, date: int, profile: UserProfile, inputs: GenInputs): Result<DayOutcome>
  {
    MealsFrom(userId, date, CalculateDailyTargets(profile), inputs, 0, GenState({}, ZeroTotals))
  }

  /** `done` followed by the outcome of the remaining meals. */
  function Prepend(done: seq<DietRecommendation>, r: Result<DayOutcome>): Result<DayOutcome>
  {
    if r.Err? then r else Ok(DayOutcome(done + r.value.recs, r.value.final))
  }

  /** The day from meal `k` on is meal `k` followed by the rest, or meal `k`'s failure. */
  lemma MealsFromUnfold(userId: int, date: int, daily: DayTargets, inputs: GenInputs, k: nat, st: GenState)
    requires k < |MealTypes|
    ensures MealStep(userId, date, daily, inputs, k, st).Err? ==>
      MealsFrom(userId, date, daily, inputs, k, st) == Err(MealStep(userId, date, daily, inputs, k, st).error)
    ensures MealStep(userId, date, daily, inputs, k, st).Ok? ==>
      MealsFrom(userId, date, daily, inputs, k, st)
      == Prepend(MealStep(userId, date, daily, inputs, k, st).value.recs,
                 MealsFrom(userId, date, daily, inputs, k + 1, MealStep(userId, date, daily, inputs, k, st).value.final))
  {
  }

  /** A successful meal step is prepended to the outcome of the remaining meals. */
  lemma MealsFromStep(userId: int, date: int, daily: DayTargets, inputs: GenInputs, k: nat, st: GenState,
                      done: seq<DietRecommendation>)
    requires k < |MealTypes|
    ensures MealStep(userId, date, daily, inputs, k, st).Ok? ==>
      var meal := MealStep(userId, date, daily, inputs, k, st).value;
      Prepend(done, MealsFrom(userId, date, daily, inputs, k, st))
      == Prepend(done + meal.recs, MealsFrom(userId, date, daily, inputs, k + 1, meal.final))
  {
    MealsFromUnfold(userId, date, daily, inputs, k, st);
    var meal := MealStep(userId, date, daily, inputs, k, st);
    if meal.Ok? {
      PrependTwice(done, meal.value.recs, MealsFrom(userId, date, daily, inputs, k + 1, meal.value.final));
    }
  }

  /** Prepending `recs` and then `done` prepends `done + recs`. */
  lemma PrependTwice(done: seq<DietRecommendation>, recs: seq<DietRecommendation>, r: Result<DayOutcome>)
    ensures Prepend(done, Prepend(recs, r)) == Prepend(done + recs, r)
  {
    if r.Ok? {
      assert done + (recs + r.value.recs) == (done + recs) + r.value.recs;
    }
  }

  /** Absorbing from position `j` on: one more recommendation, or the failure that stops the meal. */
  lemma AbsorbStep(recs: seq<DietRecommendation>, j: nat, st: GenState, foods: map<int, Food>)
    requires j < |recs|
    ensures AbsorbOne(st, recs[j], foods).Err? ==>
      Absorb(recs[j..], st, foods) == Err(AbsorbOne(st, recs[j], foods).error)
    ensures AbsorbOne(st, recs[j], foods).Ok? ==>
      Absorb(recs[j..], st, foods) == Absorb(recs[j + 1..], AbsorbOne(st, recs[j], foods).value, foods)
  {
    assert recs[j..][0] == recs[j];
    assert recs[j..][1..] == recs[j + 1..];
  }

  /**
   * Generates the day's recommendations into `plan`: for each meal type in
   * order, the allocator proposes a meal, and each of its recommendations is
   * appended to the plan, its food id marked as used and its nutrients added
   * to the running totals.
   */
  method GenerateRecommendationsForPlan(plan: DietPlan, profile: UserProfile, inputs: GenInputs)
    returns (r: Result<DayOutcome>)
    modifies plan
    ensures r == Day(plan.userId, plan.date, profile, inputs)
    ensures plan.id == old(plan.id)
    ensures plan.status == old(plan.status)
    ensures r.Ok? ==> plan.recommendations == old(plan.recommendations) + Attached(r.value.recs, plan)
    ensures old(plan.Owns()) ==> plan.Owns()
  {
    var daily := CalculateDailyTargets(profile);
    var used: set<Option<int>> := {};
    var acc := ZeroTotals;
    var done: seq<DietRecommendation> := [];
    ghost var base := plan.recommendations;
    ghost var spec := Day(plan.userId, plan.date, profile, inputs);
    assert spec == Prepend(done, MealsFrom(plan.userId, plan.date, daily, inputs, 0, GenState(used, acc))) by {
      var whole := MealsFrom(plan.userId, plan.date, daily, inputs, 0, GenState(used, acc));
      if whole.Ok? {
        assert done + whole.value.recs == whole.value.recs;
      }
    }
    for k := 0 to |MealTypes|
      invariant plan.id == old(plan.id)
      invariant plan.status == old(plan.status)
      invariant plan.recommendations == base + Attached(done, plan)
      invariant spec == Prepend(done, MealsFrom(plan.userId, plan.date, daily, inputs, k, GenState(used, acc)))
      invariant old(plan.Owns()) ==> plan.Owns()
    {
      MealsFromUnfold(plan.userId, plan.date, daily, inputs, k, GenState(used, acc));
      MealsFromStep(plan.userId, plan.date, daily, inputs, k, GenState(used, acc), done);
      ghost var mid := plan.recommendations;
      var meal := GenerateMeal(plan, daily, inputs, k, used, acc);
      if meal.Err? {
        return Err(meal.error);
      }
      AttachedExtend(plan.recommendations, mid, base, done, meal.value.recs, plan);
      used, acc := meal.value.final.used, meal.value.final.acc;
      done := done + meal.value.recs;
    }
    assert MealsFrom(plan.userId, plan.date, daily, inputs, |MealTypes|, GenState(used, acc))
      == Ok(DayOutcome([], GenState(used, acc)));
    assert done + [] == done;
    r := Ok(DayOutcome(done, GenState(used, acc)));
  }

  /** One iteration of the meal loop: the allocator's meal for the `k`-th meal type, added to the plan. */
  method GenerateMeal(plan: DietPlan, daily: DayTargets, inputs: GenInputs, k: nat, used: set<Option<int>>,
                      acc: MacroTotals)
    returns (r: Result<DayOutcome>)
    requires k < |MealTypes|
    modifies plan
    ensures r == MealStep(plan.userId, plan.date, daily, inputs, k, GenState(used, acc))
    ensures plan.id == old(plan.id)
    ensures plan.status == old(plan.status)
    ensures r.Ok? ==> plan.recommendations == old(plan.recommendations) + Attached(r.value.recs, plan)
    ensures old(plan.Owns()) ==> plan.Owns()
  {
    var t := MealTypes[k];
    var meal := BuildBalancedMeal(plan, t, MealTarget(daily, t), Candidates(inputs.frequent, inputs.fallback, t),
                                  used, Some(acc), PicksFor(inputs.picks, t));
    assert meal == RequestFor(plan.userId, plan.date, daily, inputs, k, GenState(used, acc)).Meal();
    if meal.Err? {
      return Err(meal.error);
    }
    var next := AddMeal(plan, meal.value, used, acc, inputs.foods);
    if next.Err? {
      return Err(next.error);
    }
    r := Ok(DayOutcome(meal.value, next.value));
  }

  /**
   * Adds a meal's recommendations to the plan one by one, marking each food id
   * as used and adding each food's nutrients to the running totals.
   */
  method AddMeal(plan: DietPlan, recs: seq<DietRecommendation>, used0: set<Option<int>>, acc0: MacroTotals,
                 foods: map<int, Food>)
    returns (r: Result<GenState>)
    modifies plan
    ensures r == Absorb(recs, GenState(used0, acc0), foods)
    ensures plan.id == old(plan.id)
    ensures plan.status == old(plan.status)
    ensures r.Ok? ==> plan.recommendations == old(plan.recommendations) + Attached(recs, plan)
    ensures old(plan.Owns()) ==> plan.Owns()
  {
    var used, acc := used0, acc0;
    for j := 0 to |recs|
      invariant plan.id == old(plan.id)
      invariant plan.status == old(plan.status)
      invariant plan.recommendations == old(plan.recommendations) + Attached(recs[..j], plan)
      invariant Absorb(recs, GenState(used0, acc0), foods) == Absorb(recs[j..], GenState(used, acc), foods)
      invariant old(plan.Owns()) ==> plan.Owns()
    {
      ghost var st := GenState(used, acc);
      AbsorbStep(recs, j, st, foods);
      ghost var mid := plan.recommendations;
      plan.AddRecommendation(recs[j]);
      AttachedStep(plan.recommendations, mid, old(plan.recommendations), recs, j, plan);
      var next := UpdateAccumulatedTotals(acc, recs[j], foods);
      if next.Err? {
        assert AbsorbOne(st, recs[j], foods) == Err(next.error);
        return Err(next.error);
      }
      assert AbsorbOne(st, recs[j], foods) == Ok(GenState(used + {recs[j].foodId}, next.value));
      used, acc := used + {recs[j].foodId}, next.value;
    }
    assert recs[..|recs|] == recs;
    assert recs[|recs|..] == [];
    r := Ok(GenState(used, acc));
  }
}
