/**
 * The per-meal allocator of the diet engine. For one meal it picks up to three
 * foods (a protein, a carbohydrate and a fat source) among the candidates, and
 * solves each quantity as target / macro × serving size, rounded to whole
 * grams and clamped to [10, cap]. A daily protein cap of 105% suppresses the
 * protein source and boosts the carbohydrate portion instead.
 *
 * The random choice inside a category (a shuffle followed by taking the first
 * element) is modelled by an injected pick index, so every element of the
 * category can be chosen.
 */
module RecommendationAlgorithm {
  import opened Wrappers
  import opened Decimal
  import opened Nutrition
  import opened FoodClassification
  import opened DietPlans

  /** The macro targets of one meal, plus the whole day's protein target for the cap. */
  datatype MacroTargets = MacroTargets(calories: real, protein: real, carbs: real, fats: real,
                                       dailyProteinTarget: real)

  /** The running macro totals of the day so far. */
  datatype MacroTotals = MacroTotals(protein: real, carbs: real, fats: real, calories: real)

  const ZeroTotals: MacroTotals := MacroTotals(0.0, 0.0, 0.0, 0.0)

  datatype Macro = Protein | Carbs | Fats

  /** The outcome of the four shuffles of one meal, as indices into the shuffled categories. */
  datatype Picks = Picks(lean: nat, fatty: nat, carb: nat, fat: nat)

  const LeanReason: string := "Proteína magra para tus objetivos"
  const FattyReason: string := "Proteína base (con grasas naturales)"
  const CarbReason: string := "Carbohidratos complejos para energía sostenida"
  const FatReason: string := "Grasas saludables de apoyo"

  /** The position of a recommendation's role in a meal: protein, then carbohydrate, then fat. */
  function RoleRank(reason: string): nat
  {
    if reason == LeanReason || reason == FattyReason then 0
    else if reason == CarbReason then 1
    else if reason == FatReason then 2
    else 3
  }

  /** The candidates of one category whose id has not been used yet, in candidate order. */
  function Bucket(candidates: seq<Food>, used: set<Option<int>>, category: FoodCategory): (r: seq<Food>)
    ensures |r| <= |candidates|
    ensures forall f :: f in r <==> f in candidates && f.id !in used && Classify(f) == category
  {
    if candidates == [] then []
    else
      var rest := Bucket(candidates[1..], used, category);
      assert candidates == [candidates[0]] + candidates[1..];
      var f := candidates[0];
      if f.id !in used && Classify(f) == category then [f] + rest else rest
  }

  /** The first element after a shuffle: any element may come out, none when the list is empty. */
  function SelectBestSource(foods: seq<Food>, pick: nat): (r: Option<Food>)
    ensures r.None? <==> foods == []
    ensures r.Some? ==> r.value in foods
  {
    if foods == [] then None else Some(foods[pick % |foods|])
  }

  /** Every element of a non-empty list is a possible choice. */
  lemma SelectAnySource(foods: seq<Food>, i: nat)
    requires i < |foods|
    ensures SelectBestSource(foods, i) == Some(foods[i])
  {
  }

  /** The macro the quantity is solved for: protein, carbohydrates or fats by category, 1 when absent. */
  function GetMacroValue(n: NutritionalInfo, category: FoodCategory): real
  {
    match category
    case LeanProtein => n.protein.GetOr(1.0)
    case FattyProtein => n.protein.GetOr(1.0)
    case CarbComplex => n.carbohydrates.GetOr(1.0)
    case CarbSimple => n.carbohydrates.GetOr(1.0)
    case Fat => n.fats.GetOr(1.0)
    case Unknown => 1.0
  }

  /** round0(round4(target / macro) × servingSize), before clamping. */
  function SolvedQuantity(food: Food, target: real, category: FoodCategory): real
    requires food.nutritionalInfo.Some? && GetMacroValue(food.nutritionalInfo.value, category) > 0.0
  {
    Round(Divide(target, GetMacroValue(food.nutritionalInfo.value, category), 4) * ServingSizeOr100(food), 0)
  }

  /** The portion of `food` that meets `target`, clamped to [10, cap]; 100 when it cannot be solved. */
  function CalculateInitialQuantity(food: Option<Food>, target: Option<real>, category: FoodCategory): (q: real)
    ensures food.None? || target.None? ==> q == 0.0
    ensures food.Some? && target.Some? ==> q >= 10.0 && IsWhole(q)
    ensures food.Some? && target.Some? &&
      (food.value.nutritionalInfo.None? || GetMacroValue(food.value.nutritionalInfo.value, category) <= 0.0)
      ==> q == 100.0
    ensures (food.Some? && target.Some? && food.value.nutritionalInfo.Some?
             && GetMacroValue(food.value.nutritionalInfo.value, category) > 0.0) ==>
        var s := SolvedQuantity(food.value, target.value, category);
        q <= PortionCap(category)
        && (10.0 <= s <= PortionCap(category) ==> q == s)
        && (s > PortionCap(category) ==> q == PortionCap(category))
        && (s < 10.0 ==> q == 10.0)
  {
    if food.None? || target.None? then 0.0
    else if food.value.nutritionalInfo.None? then 100.0
    else if GetMacroValue(food.value.nutritionalInfo.value, category) <= 0.0 then 100.0
    else
      var s := SolvedQuantity(food.value, target.value, category);
      RoundZeroIsWhole(Divide(target.value, GetMacroValue(food.value.nutritionalInfo.value, category), 4)
                       * ServingSizeOr100(food.value));
      CapsAreWhole(category);
      Max(Min(s, PortionCap(category)), 10.0)
  }

  lemma CapsAreWhole(c: FoodCategory)
    ensures IsWhole(PortionCap(c))
  {
    EveryCategoryHasCap(c);
    match c
    case LeanProtein =>
    case FattyProtein =>
    case CarbComplex =>
    case CarbSimple =>
    case Fat =>
    case Unknown =>
  }

  /** The stored amount of one macro per serving. */
  function NutrientOf(n: NutritionalInfo, macro: Macro): Option<real>
  {
    match macro
    case Protein => n.protein
    case Carbs => n.carbohydrates
    case Fats => n.fats
  }

  /** The amount of one macro that `quantity` of `food` supplies: nutrient × round4(quantity / servingSize). */
  function GetMacroContribution(food: Option<Food>, quantity: real, macro: Macro): (r: Result<real>)
    ensures r.Err? <==>
      food.Some? && quantity > 0.0 && food.value.nutritionalInfo.Some? && food.value.servingSize == Some(0.0)
    ensures r.Err? ==> r.error == DivisionByZero
    ensures food.None? || quantity <= 0.0 || food.value.nutritionalInfo.None? ==> r == Ok(0.0)
    ensures (r.Ok? && quantity > 0.0 && food.Some? && food.value.nutritionalInfo.Some?) ==>
        r.value == Share(NutrientOf(food.value.nutritionalInfo.value, macro),
                         Divide(quantity, ServingSizeOr100(food.value), 4))
  {
    if food.None? || quantity <= 0.0 then Ok(0.0)
    else if food.value.nutritionalInfo.None? then Ok(0.0)
    else
      var servingSize := ServingSizeOr100(food.value);
      if servingSize == 0.0 then Err(DivisionByZero)
      else
        var ratio := Divide(quantity, servingSize, 4);
        var nutrient := NutrientOf(food.value.nutritionalInfo.value, macro);
        Ok(if nutrient.Some? then nutrient.value * ratio else 0.0)
  }

  /** The allocator's contribution, spelled out for a given portion ratio. */
  lemma ContributionAt(food: Food, quantity: real, macro: Macro, ratio: real)
    requires quantity > 0.0 && food.nutritionalInfo.Some? && ServingSizeOr100(food) != 0.0
    requires ratio == Divide(quantity, ServingSizeOr100(food), 4)
    ensures GetMacroContribution(Some(food), quantity, macro)
      == Ok(Share(NutrientOf(food.nutritionalInfo.value, macro), ratio))
  {
    assert food.servingSize != Some(0.0);
  }

  /** A new PENDING recommendation for the plan's user and day. */
  function CreateRecommendation(userId: int, date: int, mealType: MealType, food: Food, quantity: real,
                                reason: string): DietRecommendation
  {
    DietRecommendation(None, null, userId, date, mealType, food.id, quantity, reason, RecommendationStatus.Pending)
  }

  /** Whether the day's protein so far has reached 105% of the daily target. */
  predicate ProteinCapReached(target: MacroTargets, acc: Option<MacroTotals>)
  {
    acc.Some? && acc.value.protein >= target.dailyProteinTarget * 1.05
  }

  /** The protein source: an unused lean protein if any, else an unused fatty protein; none when capped. */
  function ProteinSource(candidates: seq<Food>, used: set<Option<int>>, capped: bool, picks: Picks): Option<Food>
  {
    if capped then None
    else
      var lean := SelectBestSource(Bucket(candidates, used, LeanProtein), picks.lean);
      if lean.Some? then lean else SelectBestSource(Bucket(candidates, used, FattyProtein), picks.fatty)
  }

  /** The carbohydrate source: an unused complex carbohydrate, else the first candidate. */
  function CarbSource(candidates: seq<Food>, used: set<Option<int>>, picks: Picks): Food
    requires candidates != []
  {
    var carb := SelectBestSource(Bucket(candidates, used, CarbComplex), picks.carb);
    if carb.Some? then carb.value else candidates[0]
  }

  function FatSource(candidates: seq<Food>, used: set<Option<int>>, picks: Picks): Option<Food>
  {
    SelectBestSource(Bucket(candidates, used, Fat), picks.fat)
  }

  /** The protein portion, 0 without a protein source. */
  function ProteinQuantity(source: Option<Food>, target: MacroTargets): real
  {
    if source.Some? then CalculateInitialQuantity(source, Some(target.protein), Classify(source.value)) else 0.0
  }

  predicate IsFattySource(source: Option<Food>)
  {
    source.Some? && Classify(source.value) == FattyProtein
  }

  /** The carbohydrate portion, multiplied by 1.2 and rounded when the protein cap is reached. */
  function Boosted(carbQty: real, capped: bool): real
  {
    if capped && carbQty > 0.0 then Round(carbQty * 1.2, 0) else carbQty
  }

  /** The protein item, if there is a protein source. */
  function ProteinRecs(userId: int, date: int, mealType: MealType, source: Option<Food>, qty: real,
                       isFatty: bool): seq<DietRecommendation>
  {
    if source.Some? then
      [CreateRecommendation(userId, date, mealType, source.value, qty, if isFatty then FattyReason else LeanReason)]
    else []
  }

  /** The carbohydrate item, if its quantity is positive. */
  function CarbRecs(userId: int, date: int, mealType: MealType, source: Food, qty: real): seq<DietRecommendation>
  {
    if qty > 0.0 then [CreateRecommendation(userId, date, mealType, source, qty, CarbReason)] else []
  }

  /** The fat item: only beside a non-fatty protein, when more than 5 g of fat remain and the portion exceeds 5. */
  function FatRecs(userId: int, date: int, mealType: MealType, source: Option<Food>, isFatty: bool,
                   remainingFats: real): seq<DietRecommendation>
  {
    if source.Some? && !isFatty && remainingFats > 5.0 then
      var fatQty := CalculateInitialQuantity(source, Some(remainingFats), Fat);
      if fatQty > 5.0 then [CreateRecommendation(userId, date, mealType, source.value, fatQty, FatReason)] else []
    else []
  }

  /** The meal for the chosen sources. */
  function MealFromSources(userId: int, date: int, mealType: MealType, target: MacroTargets, capped: bool,
                           proteinSource: Option<Food>, carbSource: Food, fatSource: Option<Food>)
    : Result<seq<DietRecommendation>>
  {
    var proteinQty := ProteinQuantity(proteinSource, target);
    var implicitFat :- GetMacroContribution(proteinSource, proteinQty, Fats);
    var isFatty := IsFattySource(proteinSource);
    // fails exactly when the fat contribution above failed
    var implicitCarbs := GetMacroContribution(proteinSource, proteinQty, Carbs).value;
    var remainingCarbs := Max(target.carbs - implicitCarbs, 0.0);
    var carbQty := Boosted(CalculateInitialQuantity(Some(carbSource), Some(remainingCarbs), CarbComplex), capped);
    Ok(ProteinRecs(userId, date, mealType, proteinSource, proteinQty, isFatty)
       + CarbRecs(userId, date, mealType, carbSource, carbQty)
       + FatRecs(userId, date, mealType, fatSource, isFatty, Max(target.fats - implicitFat, 0.0)))
  }

  lemma MealFromSourcesOk(userId: int, date: int, mealType: MealType, target: MacroTargets, capped: bool,
                          proteinSource: Option<Food>, carbSource: Food, fatSource: Option<Food>)
    requires GetMacroContribution(proteinSource, ProteinQuantity(proteinSource, target), Fats).Ok?
    ensures
      var proteinQty := ProteinQuantity(proteinSource, target);
      var implicitFat := GetMacroContribution(proteinSource, proteinQty, Fats).value;
      var implicitCarbs := GetMacroContribution(proteinSource, proteinQty, Carbs).value;
      var carbQty := Boosted(CalculateInitialQuantity(Some(carbSource), Some(Max(target.carbs - implicitCarbs, 0.0)),
                                                      CarbComplex), capped);
      var isFatty := IsFattySource(proteinSource);
      MealFromSources(userId, date, mealType, target, capped, proteinSource, carbSource, fatSource)
      == Ok(ProteinRecs(userId, date, mealType, proteinSource, proteinQty, isFatty)
            + CarbRecs(userId, date, mealType, carbSource, carbQty)
            + FatRecs(userId, date, mealType, fatSource, isFatty, Max(target.fats - implicitFat, 0.0)))
  {
  }

  /** A meal fails when the protein source's fat contribution fails. */
  lemma MealFromSourcesErr(userId: int, date: int, mealType: MealType, target: MacroTargets, capped: bool,
                           proteinSource: Option<Food>, carbSource: Food, fatSource: Option<Food>)
    requires GetMacroContribution(proteinSource, ProteinQuantity(proteinSource, target), Fats).Err?
    ensures MealFromSources(userId, date, mealType, target, capped, proteinSource, carbSource, fatSource).Err?
  {
  }

  /** The recommendations of one meal, or the failure that aborts it. */
  function BalancedMeal(userId: int, date: int, mealType: MealType, target: MacroTargets,
                        candidates: seq<Food>, used: set<Option<int>>, acc: Option<MacroTotals>,
                        picks: Picks): Result<seq<DietRecommendation>>
  {
    if candidates == [] then Ok([])
    else
      var capped := ProteinCapReached(target, acc);
      MealFromSources(userId, date, mealType, target, capped, ProteinSource(candidates, used, capped, picks),
                      CarbSource(candidates, used, picks), FatSource(candidates, used, picks))
  }

  /** Builds one meal for the plan's user and day: selects the sources, then sizes their portions. */
  method BuildBalancedMeal(plan: DietPlan, mealType: MealType, target: MacroTargets, candidates: seq<Food>,
                           used: set<Option<int>>, acc: Option<MacroTotals>, picks: Picks)
    returns (r: Result<seq<DietRecommendation>>)
    ensures r == BalancedMeal(plan.userId, plan.date, mealType, target, candidates, used, acc, picks)
  {
    if |candidates| == 0 {
      return Ok([]);
    }
    var capped := acc.Some? && acc.value.protein >= target.dailyProteinTarget * 1.05;
    var proteinSource: Option<Food> := None;
    if !capped {
      proteinSource := SelectBestSource(Bucket(candidates, used, LeanProtein), picks.lean);
      if proteinSource.None? {
        proteinSource := SelectBestSource(Bucket(candidates, used, FattyProtein), picks.fatty);
      }
    }
    var carbSource := SelectBestSource(Bucket(candidates, used, CarbComplex), picks.carb);
    var fatSource := SelectBestSource(Bucket(candidates, used, Fat), picks.fat);
    if carbSource.None? {
      carbSource := Some(candidates[0]);
    }
    r := AllocatePortions(plan, mealType, target, capped, proteinSource, carbSource.value, fatSource);
  }

  /** Sizes the portions of the chosen sources, appending the protein, carbohydrate and fat items in turn. */
  method AllocatePortions(plan: DietPlan, mealType: MealType, target: MacroTargets, capped: bool,
                          proteinSource: Option<Food>, carbSource: Food, fatSource: Option<Food>)
    returns (r: Result<seq<DietRecommendation>>)
    ensures r == MealFromSources(plan.userId, plan.date, mealType, target, capped, proteinSource, carbSource, fatSource)
  {
    var recommendations: seq<DietRecommendation> := [];
    var proteinQty := 0.0;
    var implicitFat := 0.0;
    var isFatty := false;
    if proteinSource.Some? {
      proteinQty := CalculateInitialQuantity(proteinSource, Some(target.protein), Classify(proteinSource.value));
      var fatContribution := GetMacroContribution(proteinSource, proteinQty, Fats);
      if fatContribution.Err? {
        return Err(fatContribution.error);
      }
      implicitFat := fatContribution.value;
      isFatty := Classify(proteinSource.value) == FattyProtein;
      var reason := if isFatty then FattyReason else LeanReason;
      recommendations := recommendations
        + [CreateRecommendation(plan.userId, plan.date, mealType, proteinSource.value, proteinQty, reason)];
    }
    assert recommendations == ProteinRecs(plan.userId, plan.date, mealType, proteinSource, proteinQty, isFatty);
    assert proteinQty == ProteinQuantity(proteinSource, target) && isFatty == IsFattySource(proteinSource);
    var implicitCarbs := GetMacroContribution(proteinSource, proteinQty, Carbs).value;
    var carbRecs := AllocateCarbs(plan, mealType, carbSource, Max(target.carbs - implicitCarbs, 0.0), capped);
    var fatRecs := AllocateFat(plan, mealType, fatSource, isFatty, Max(target.fats - implicitFat, 0.0));
    recommendations := recommendations + carbRecs + fatRecs;
    MealFromSourcesOk(plan.userId, plan.date, mealType, target, capped, proteinSource, carbSource, fatSource);
    return Ok(recommendations);
  }

  /** The carbohydrate item sized for the carbohydrates the protein item leaves. */
  method AllocateCarbs(plan: DietPlan, mealType: MealType, carbSource: Food, remainingCarbs: real, capped: bool)
    returns (recs: seq<DietRecommendation>)
    ensures recs == CarbRecs(plan.userId, plan.date, mealType, carbSource,
                             Boosted(CalculateInitialQuantity(Some(carbSource), Some(remainingCarbs), CarbComplex), capped))
  {
    var carbQty := CalculateInitialQuantity(Some(carbSource), Some(remainingCarbs), CarbComplex);
    if capped && carbQty > 0.0 {
      carbQty := Round(carbQty * 1.2, 0);
    }
    recs := [];
    if carbQty > 0.0 {
      recs := [CreateRecommendation(plan.userId, plan.date, mealType, carbSource, carbQty, CarbReason)];
    }
  }

  /** The fat item, sized for the fat the protein item leaves. */
  method AllocateFat(plan: DietPlan, mealType: MealType, fatSource: Option<Food>, isFatty: bool, remainingFats: real)
    returns (recs: seq<DietRecommendation>)
    ensures recs == FatRecs(plan.userId, plan.date, mealType, fatSource, isFatty, remainingFats)
  {
    recs := [];
    if fatSource.Some? && !isFatty {
      if remainingFats > 5.0 {
        var fatQty := CalculateInitialQuantity(fatSource, Some(remainingFats), Fat);
        if fatQty > 5.0 {
          recs := [CreateRecommendation(plan.userId, plan.date, mealType, fatSource.value, fatQty, FatReason)];
        }
      }
    }
  }
}
