/**
 * What the per-meal allocator guarantees: the shape and order of a meal, the
 * 105% protein cap, where each source comes from, and the bounds on portions.
 */
module MealProperties {
  import opened Wrappers
  import opened Decimal
  import opened Nutrition
  import opened FoodClassification
  import opened DietPlans
  import opened RecommendationAlgorithm

  /** The inputs of one call of the allocator. */
  datatype MealRequest = MealRequest(
    userId: int, date: int, mealType: MealType, target: MacroTargets,
    candidates: seq<Food>, used: set<Option<int>>, acc: Option<MacroTotals>, picks: Picks)
  {
    function Meal(): Result<seq<DietRecommendation>>
    {
      BalancedMeal(userId, date, mealType, target, candidates, used, acc, picks)
    }

    predicate Capped()
    {
      ProteinCapReached(target, acc)
    }

    function Protein(): Option<Food>
    {
      ProteinSource(candidates, used, Capped(), picks)
    }

    function Carb(): Food
      requires candidates != []
    {
      CarbSource(candidates, used, picks)
    }

    function FatFood(): Option<Food>
    {
      FatSource(candidates, used, picks)
    }

    function ProteinQty(): real
    {
      ProteinQuantity(Protein(), target)
    }

    /** The unboosted carbohydrate portion. */
    function BaseCarbQty(): real
      requires candidates != [] && GetMacroContribution(Protein(), ProteinQty(), Fats).Ok?
    {
      var implicitCarbs := GetMacroContribution(Protein(), ProteinQty(), Carbs).value;
      CalculateInitialQuantity(Some(Carb()), Some(Max(target.carbs - implicitCarbs, 0.0)), CarbComplex)
    }

    /** The fat still wanted after the protein source's own fat. */
    function RemainingFats(): real
      requires GetMacroContribution(Protein(), ProteinQty(), Fats).Ok?
    {
      Max(target.fats - GetMacroContribution(Protein(), ProteinQty(), Fats).value, 0.0)
    }
  }

  /** `MealFromSourcesOk` with the portions given by name. */
  lemma MealFromSourcesParts(userId: int, date: int, mealType: MealType, target: MacroTargets, capped: bool,
                             proteinSource: Option<Food>, carbSource: Food, fatSource: Option<Food>,
                             proteinQty: real, carbQty: real, remainingFats: real)
    requires proteinQty == ProteinQuantity(proteinSource, target)
    requires GetMacroContribution(proteinSource, proteinQty, Fats).Ok?
    requires carbQty == Boosted(CalculateInitialQuantity(
      Some(carbSource), Some(Max(target.carbs - GetMacroContribution(proteinSource, proteinQty, Carbs).value, 0.0)),
      CarbComplex), capped)
    requires remainingFats == Max(target.fats - GetMacroContribution(proteinSource, proteinQty, Fats).value, 0.0)
    ensures MealFromSources(userId, date, mealType, target, capped, proteinSource, carbSource, fatSource)
      == Ok(ProteinRecs(userId, date, mealType, proteinSource, proteinQty, IsFattySource(proteinSource))
            + CarbRecs(userId, date, mealType, carbSource, carbQty)
            + FatRecs(userId, date, mealType, fatSource, IsFattySource(proteinSource), remainingFats))
  {
    MealFromSourcesOk(userId, date, mealType, target, capped, proteinSource, carbSource, fatSource);
  }

  /** With candidates, the meal is the one built from the three selected sources. */
  lemma MealIsFromSources(q: MealRequest)
    requires q.candidates != []
    ensures q.Meal()
      == MealFromSources(q.userId, q.date, q.mealType, q.target, q.Capped(), q.Protein(), q.Carb(), q.FatFood())
  {
  }

  /** The meal as its three parts. */
  lemma MealParts(q: MealRequest)
    requires q.candidates != []
    ensures q.Meal().Ok? <==> GetMacroContribution(q.Protein(), q.ProteinQty(), Fats).Ok?
    ensures q.Meal().Ok? ==>
      q.Meal().value ==
        ProteinRecs(q.userId, q.date, q.mealType, q.Protein(), q.ProteinQty(), IsFattySource(q.Protein()))
        + CarbRecs(q.userId, q.date, q.mealType, q.Carb(), Boosted(q.BaseCarbQty(), q.Capped()))
        + FatRecs(q.userId, q.date, q.mealType, q.FatFood(), IsFattySource(q.Protein()), q.RemainingFats())
  {
    MealIsFromSources(q);
    if GetMacroContribution(q.Protein(), q.ProteinQty(), Fats).Ok? {
      MealFromSourcesParts(q.userId, q.date, q.mealType, q.target, q.Capped(), q.Protein(), q.Carb(), q.FatFood(),
                           q.ProteinQty(), Boosted(q.BaseCarbQty(), q.Capped()), q.RemainingFats());
    } else {
      MealFromSourcesErr(q.userId, q.date, q.mealType, q.target, q.Capped(), q.Protein(), q.Carb(), q.FatFood());
    }
  }

  /** No candidates, no recommendations. */
  lemma EmptyCandidatesNoMeal(q: MealRequest)
    requires q.candidates == []
    ensures q.Meal() == Ok([])
  {
  }

  /**
   * A meal fails only when the protein source has nutrition and a zero serving
   * size, which makes the ratio quantity / servingSize divide by zero.
   */
  lemma MealFailure(q: MealRequest)
    ensures q.Meal().Err? <==>
      q.candidates != [] && q.Protein().Some? && q.Protein().value.nutritionalInfo.Some?
      && q.Protein().value.servingSize == Some(0.0)
    ensures q.Meal().Err? ==> q.Meal().error == DivisionByZero
  {
    if q.candidates != [] {
      MealParts(q);
    }
  }

  /** Items in strictly increasing role order, none of them outside the three roles. */
  predicate RoleOrdered(recs: seq<DietRecommendation>)
  {
    (forall i, j :: 0 <= i < j < |recs| ==> RoleRank(recs[i].reason) < RoleRank(recs[j].reason))
    && (forall i :: 0 <= i < |recs| ==> RoleRank(recs[i].reason) < 3)
  }

  /** At most one item of each role, concatenated protein, carbohydrate, fat, is role ordered. */
  lemma PartsOrdered(p: seq<DietRecommendation>, c: seq<DietRecommendation>, f: seq<DietRecommendation>)
    requires |p| <= 1 && |c| <= 1 && |f| <= 1
    requires forall i :: 0 <= i < |p| ==> RoleRank(p[i].reason) == 0
    requires forall i :: 0 <= i < |c| ==> RoleRank(c[i].reason) == 1
    requires forall i :: 0 <= i < |f| ==> RoleRank(f[i].reason) == 2
    ensures |p + c + f| <= 3 && RoleOrdered(p + c + f)
  {
    var recs := p + c + f;
    forall i | 0 <= i < |recs|
      ensures RoleRank(recs[i].reason) == if i < |p| then 0 else if i < |p| + |c| then 1 else 2
    {
      if i < |p| {
        assert recs[i] == p[i];
      } else if i < |p| + |c| {
        assert recs[i] == c[i - |p|];
      } else {
        assert recs[i] == f[i - |p| - |c|];
      }
    }
  }

  /**
   * At most three items, in the order protein, carbohydrate, fat, with at most
   * one of each; the carbohydrate item is always present when there are candidates.
   */
  lemma MealShape(q: MealRequest)
    requires q.Meal().Ok?
    ensures |q.Meal().value| <= 3 && RoleOrdered(q.Meal().value)
    ensures q.candidates != [] <==>
      exists i :: 0 <= i < |q.Meal().value| && q.Meal().value[i].reason == CarbReason
  {
    if q.candidates != [] {
      MealParts(q);
      var base := q.BaseCarbQty();
      assert base >= 10.0;
      var carbQty := Boosted(base, q.Capped());
      if q.Capped() {
        RoundMonotone(10.0, base * 1.2, 0);
        RoundWhole(10.0);
      }
      assert carbQty > 0.0;
      var p := ProteinRecs(q.userId, q.date, q.mealType, q.Protein(), q.ProteinQty(), IsFattySource(q.Protein()));
      var c := CarbRecs(q.userId, q.date, q.mealType, q.Carb(), carbQty);
      var f := FatRecs(q.userId, q.date, q.mealType, q.FatFood(), IsFattySource(q.Protein()), q.RemainingFats());
      PartsOrdered(p, c, f);
      assert q.Meal().value == p + c + f;
      assert q.Meal().value[|p|] == c[0];
    }
  }

  /**
   * Once the day's protein reaches 105% of the daily target, the meal has no
   * protein item, and its carbohydrate portion is the plain one times 1.2,
   * rounded to whole grams.
   */
  lemma ProteinCapEnforced(q: MealRequest)
    requires q.candidates != [] && q.Capped()
    ensures q.Meal().Ok?
    ensures forall i :: 0 <= i < |q.Meal().value| ==> RoleRank(q.Meal().value[i].reason) != 0
    ensures q.Meal().value[0].reason == CarbReason
    ensures q.Meal().value[0].suggestedQuantity ==
      Round(CalculateInitialQuantity(Some(q.Carb()), Some(Max(q.target.carbs, 0.0)), CarbComplex) * 1.2, 0)
  {
    MealParts(q);
    assert q.Protein().None?;
    assert GetMacroContribution(q.Protein(), q.ProteinQty(), Carbs) == Ok(0.0);
    assert q.target.carbs - 0.0 == q.target.carbs;
    var base := q.BaseCarbQty();
    RoundMonotone(10.0, base * 1.2, 0);
    RoundWhole(10.0);
  }

  /**
   * The protein item's food is an unused candidate: a lean protein, or a fatty
   * protein only when no unused lean protein exists, with the matching reason.
   */
  lemma ProteinItemSource(q: MealRequest, i: nat)
    requires q.Meal().Ok? && i < |q.Meal().value| && RoleRank(q.Meal().value[i].reason) == 0
    ensures !q.Capped() && q.Protein().Some?
    ensures var rec := q.Meal().value[i];
      var f := q.Protein().value;
      f in q.candidates && f.id !in q.used && rec.foodId == f.id
      && (Classify(f) == LeanProtein ==> rec.reason == LeanReason)
      && (Classify(f) == FattyProtein ==>
            rec.reason == FattyReason && Bucket(q.candidates, q.used, LeanProtein) == [])
      && (Classify(f) == LeanProtein || Classify(f) == FattyProtein)
  {
    MealShape(q);
    assert q.candidates != [];
    MealParts(q);
  }

  /** Without the cap, a protein item is emitted whenever an unused lean or fatty protein exists. */
  lemma ProteinItemPresent(q: MealRequest)
    requires q.Meal().Ok? && q.candidates != [] && !q.Capped()
    requires exists f :: f in q.candidates && f.id !in q.used && IsProteinRole(Classify(f))
    ensures |q.Meal().value| > 0 && RoleRank(q.Meal().value[0].reason) == 0
  {
    var f :| f in q.candidates && f.id !in q.used && IsProteinRole(Classify(f));
    if Classify(f) == LeanProtein {
      assert f in Bucket(q.candidates, q.used, LeanProtein);
    } else {
      assert f in Bucket(q.candidates, q.used, FattyProtein);
    }
    MealParts(q);
  }

  /**
   * A fat item appears exactly when an unused fat source exists, the protein
   * source is not a fatty protein, and more than 5 g of the meal's fats remain
   * after the protein's own fat; its food is an unused FAT candidate.
   */
  lemma FatItemRule(q: MealRequest)
    requires q.Meal().Ok? && q.candidates != []
    ensures (exists i :: 0 <= i < |q.Meal().value| && q.Meal().value[i].reason == FatReason) <==>
      q.FatFood().Some? && !IsFattySource(q.Protein()) && q.RemainingFats() > 5.0
    ensures forall i :: 0 <= i < |q.Meal().value| && q.Meal().value[i].reason == FatReason ==>
      var f := q.FatFood().value;
      f in q.candidates && f.id !in q.used && Classify(f) == Fat && q.Meal().value[i].foodId == f.id
  {
    MealParts(q);
    var recs := q.Meal().value;
    var fatty := IsFattySource(q.Protein());
    var p := ProteinRecs(q.userId, q.date, q.mealType, q.Protein(), q.ProteinQty(), fatty);
    var c := CarbRecs(q.userId, q.date, q.mealType, q.Carb(), Boosted(q.BaseCarbQty(), q.Capped()));
    var fr := FatRecs(q.userId, q.date, q.mealType, q.FatFood(), fatty, q.RemainingFats());
    assert recs == p + c + fr;
    PartRoles(q.userId, q.date, q.mealType, q.Protein(), q.ProteinQty(), fatty, q.Carb(),
              Boosted(q.BaseCarbQty(), q.Capped()), q.FatFood(), q.RemainingFats());
    FatInParts(p, c, fr);
    if q.FatFood().Some? && !fatty && q.RemainingFats() > 5.0 {
      assert CalculateInitialQuantity(q.FatFood(), Some(q.RemainingFats()), Fat) >= 10.0;
    }
  }

  /** Each part holds at most one item, of its own role. */
  lemma PartRoles(userId: int, date: int, mealType: MealType, proteinSource: Option<Food>, proteinQty: real,
                  isFatty: bool, carbSource: Food, carbQty: real, fatSource: Option<Food>, remainingFats: real)
    ensures var p := ProteinRecs(userId, date, mealType, proteinSource, proteinQty, isFatty);
      |p| <= 1 && forall i :: 0 <= i < |p| ==> RoleRank(p[i].reason) == 0
    ensures var c := CarbRecs(userId, date, mealType, carbSource, carbQty);
      |c| <= 1 && forall i :: 0 <= i < |c| ==> RoleRank(c[i].reason) == 1
    ensures var f := FatRecs(userId, date, mealType, fatSource, isFatty, remainingFats);
      |f| <= 1 && forall i :: 0 <= i < |f| ==> f[i].reason == FatReason && RoleRank(f[i].reason) == 2
  {
  }

  /** In protein items, then carbohydrate items, then fat items, the fat items are exactly the last part. */
  lemma FatInParts(p: seq<DietRecommendation>, c: seq<DietRecommendation>, f: seq<DietRecommendation>)
    requires forall i :: 0 <= i < |p| ==> RoleRank(p[i].reason) == 0
    requires forall i :: 0 <= i < |c| ==> RoleRank(c[i].reason) == 1
    requires forall i :: 0 <= i < |f| ==> f[i].reason == FatReason
    ensures (exists i :: 0 <= i < |p + c + f| && (p + c + f)[i].reason == FatReason) <==> f != []
    ensures forall i :: 0 <= i < |p + c + f| && (p + c + f)[i].reason == FatReason ==>
      i >= |p| + |c| && (p + c + f)[i] == f[i - |p| - |c|]
  {
    var recs := p + c + f;
    forall i | 0 <= i < |recs|
      ensures recs[i] == if i < |p| then p[i] else if i < |p| + |c| then c[i - |p|] else f[i - |p| - |c|]
    {
    }
    if f != [] {
      assert recs[|p| + |c|] == f[0];
    }
  }

  /** The sources are unused candidates of their category; the carbohydrate fallback is the first candidate. */
  lemma SourcesAreCandidates(q: MealRequest)
    ensures q.Protein().Some? ==>
      q.Protein().value in q.candidates && q.Protein().value.id !in q.used
      && IsProteinRole(Classify(q.Protein().value))
    ensures q.FatFood().Some? ==>
      q.FatFood().value in q.candidates && q.FatFood().value.id !in q.used && Classify(q.FatFood().value) == Fat
    ensures q.candidates != [] ==> q.Carb() in q.candidates
  {
  }

  /** Each item is the protein, the carbohydrate or the fat item built from its source. */
  lemma MealItemForms(q: MealRequest, i: nat)
    requires q.Meal().Ok? && i < |q.Meal().value|
    ensures q.candidates != []
    ensures var rec := q.Meal().value[i];
      (q.Protein().Some? && rec == CreateRecommendation(q.userId, q.date, q.mealType, q.Protein().value,
                                  q.ProteinQty(), rec.reason) && RoleRank(rec.reason) == 0)
      || (rec == CreateRecommendation(q.userId, q.date, q.mealType, q.Carb(),
                                      Boosted(q.BaseCarbQty(), q.Capped()), CarbReason))
      || (q.FatFood().Some? && rec.reason == FatReason
          && rec == CreateRecommendation(q.userId, q.date, q.mealType, q.FatFood().value,
                                         CalculateInitialQuantity(q.FatFood(), Some(q.RemainingFats()), Fat),
                                         FatReason))
  {
    MealParts(q);
    var fatty := IsFattySource(q.Protein());
    var p := ProteinRecs(q.userId, q.date, q.mealType, q.Protein(), q.ProteinQty(), fatty);
    var c := CarbRecs(q.userId, q.date, q.mealType, q.Carb(), Boosted(q.BaseCarbQty(), q.Capped()));
    var f := FatRecs(q.userId, q.date, q.mealType, q.FatFood(), fatty, q.RemainingFats());
    assert q.Meal().value == p + c + f;
    if i < |p| {
      assert q.Meal().value[i] == p[i];
    } else if i < |p| + |c| {
      assert q.Meal().value[i] == c[i - |p|];
    } else {
      assert q.Meal().value[i] == f[i - |p| - |c|];
    }
  }

  /** Every item is a PENDING recommendation for the plan's user, day and meal, of some candidate food. */
  lemma MealItemsPending(q: MealRequest)
    requires q.Meal().Ok?
    ensures forall rec :: rec in q.Meal().value ==>
      rec.status == RecommendationStatus.Pending && rec.userId == q.userId && rec.date == q.date
      && rec.mealType == q.mealType && rec.id.None? && rec.dietPlan == null
      && exists f :: f in q.candidates && f.id == rec.foodId
  {
    var recs := q.Meal().value;
    forall i | 0 <= i < |recs|
      ensures recs[i].status == RecommendationStatus.Pending && recs[i].userId == q.userId
      ensures recs[i].date == q.date && recs[i].mealType == q.mealType
      ensures recs[i].id.None? && recs[i].dietPlan == null
      ensures exists f :: f in q.candidates && f.id == recs[i].foodId
    {
      MealItemForms(q, i);
      SourcesAreCandidates(q);
    }
  }

  /**
   * The carbohydrate portion is whole, at least 10 and at most 350 before the
   * boost: it is always clamped with the CARB_COMPLEX cap, whatever the food.
   */
  lemma BaseCarbBounds(q: MealRequest)
    requires q.candidates != [] && GetMacroContribution(q.Protein(), q.ProteinQty(), Fats).Ok?
    ensures 10.0 <= q.BaseCarbQty() <= 350.0 && IsWhole(q.BaseCarbQty())
  {
  }

  /** The boost keeps a whole portion between 10 and 420. */
  lemma BoostedBounds(base: real, capped: bool)
    requires 10.0 <= base <= 350.0 && IsWhole(base)
    ensures 10.0 <= Boosted(base, capped) <= 420.0 && IsWhole(Boosted(base, capped))
  {
    if capped {
      RoundMonotone(10.0, base * 1.2, 0);
      RoundWhole(10.0);
      RoundMonotone(base * 1.2, 420.0, 0);
      RoundWhole(420.0);
      RoundZeroIsWhole(base * 1.2);
    }
  }

  lemma ItemPortionBounds(q: MealRequest, i: nat)
    requires q.Meal().Ok? && i < |q.Meal().value|
    ensures var rec := q.Meal().value[i];
      IsWhole(rec.suggestedQuantity) && 10.0 <= rec.suggestedQuantity <= 420.0
      && (RoleRank(rec.reason) == 0 ==>
            q.Protein().Some? && rec.suggestedQuantity <= PortionCap(Classify(q.Protein().value)))
      && (rec.reason == FatReason ==> rec.suggestedQuantity <= PortionCap(Fat) == 40.0)
  {
    MealItemForms(q, i);
    var rec := q.Meal().value[i];
    SourcesAreCandidates(q);
    if q.Protein().Some? && rec.foodId == q.Protein().value.id && RoleRank(rec.reason) == 0 {
      EveryCategoryHasCap(Classify(q.Protein().value));
    } else if rec.reason == CarbReason {
      BaseCarbBounds(q);
      BoostedBounds(q.BaseCarbQty(), q.Capped());
    } else if rec.reason == FatReason {
      FatItemRule(q);
      FatFoodHasFats(q.FatFood().value);
      EveryCategoryHasCap(Fat);
    }
  }

  /**
   * Every portion is a whole number of at least 10. A protein portion stays
   * within its category's cap, a fat portion within the FAT cap of 40 g (a FAT
   * food always has fats, so its portion is always solved and clamped), and a
   * carbohydrate portion within 420 g.
   */
  lemma MealPortionBounds(q: MealRequest)
    requires q.Meal().Ok?
    ensures forall rec :: rec in q.Meal().value ==>
      IsWhole(rec.suggestedQuantity) && 10.0 <= rec.suggestedQuantity <= 420.0
    ensures forall rec :: rec in q.Meal().value && RoleRank(rec.reason) == 0 ==>
      q.Protein().Some? && rec.suggestedQuantity <= PortionCap(Classify(q.Protein().value))
    ensures forall rec :: rec in q.Meal().value && rec.reason == FatReason ==>
      rec.suggestedQuantity <= 40.0
  {
    var recs := q.Meal().value;
    forall i | 0 <= i < |recs|
      ensures IsWhole(recs[i].suggestedQuantity) && 10.0 <= recs[i].suggestedQuantity <= 420.0
      ensures RoleRank(recs[i].reason) == 0 ==>
        q.Protein().Some? && recs[i].suggestedQuantity <= PortionCap(Classify(q.Protein().value))
      ensures recs[i].reason == FatReason ==> recs[i].suggestedQuantity <= 40.0
    {
      ItemPortionBounds(q, i);
    }
  }

  /** Every protein or fat item names a food id outside the used set. */
  lemma SourcesUnused(q: MealRequest)
    requires q.Meal().Ok?
    ensures forall j :: 0 <= j < |q.Meal().value| && RoleRank(q.Meal().value[j].reason) != 1 ==>
      q.Meal().value[j].foodId !in q.used
  {
    var recs := q.Meal().value;
    MealShape(q);
    forall j | 0 <= j < |recs| && RoleRank(recs[j].reason) != 1
      ensures recs[j].foodId !in q.used
    {
      if RoleRank(recs[j].reason) == 0 {
        ProteinItemSource(q, j);
      } else {
        FatItemRule(q);
      }
    }
  }
}
