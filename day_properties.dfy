/**
 * What a whole generated day guarantees: every recommendation is a PENDING
 * one for the plan's user and day, meals come in meal-type order with at most
 * three items each, the used-id set ends up holding exactly the day's food
 * ids, and no protein or fat source is reused by a later meal.
 */
module DayProperties {
  import opened Wrappers
  import opened Nutrition
  import opened DietPlans
  import opened RecommendationAlgorithm
  import opened MealProperties
  import opened DietGeneration

  /** Every recommendation is PENDING, for the given user and day, in meal `k` or a later one. */
  predicate DayItems(recs: seq<DietRecommendation>, userId: int, date: int, k: nat)
  {
    forall i :: 0 <= i < |recs| ==>
      recs[i].status == RecommendationStatus.Pending && recs[i].userId == userId && recs[i].date == date
      && k <= MealIndex(recs[i].mealType)
  }

  /** The recommendations come in meal-type order. */
  predicate InMealOrder(recs: seq<DietRecommendation>)
  {
    forall i, j :: 0 <= i < j < |recs| ==> MealIndex(recs[i].mealType) <= MealIndex(recs[j].mealType)
  }

  /** Every protein or fat item names a food id outside `used`. */
  predicate SourcesFresh(recs: seq<DietRecommendation>, used: set<Option<int>>)
  {
    forall j :: 0 <= j < |recs| && RoleRank(recs[j].reason) != 1 ==> recs[j].foodId !in used
  }

  /** No protein or fat item reuses the food of an item of an earlier meal. */
  predicate NoCrossMealReuse(recs: seq<DietRecommendation>)
  {
    forall i, j ::
      0 <= i < j < |recs| && recs[i].mealType != recs[j].mealType && RoleRank(recs[j].reason) != 1
      ==> recs[i].foodId != recs[j].foodId
  }

  /** One meal of the day: its items are fresh PENDING items of its own meal type, at most three. */
  lemma MealStepFacts(userId: int, date: int, daily: DayTargets, inputs: GenInputs, k: nat, st: GenState,
                      m: DayOutcome)
    requires k < |MealTypes|
    requires MealStep(userId, date, daily, inputs, k, st) == Ok(m)
    ensures |m.recs| <= 3
    ensures DayItems(m.recs, userId, date, k)
    ensures forall i :: 0 <= i < |m.recs| ==> m.recs[i].mealType == MealTypes[k]
    ensures SourcesFresh(m.recs, st.used)
    ensures m.final.used == st.used + FoodIds(m.recs)
  {
    var q := RequestFor(userId, date, daily, inputs, k, st);
    assert m.recs == q.Meal().value;
    MealShape(q);
    MealItemsOf(q, k);
    SourcesUnused(q);
  }

  lemma MealItemsOf(q: MealRequest, k: nat)
    requires q.Meal().Ok? && k < |MealTypes| && q.mealType == MealTypes[k]
    ensures DayItems(q.Meal().value, q.userId, q.date, k)
    ensures forall i :: 0 <= i < |q.Meal().value| ==> q.Meal().value[i].mealType == MealTypes[k]
  {
    MealItemsPending(q);
    var recs := q.Meal().value;
    forall i | 0 <= i < |recs|
      ensures recs[i].status == RecommendationStatus.Pending && recs[i].userId == q.userId
      ensures recs[i].date == q.date && recs[i].mealType == MealTypes[k]
    {
      assert recs[i] in recs;
    }
  }

  /** Joining one meal's items to those of the later meals keeps every day-level fact. */
  lemma JoinMeal(a: seq<DietRecommendation>, b: seq<DietRecommendation>, userId: int, date: int, k: nat,
                 used: set<Option<int>>)
    requires k < |MealTypes|
    requires DayItems(a, userId, date, k) && forall i :: 0 <= i < |a| ==> a[i].mealType == MealTypes[k]
    requires DayItems(b, userId, date, k + 1) && InMealOrder(b)
    requires SourcesFresh(a, used) && SourcesFresh(b, used + FoodIds(a)) && NoCrossMealReuse(b)
    ensures DayItems(a + b, userId, date, k) && InMealOrder(a + b)
    ensures SourcesFresh(a + b, used) && NoCrossMealReuse(a + b)
    ensures FoodIds(a + b) == FoodIds(a) + FoodIds(b)
  {
    var ab := a + b;
    forall i | 0 <= i < |ab|
      ensures ab[i].status == RecommendationStatus.Pending && ab[i].userId == userId && ab[i].date == date
      ensures k <= MealIndex(ab[i].mealType)
    {
      if i >= |a| {
        assert ab[i] == b[i - |a|];
      }
    }
    forall i, j | 0 <= i < j < |ab|
      ensures MealIndex(ab[i].mealType) <= MealIndex(ab[j].mealType)
    {
      if j < |a| {
        assert ab[i].mealType == ab[j].mealType;
      } else if i < |a| {
        assert ab[j] == b[j - |a|];
        assert MealIndex(ab[i].mealType) == k;
      } else {
        assert ab[i] == b[i - |a|] && ab[j] == b[j - |a|];
      }
    }
    forall j | 0 <= j < |ab| && RoleRank(ab[j].reason) != 1
      ensures ab[j].foodId !in used
    {
      if j >= |a| {
        assert ab[j] == b[j - |a|];
      }
    }
    forall i, j | 0 <= i < j < |ab| && ab[i].mealType != ab[j].mealType && RoleRank(ab[j].reason) != 1
      ensures ab[i].foodId != ab[j].foodId
    {
      if j < |a| {
        assert false;
      } else if i < |a| {
        assert ab[j] == b[j - |a|];
        assert ab[i].foodId in FoodIds(a);
      } else {
        assert ab[i] == b[i - |a|] && ab[j] == b[j - |a|];
      }
    }
    FoodIdsConcat(a, b);
  }

  lemma FoodIdsConcat(a: seq<DietRecommendation>, b: seq<DietRecommendation>)
    ensures FoodIds(a + b) == FoodIds(a) + FoodIds(b)
  {
    var ab := a + b;
    forall id | id in FoodIds(ab)
      ensures id in FoodIds(a) + FoodIds(b)
    {
      var i :| 0 <= i < |ab| && ab[i].foodId == id;
      if i >= |a| {
        assert b[i - |a|] == ab[i];
      }
    }
    forall id | id in FoodIds(b)
      ensures id in FoodIds(ab)
    {
      var i :| 0 <= i < |b| && b[i].foodId == id;
      assert ab[i + |a|] == b[i];
    }
    forall id | id in FoodIds(a)
      ensures id in FoodIds(ab)
    {
      var i :| 0 <= i < |a| && a[i].foodId == id;
      assert ab[i] == a[i];
    }
  }

  /**
   * The meals from the `k`-th on: at most three items per meal, PENDING items
   * of the user and day in meal-type order, the final used set is the starting
   * one plus the day's food ids, and protein and fat sources are fresh.
   */
  lemma {:induction false} MealsFromFacts(userId: int, date: int, daily: DayTargets, inputs: GenInputs, k: nat,
                                          st: GenState, d: DayOutcome)
    requires k <= |MealTypes|
    requires MealsFrom(userId, date, daily, inputs, k, st) == Ok(d)
    ensures |d.recs| <= 3 * (|MealTypes| - k)
    ensures DayItems(d.recs, userId, date, k) && InMealOrder(d.recs)
    ensures d.final.used == st.used + FoodIds(d.recs)
    ensures SourcesFresh(d.recs, st.used) && NoCrossMealReuse(d.recs)
    decreases |MealTypes| - k
  {
    if k == |MealTypes| {
      assert d.recs == [];
    } else {
      MealsFromUnfold(userId, date, daily, inputs, k, st);
      var m := MealStep(userId, date, daily, inputs, k, st).value;
      var rest := MealsFrom(userId, date, daily, inputs, k + 1, m.final).value;
      assert d == DayOutcome(m.recs + rest.recs, rest.final);
      MealStepFacts(userId, date, daily, inputs, k, st, m);
      MealsFromFacts(userId, date, daily, inputs, k + 1, m.final, rest);
      JoinMeal(m.recs, rest.recs, userId, date, k, st.used);
    }
  }

  /**
   * A generated day has at most twelve recommendations, all PENDING for the
   * plan's user and day, in meal-type order; the used-id set ends as the day's
   * food ids, and no meal reuses an earlier meal's food as a protein or fat source.
   */
  lemma DayFacts(userId: int, date: int, profile: UserProfile, inputs: GenInputs, d: DayOutcome)
    requires Day(userId, date, profile, inputs) == Ok(d)
    ensures |d.recs| <= 12
    ensures DayItems(d.recs, userId, date, 0) && InMealOrder(d.recs)
    ensures d.final.used == FoodIds(d.recs)
    ensures NoCrossMealReuse(d.recs)
  {
    MealsFromFacts(userId, date, CalculateDailyTargets(profile), inputs, 0, GenState({}, ZeroTotals), d);
  }
}
