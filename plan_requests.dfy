/**
 * The two requests that produce a shown plan: generating (or regenerating) the
 * plan of a day, and showing the latest plan of a day.
 *
 * The profile lookup and the latest-plan lookup are parameters (`None` and
 * `null` when nothing is found). Saving a new plan assigns it the id `planId`
 * and its recommendations the consecutive ids from `firstRecId` on. A request
 * that fails is rolled back: it returns `Err` and leaves the stored plans as
 * they were.
 */
module PlanRequests {
  import opened Wrappers
  import opened Nutrition
  import opened DietPlans
  import opened RecommendationMapper
  import opened DietGeneration
  import opened PlanHydration

  /** The goal shown beside a plan: the profile's four daily goals, absent ones left absent. */
  function DailyGoalOf(profile: UserProfile): (g: DailyGoal)
    ensures g.calories == profile.dailyCalorieGoal && g.protein == profile.dailyProteinGoal
    ensures g.carbs == profile.dailyCarbsGoal && g.fats == profile.dailyFatsGoal
  {
    DailyGoal(profile.dailyCalorieGoal, profile.dailyProteinGoal, profile.dailyCarbsGoal, profile.dailyFatsGoal)
  }

  /** The recommendations as saved: the `i`-th one stored under `firstId + i`. */
  function Saved(recs: seq<DietRecommendation>, firstId: int): seq<DietRecommendation>
  {
    seq(|recs|, i requires 0 <= i < |recs| => recs[i].(id := Some(firstId + i)))
  }

  /** Saved recommendations all have ids, and no two share one. */
  lemma SavedDistinct(recs: seq<DietRecommendation>, firstId: int)
    ensures |Saved(recs, firstId)| == |recs|
    ensures StoredDistinct(Saved(recs, firstId))
  {
  }

  /** The latest plan of the day is shown again rather than replaced. */
  predicate Reuses(forceNew: bool, latest: DietPlan?)
    reads latest
  {
    latest != null && !forceNew && latest.status != PlanStatus.Discarded
  }

  /** The version of a new plan: one more than the latest plan's, or 1 for the first plan of the day. */
  function NextVersion(latest: DietPlan?): (v: int)
    reads latest
    ensures latest == null ==> v == 1
    ensures latest != null ==> v > latest.version
  {
    if latest == null then 1 else latest.version + 1
  }

  /**
   * `generateOrRegeneratePlan`: shows the latest plan of the day when it may be
   * reused; otherwise builds a plan under the next version, fills it with the
   * day's recommendations, saves it and shows it, discarding the latest plan
   * when a new one was forced.
   */
  method GenerateOrRegeneratePlan(userId: int, date: int, forceNew: bool, profile: Option<UserProfile>,
                                  latest: DietPlan?, inputs: GenInputs, planId: int, firstRecId: int)
    returns (r: Result<DietPlanResponse>, plan: DietPlan?)
    modifies latest
    ensures profile.None? ==> r == Err(Runtime("User profile not found")) && plan == null
    ensures r.Err? && latest != null ==> unchanged(latest)
    ensures profile.Some? && old(Reuses(forceNew, latest)) ==>
      plan == latest && unchanged(latest)
      && r == Hydrate(ToDto(latest, DailyGoalOf(profile.value)).value, latest.recommendations, inputs.foods)
    ensures profile.Some? && !old(Reuses(forceNew, latest)) && Day(userId, date, profile.value, inputs).Err? ==>
      r == Err(Day(userId, date, profile.value, inputs).error)
    ensures profile.Some? && !old(Reuses(forceNew, latest)) && Day(userId, date, profile.value, inputs).Ok? ==>
      plan != null && fresh(plan)
      && plan.id == Some(planId) && plan.userId == userId && plan.date == date
      && plan.version == old(NextVersion(latest)) && plan.status == PlanStatus.Generated
      && plan.recommendations == Saved(Attached(Day(userId, date, profile.value, inputs).value.recs, plan), firstRecId)
      && r == Hydrate(ToDto(plan, DailyGoalOf(profile.value)).value, plan.recommendations, inputs.foods)
    ensures r.Ok? && !old(Reuses(forceNew, latest)) && latest != null ==>
      latest.id == old(latest.id)
      && latest.recommendations == old(latest.recommendations)
      && latest.status == (if forceNew then PlanStatus.Discarded else old(latest.status))
  {
    if profile.None? {
      return Err(Runtime("User profile not found")), null;
    }
    var goal := DailyGoalOf(profile.value);
    if Reuses(forceNew, latest) {
      plan := latest;
      r := HydrateAndMap(latest, goal, inputs.foods);
      return;
    }
    var day;
    day, plan := BuildPlan(userId, date, NextVersion(latest), profile.value, inputs, planId, firstRecId);
    if day.Err? {
      return Err(day.error), plan;
    }
    r := HydrateAndMap(plan, goal, inputs.foods);
    ghost var shown := Hydrate(ToDto(plan, goal).value, plan.recommendations, inputs.foods);
    if r.Ok? && forceNew && latest != null {
      latest.status := PlanStatus.Discarded;
    }
    assert Hydrate(ToDto(plan, goal).value, plan.recommendations, inputs.foods) == shown;
  }

  /**
   * A new plan of the day under `version`, filled with the day's
   * recommendations and saved; nothing stored changes.
   */
  method BuildPlan(userId: int, date: int, version: int, profile: UserProfile, inputs: GenInputs,
                   planId: int, firstRecId: int)
    returns (day: Result<DayOutcome>, plan: DietPlan)
    ensures fresh(plan)
    ensures day == Day(userId, date, profile, inputs)
    ensures day.Ok? ==>
      plan.id == Some(planId) && plan.userId == userId && plan.date == date
      && plan.version == version && plan.status == PlanStatus.Generated
      && plan.recommendations == Saved(Attached(day.value.recs, plan), firstRecId)
  {
    plan := new DietPlan(userId, date, version);
    day := GenerateRecommendationsForPlan(plan, profile, inputs);
    if day.Ok? {
      assert plan.recommendations == Attached(day.value.recs, plan);
      SavePlan(plan, planId, firstRecId);
    }
  }

  /** Saving a plan gives it its id and its recommendations consecutive ids, in order. */
  method SavePlan(plan: DietPlan, planId: int, firstRecId: int)
    modifies plan
    ensures plan.id == Some(planId) && plan.recommendations == Saved(old(plan.recommendations), firstRecId)
    ensures plan.status == old(plan.status)
  {
    plan.id := Some(planId);
    plan.recommendations := Saved(plan.recommendations, firstRecId);
  }

  /**
   * A successful generation leaves a plan that the next request for the day
   * without `forceNew` reuses, and whose recommendations are each shown
   * from their own food.
   */
  lemma GeneratedPlanReused(plan: DietPlan, recs: seq<DietRecommendation>, firstRecId: int,
                            dailyGoal: DailyGoal, foods: map<int, Food>)
    requires plan.status == PlanStatus.Generated && plan.recommendations == Saved(recs, firstRecId)
    ensures Reuses(false, plan)
    ensures (forall k :: 0 <= k < |recs| ==> Shown(plan.recommendations[k], foods).Ok?) ==>
      Hydrate(ToDto(plan, dailyGoal).value, plan.recommendations, foods).Ok?
  {
    SavedDistinct(recs, firstRecId);
    HydratedPlan(plan, dailyGoal, foods, 0);
  }

  /**
   * `getLatestPlan`: the latest plan of the day, shown with the profile's
   * goal, whatever its status; nothing when the day has no plan.
   */
  method GetLatestPlan(profile: Option<UserProfile>, latest: DietPlan?, foods: map<int, Food>)
    returns (r: Result<Option<DietPlanResponse>>)
    ensures profile.None? ==> r == Err(Runtime("User profile not found"))
    ensures profile.Some? && latest == null ==> r == Ok(None)
    ensures profile.Some? && latest != null ==>
      var shown := Hydrate(ToDto(latest, DailyGoalOf(profile.value)).value, latest.recommendations, foods);
      (r.Ok? <==> shown.Ok?) && (shown.Ok? ==> r.value == Some(shown.value))
      && (shown.Err? ==> r.error == shown.error)
  {
    if profile.None? {
      return Err(Runtime("User profile not found"));
    }
    if latest == null {
      return Ok(None);
    }
    var shown := HydrateAndMap(latest, DailyGoalOf(profile.value), foods);
    if shown.Err? {
      return Err(shown.error);
    }
    r := Ok(Some(shown.value));
  }
}
