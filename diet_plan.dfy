/**
 * A versioned diet plan for one user and day, owning its recommendations.
 * Recommendations are values; the plan holds them in order and each carries a
 * back-reference to the plan that owns it.
 */
module DietPlans {
  import opened Wrappers
  import opened Nutrition

  datatype PlanStatus = Generated | Accepted | Discarded

  datatype RecommendationStatus = Pending | Accepted | Rejected

  /** One suggested serving of a food for a meal of the plan's day. */
  datatype DietRecommendation = DietRecommendation(
    id: Option<int>,
    dietPlan: DietPlan?,
    userId: int,
    date: int,
    mealType: MealType,
    foodId: Option<int>,
    suggestedQuantity: real,
    reason: string,
    status: RecommendationStatus)

  class DietPlan {
    var id: Option<int>
    const userId: int
    const date: int
    const version: int
    var status: PlanStatus
    var recommendations: seq<DietRecommendation>

    /** Every recommendation of the plan points back to it. */
    predicate Owns()
      reads this
    {
      forall i :: 0 <= i < |recommendations| ==> recommendations[i].dietPlan == this
    }

    /** A new, unsaved plan: status GENERATED and no recommendations. */
    constructor (userId: int, date: int, version: int)
      ensures this.userId == userId && this.date == date && this.version == version
      ensures id.None? && status == Generated && recommendations == []
      ensures Owns()
    {
      this.id := None;
      this.userId := userId;
      this.date := date;
      this.version := version;
      this.status := Generated;
      this.recommendations := [];
    }

    /** Appends a recommendation and points its back-reference at this plan. */
    method AddRecommendation(rec: DietRecommendation)
      modifies this
      ensures recommendations == old(recommendations) + [rec.(dietPlan := this)]
      ensures id == old(id)
      ensures status == old(status)
      ensures old(Owns()) ==> Owns()
    {
      recommendations := recommendations + [rec.(dietPlan := this)];
    }
  }

  /** The recommendations as stored by a plan: each one with its back-reference set. */
  function Attached(recs: seq<DietRecommendation>, plan: DietPlan): (r: seq<DietRecommendation>)
    ensures |r| == |recs|
    ensures forall i :: 0 <= i < |r| ==> r[i] == recs[i].(dietPlan := plan)
  {
    if recs == [] then [] else [recs[0].(dietPlan := plan)] + Attached(recs[1..], plan)
  }

  /** Attaching a second batch after a first one is attaching both at once. */
  lemma AttachedExtend(full: seq<DietRecommendation>, mid: seq<DietRecommendation>, base: seq<DietRecommendation>,
                       done: seq<DietRecommendation>, recs: seq<DietRecommendation>, plan: DietPlan)
    requires mid == base + Attached(done, plan)
    requires full == mid + Attached(recs, plan)
    ensures full == base + Attached(done + recs, plan)
  {
    AttachedAppend(done, recs, plan);
    ConcatAssoc(base, Attached(done, plan), Attached(recs, plan));
  }

  lemma ConcatAssoc<T>(a: seq<T>, b: seq<T>, c: seq<T>)
    ensures (a + b) + c == a + (b + c)
  {
  }

  /** Attaching one more recommendation of `recs` extends the attached prefix by one. */
  lemma AttachedStep(full: seq<DietRecommendation>, mid: seq<DietRecommendation>, base: seq<DietRecommendation>,
                     recs: seq<DietRecommendation>, j: nat, plan: DietPlan)
    requires j < |recs|
    requires mid == base + Attached(recs[..j], plan)
    requires full == mid + [recs[j].(dietPlan := plan)]
    ensures full == base + Attached(recs[..j + 1], plan)
  {
    assert Attached([recs[j]], plan) == [recs[j].(dietPlan := plan)];
    assert recs[..j + 1] == recs[..j] + [recs[j]];
    AttachedExtend(full, mid, base, recs[..j], [recs[j]], plan);
  }

  lemma AttachedAppend(a: seq<DietRecommendation>, b: seq<DietRecommendation>, plan: DietPlan)
    ensures Attached(a + b, plan) == Attached(a, plan) + Attached(b, plan)
  {
  }
}
