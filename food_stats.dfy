/**
 * A user's favourite foods and most frequently logged foods.
 *
 * The favourites table holds one row per (user, food) pair, a constraint the
 * table declares, so it is modelled as a set of pairs. The food repository
 * is a map from id to food; the ranked ids of the frequency query are an
 * input.
 */
module FoodStats {
  import opened Wrappers
  import opened Nutrition
  import opened FoodMapper

  class FavoriteStore {
    /** The (userId, foodId) pairs marked as favourite. */
    var favorites: set<(int, int)>

    constructor ()
      ensures favorites == {}
    {
      favorites := {};
    }

    /**
     * `addFavorite`: an unknown food is not found; a pair already marked is
     * left as it is; otherwise the pair is added.
     */
    method AddFavorite(foodId: int, userId: int, foods: map<int, Food>) returns (r: Result<()>)
      modifies this
      ensures r.Err? <==> foodId !in foods
      ensures r.Err? ==> r == Err(NotFound("Food")) && favorites == old(favorites)
      ensures r.Ok? ==> favorites == old(favorites) + {(userId, foodId)}
      ensures (userId, foodId) in old(favorites) ==> favorites == old(favorites)
    {
      if foodId !in foods {
        return Err(NotFound("Food"));
      }
      if (userId, foodId) in favorites {
        return Ok(());
      }
      favorites := favorites + {(userId, foodId)};
      r := Ok(());
    }

    /** `removeFavorite`: a pair not marked is not found; otherwise the pair is removed. */
    method RemoveFavorite(foodId: int, userId: int) returns (r: Result<()>)
      modifies this
      ensures r.Ok? <==> (userId, foodId) in old(favorites)
      ensures r.Err? ==> r == Err(NotFound("Favorite")) && favorites == old(favorites)
      ensures r.Ok? ==> favorites == old(favorites) - {(userId, foodId)}
    {
      if (userId, foodId) !in favorites {
        return Err(NotFound("Favorite"));
      }
      favorites := favorites - {(userId, foodId)};
      r := Ok(());
    }
  }

  /** The ranked ids that still have a food, in rank order. */
  function Known(ids: seq<int>, foods: map<int, Food>): (r: seq<int>)
    ensures |r| <= |ids|
    ensures forall j :: 0 <= j < |r| ==> r[j] in foods
  {
    if ids == [] then []
    else
      var rest := Known(ids[..|ids| - 1], foods);
      if ids[|ids| - 1] in foods then rest + [ids[|ids| - 1]] else rest
  }

  /** An id is kept exactly when it is ranked and has a food. */
  lemma {:induction false} KnownMembers(ids: seq<int>, foods: map<int, Food>, id: int)
    ensures id in Known(ids, foods) <==> id in ids && id in foods
  {
    if ids != [] {
      KnownMembers(ids[..|ids| - 1], foods, id);
      assert ids == ids[..|ids| - 1] + [ids[|ids| - 1]];
    }
  }

  /** Keeping the known ids of two runs of ranks is keeping those of each, in order: ranks are never reordered. */
  lemma {:induction false} KnownAppend(a: seq<int>, b: seq<int>, foods: map<int, Food>)
    ensures Known(a + b, foods) == Known(a, foods) + Known(b, foods)
    decreases |b|
  {
    if b == [] {
      assert a + b == a;
    } else {
      assert (a + b)[..|a + b| - 1] == a + b[..|b| - 1];
      KnownAppend(a, b[..|b| - 1], foods);
    }
  }

  /**
   * `getFrequentFoods`: the foods of the ranked ids, most frequent first,
   * skipping ids whose food no longer exists.
   */
  function GetFrequentFoods(rankedIds: seq<int>, foods: map<int, Food>): (r: seq<FoodResponseDto>)
    ensures |r| == |Known(rankedIds, foods)|
    ensures forall j :: 0 <= j < |r| ==> Some(r[j]) == ToDto(Some(foods[Known(rankedIds, foods)[j]]))
  {
    var known := Known(rankedIds, foods);
    seq(|known|, j requires 0 <= j < |known| => ToDto(Some(foods[known[j]])).value)
  }

  /**
   * With every food stored under its own id, the frequent foods are exactly
   * the ranked ids that have a food, in rank order, each shown with that id.
   */
  lemma FrequentFoodsFollowRanking(rankedIds: seq<int>, foods: map<int, Food>, j: nat)
    requires forall id :: id in foods ==> foods[id].id == Some(id)
    requires j < |GetFrequentFoods(rankedIds, foods)|
    ensures GetFrequentFoods(rankedIds, foods)[j].id == Some(Known(rankedIds, foods)[j])
    ensures Known(rankedIds, foods)[j] in rankedIds
  {
    KnownMembers(rankedIds, foods, Known(rankedIds, foods)[j]);
  }
}
