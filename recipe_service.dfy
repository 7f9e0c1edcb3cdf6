/**
 * Looking up and updating recipes, and the nutrition of one serving of a
 * recipe: the sum over its ingredients of each food's nutrients scaled by
 * quantity / serving size, divided by the number of servings.
 *
 * The recipe repository is the `RecipeStore`, a map from id to recipe.
 */
module RecipeService {
  import opened Wrappers
  import opened Decimal
  import opened Nutrition
  import opened Recipes

  /** Calories and macros of a recipe or of one serving of it. */
  datatype NutritionSummary = NutritionSummary(calories: real, protein: real, carbs: real, fats: real)
  {
    function Plus(other: NutritionSummary): NutritionSummary
    {
      NutritionSummary(calories + other.calories, protein + other.protein, carbs + other.carbs, fats + other.fats)
    }
  }

  const NoNutrients: NutritionSummary := NutritionSummary(0.0, 0.0, 0.0, 0.0)

  class RecipeStore {
    var recipes: map<int, Recipe>

    constructor ()
      ensures recipes == map[]
    {
      recipes := map[];
    }

    /** `getRecipeById`: the stored recipe, or not found. */
    function GetRecipeById(id: int): (r: Result<Recipe>)
      reads this
      ensures r.Ok? <==> id in recipes
      ensures r.Ok? ==> r.value == recipes[id]
      ensures r.Err? ==> r == Err(NotFound("Recipe"))
    {
      if id in recipes then Ok(recipes[id]) else Err(NotFound("Recipe"))
    }

    /**
     * `updateRecipe`: the stored recipe takes the descriptive fields of
     * `updated`, then its ingredients are cleared and refilled, in order,
     * with those of `updated`, each pointing back to the stored recipe. The
     * refill reads `updated`'s list after the clear, so updating a recipe
     * from itself leaves it without ingredients.
     */
    method UpdateRecipe(id: int, updated: Recipe) returns (r: Result<Recipe>)
      modifies if id in recipes then {recipes[id]} else {}
      ensures id !in recipes ==> r == Err(NotFound("Recipe"))
      ensures id in recipes ==>
        var existing := recipes[id];
        r == Ok(existing)
        && existing.id == old(existing.id) && existing.userId == old(existing.userId)
        && existing.name == old(updated.name) && existing.description == old(updated.description)
        && existing.servings == old(updated.servings) && existing.prepTime == old(updated.prepTime)
        && existing.cookTime == old(updated.cookTime) && existing.instructions == old(updated.instructions)
        && existing.imageUrl == old(updated.imageUrl) && existing.isPublic == old(updated.isPublic)
        && existing.ingredients == OwnedBy(if updated == existing then [] else old(updated.ingredients), existing)
    {
      var found := GetRecipeById(id);
      if found.Err? {
        return found;
      }
      var existing: Recipe := found.value;
      CopyDetails(existing, updated);
      existing.ingredients := [];
      var source := updated.ingredients;
      for i := 0 to |source|
        invariant existing.ingredients == OwnedBy(source[..i], existing)
        modifies existing`ingredients
      {
        existing.AddIngredient(source[i]);
        assert source[..i + 1] == source[..i] + [source[i]];
      }
      assert source[..|source|] == source;
      r := Ok(existing);
    }
  }

  /** The descriptive fields of `updated` copied onto `existing`; its id, owner and ingredients are kept. */
  method CopyDetails(existing: Recipe, updated: Recipe)
    modifies existing
    ensures existing.id == old(existing.id) && existing.userId == old(existing.userId)
    ensures existing.ingredients == old(existing.ingredients)
    ensures existing.name == old(updated.name) && existing.description == old(updated.description)
    ensures existing.servings == old(updated.servings) && existing.prepTime == old(updated.prepTime)
    ensures existing.cookTime == old(updated.cookTime) && existing.instructions == old(updated.instructions)
    ensures existing.imageUrl == old(updated.imageUrl) && existing.isPublic == old(updated.isPublic)
    ensures updated != existing ==> unchanged(updated)
  {
    existing.name, existing.description, existing.servings, existing.prepTime :=
      updated.name, updated.description, updated.servings, updated.prepTime;
    existing.cookTime, existing.instructions, existing.imageUrl, existing.isPublic :=
      updated.cookTime, updated.instructions, updated.imageUrl, updated.isPublic;
  }

  /**
   * The share of a serving that the ingredient's quantity makes, rounded to
   * 4 decimals. A food without a serving size is a null dereference and a
   * serving size of zero a division by zero.
   */
  function IngredientRatio(ingredient: RecipeIngredient): (r: Result<real>)
    ensures ingredient.food.servingSize.None? ==> r == Err(NullPointer)
    ensures ingredient.food.servingSize == Some(0.0) ==> r == Err(DivisionByZero)
    ensures r.Ok? <==> ingredient.food.servingSize.Some? && ingredient.food.servingSize.value != 0.0
    ensures r.Ok? ==> r.value == Divide(ingredient.quantity, ingredient.food.servingSize.value, 4)
  {
    var size := ingredient.food.servingSize;
    if size.None? then Err(NullPointer)
    else if size.value == 0.0 then Err(DivisionByZero)
    else Ok(Divide(ingredient.quantity, size.value, 4))
  }

  /**
   * What the ingredient adds to the recipe: each of the food's four values
   * times the ratio, unrounded. A missing nutrient block or value is a null
   * dereference.
   */
  function IngredientNutrition(ingredient: RecipeIngredient): (r: Result<NutritionSummary>)
    ensures IngredientRatio(ingredient).Err? ==> r == IngredientRatio(ingredient).PropagateFailure()
    ensures r.Ok? <==>
      IngredientRatio(ingredient).Ok? && ingredient.food.nutritionalInfo.Some?
      && ingredient.food.nutritionalInfo.value.calories.Some? && ingredient.food.nutritionalInfo.value.protein.Some?
      && ingredient.food.nutritionalInfo.value.carbohydrates.Some? && ingredient.food.nutritionalInfo.value.fats.Some?
    ensures r.Ok? ==>
      var ratio := IngredientRatio(ingredient).value;
      var n := ingredient.food.nutritionalInfo.value;
      r.value == NutritionSummary(Share(n.calories, ratio), Share(n.protein, ratio), Share(n.carbohydrates, ratio),
                                  Share(n.fats, ratio))
  {
    var ratio :- IngredientRatio(ingredient);
    var info := ingredient.food.nutritionalInfo;
    if info.None? then Err(NullPointer)
    else
      var n := info.value;
      if n.calories.None? || n.protein.None? || n.carbohydrates.None? || n.fats.None? then Err(NullPointer)
      else Ok(NutritionSummary(Share(n.calories, ratio), Share(n.protein, ratio), Share(n.carbohydrates, ratio),
                               Share(n.fats, ratio)))
  }

  /** The recipe's totals: the ingredients' contributions added in list order; the first failing one fails the sum. */
  function IngredientsTotal(ingredients: seq<RecipeIngredient>): (r: Result<NutritionSummary>)
  {
    if ingredients == [] then Ok(NoNutrients)
    else
      var prior := IngredientsTotal(ingredients[..|ingredients| - 1]);
      if prior.Err? then prior
      else
        var last := IngredientNutrition(ingredients[|ingredients| - 1]);
        if last.Err? then last else Ok(prior.value.Plus(last.value))
  }

  /** The totals can be formed exactly when every ingredient's contribution can. */
  lemma {:induction false} TotalOkIffEveryIngredient(ingredients: seq<RecipeIngredient>)
    ensures IngredientsTotal(ingredients).Ok? <==>
      forall j :: 0 <= j < |ingredients| ==> IngredientNutrition(ingredients[j]).Ok?
  {
    if ingredients != [] {
      var init := ingredients[..|ingredients| - 1];
      TotalOkIffEveryIngredient(init);
      assert forall j :: 0 <= j < |init| ==> init[j] == ingredients[j];
    }
  }

  /** The totals of two lists of ingredients are the sum of each list's totals. */
  lemma {:induction false} TotalAppend(a: seq<RecipeIngredient>, b: seq<RecipeIngredient>)
    requires IngredientsTotal(a).Ok? && IngredientsTotal(b).Ok?
    ensures IngredientsTotal(a + b) == Ok(IngredientsTotal(a).value.Plus(IngredientsTotal(b).value))
    decreases |b|
  {
    if b == [] {
      assert a + b == a;
    } else {
      var init := b[..|b| - 1];
      assert (a + b)[..|a + b| - 1] == a + init;
      assert (a + b)[|a + b| - 1] == b[|b| - 1];
      assert IngredientsTotal(init).Ok?;
      TotalAppend(a, init);
    }
  }

  /** The order in which two parts of the ingredient list are given does not change the totals. */
  lemma TotalOrderFree(a: seq<RecipeIngredient>, b: seq<RecipeIngredient>)
    requires IngredientsTotal(a).Ok? && IngredientsTotal(b).Ok?
    ensures IngredientsTotal(a + b) == IngredientsTotal(b + a)
  {
    TotalAppend(a, b);
    TotalAppend(b, a);
  }

  /** The totals divided by the servings, each rounded to 2 decimals; a missing count is a null dereference. */
  function PerServing(total: NutritionSummary, servings: Option<int>): (r: Result<NutritionSummary>)
    ensures servings.None? ==> r == Err(NullPointer)
    ensures servings == Some(0) ==> r == Err(DivisionByZero)
    ensures r.Ok? <==> servings.Some? && servings.value != 0
    ensures r.Ok? ==>
      var n := servings.value as real;
      r.value == NutritionSummary(Divide(total.calories, n, 2), Divide(total.protein, n, 2),
                                  Divide(total.carbs, n, 2), Divide(total.fats, n, 2))
  {
    if servings.None? then Err(NullPointer)
    else if servings.value == 0 then Err(DivisionByZero)
    else
      var n := servings.value as real;
      Ok(NutritionSummary(Divide(total.calories, n, 2), Divide(total.protein, n, 2),
                          Divide(total.carbs, n, 2), Divide(total.fats, n, 2)))
  }

  /** `calculateNutritionPerServing`, as a value: the totals, then their share per serving. */
  function NutritionPerServing(ingredients: seq<RecipeIngredient>, servings: Option<int>): (r: Result<NutritionSummary>)
    ensures IngredientsTotal(ingredients).Err? ==> r == IngredientsTotal(ingredients)
    ensures IngredientsTotal(ingredients).Ok? ==> r == PerServing(IngredientsTotal(ingredients).value, servings)
  {
    var total :- IngredientsTotal(ingredients);
    PerServing(total, servings)
  }

  /** A recipe without ingredients has zero of everything per serving, whatever its non-zero servings. */
  lemma EmptyRecipeIsZero(servings: int)
    requires servings != 0
    ensures NutritionPerServing([], Some(servings)) == Ok(NoNutrients)
  {
    var n := servings as real;
    assert 0.0 / n == 0.0;
    RoundZero(2);
  }

  /** A recipe of one serving shows its totals rounded to 2 decimals. */
  lemma OneServingIsTheTotal(ingredients: seq<RecipeIngredient>)
    requires IngredientsTotal(ingredients).Ok?
    ensures var t := IngredientsTotal(ingredients).value;
      NutritionPerServing(ingredients, Some(1))
        == Ok(NutritionSummary(Round(t.calories, 2), Round(t.protein, 2), Round(t.carbs, 2), Round(t.fats, 2)))
  {
    var t := IngredientsTotal(ingredients).value;
    assert t.calories / 1.0 == t.calories && t.protein / 1.0 == t.protein;
    assert t.carbs / 1.0 == t.carbs && t.fats / 1.0 == t.fats;
  }

  /** `calculateNutritionPerServing`: sums the ingredients' contributions in a loop, then divides by the servings. */
  method CalculateNutritionPerServing(recipe: Recipe) returns (r: Result<NutritionSummary>)
    ensures r == NutritionPerServing(recipe.ingredients, recipe.servings)
  {
    var ingredients := recipe.ingredients;
    var total := NoNutrients;
    for i := 0 to |ingredients|
      invariant IngredientsTotal(ingredients[..i]) == Ok(total)
    {
      assert ingredients[..i + 1][..i] == ingredients[..i];
      var contribution := IngredientNutrition(ingredients[i]);
      if contribution.Err? {
        assert ingredients[..i + 1] + ingredients[i + 1..] == ingredients;
        FailureSticks(ingredients[..i + 1], ingredients[i + 1..]);
        return contribution.PropagateFailure();
      }
      total := total.Plus(contribution.value);
    }
    assert ingredients[..|ingredients|] == ingredients;
    r := PerServing(total, recipe.servings);
  }

  /** Once the totals of a prefix fail, the totals of any longer list fail with the same error. */
  lemma {:induction false} FailureSticks(a: seq<RecipeIngredient>, b: seq<RecipeIngredient>)
    requires IngredientsTotal(a).Err?
    ensures IngredientsTotal(a + b) == IngredientsTotal(a)
    decreases |b|
  {
    if b == [] {
      assert a + b == a;
    } else {
      assert (a + b)[..|a + b| - 1] == a + b[..|b| - 1];
      FailureSticks(a, b[..|b| - 1]);
    }
  }
}
