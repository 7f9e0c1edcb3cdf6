/**
 * A user's recipe: descriptive fields, the number of servings it makes and
 * its ingredients, each a quantity of a food.
 */
module Recipes {
  import opened Wrappers
  import opened Nutrition

  /** One ingredient; `recipe` is the back-reference to the owning recipe. */
  datatype RecipeIngredient = RecipeIngredient(id: Option<int>, recipe: Recipe?, food: Food, quantity: real, unit: string)

  /** The ingredients, each pointing back to `owner`. */
  function OwnedBy(ingredients: seq<RecipeIngredient>, owner: Recipe?): (r: seq<RecipeIngredient>)
    ensures |r| == |ingredients|
    ensures forall j :: 0 <= j < |r| ==> r[j] == ingredients[j].(recipe := owner)
  {
    seq(|ingredients|, j requires 0 <= j < |ingredients| => ingredients[j].(recipe := owner))
  }

  class Recipe {
    var id: Option<int>
    var userId: int
    var name: string
    var description: Option<string>
    var servings: Option<int>
    var prepTime: Option<int>
    var cookTime: Option<int>
    var instructions: Option<string>
    var imageUrl: Option<string>
    var isPublic: Option<bool>
    var ingredients: seq<RecipeIngredient>

    /** A recipe not yet stored, with the given fields and no ingredients. */
    constructor (userId: int, name: string, description: Option<string>, servings: Option<int>,
                 prepTime: Option<int>, cookTime: Option<int>, instructions: Option<string>,
                 imageUrl: Option<string>, isPublic: Option<bool>)
      ensures this.id.None? && this.userId == userId && this.name == name && this.description == description
      ensures this.servings == servings && this.prepTime == prepTime && this.cookTime == cookTime
      ensures this.instructions == instructions && this.imageUrl == imageUrl && this.isPublic == isPublic
      ensures this.ingredients == []
    {
      this.id := None;
      this.userId := userId;
      this.name := name;
      this.description := description;
      this.servings := servings;
      this.prepTime := prepTime;
      this.cookTime := cookTime;
      this.instructions := instructions;
      this.imageUrl := imageUrl;
      this.isPublic := isPublic;
      this.ingredients := [];
    }

    /** `addIngredient`: appends the ingredient and points it back to this recipe. */
    method AddIngredient(ingredient: RecipeIngredient)
      modifies this`ingredients
      ensures ingredients == old(ingredients) + [ingredient.(recipe := this)]
    {
      ingredients := ingredients + [ingredient.(recipe := this)];
    }
  }
}
