/**
 * Conversions between the recipe request and response documents and the
 * recipe entity. A request names each ingredient's food by id only; the
 * entity built from it holds a placeholder food carrying just that id.
 */
module RecipeMapper {
  import opened Wrappers
  import opened Nutrition
  import opened Recipes
  import opened RecipeService

  datatype RecipeIngredientRequestDto = RecipeIngredientRequestDto(foodId: Option<int>, quantity: real, unit: string)

  datatype RecipeRequestDto = RecipeRequestDto(
    name: string,
    description: Option<string>,
    servings: Option<int>,
    prepTime: Option<int>,
    cookTime: Option<int>,
    instructions: Option<string>,
    imageUrl: Option<string>,
    isPublic: Option<bool>,
    ingredients: Option<seq<RecipeIngredientRequestDto>>)

  datatype RecipeIngredientResponseDto = RecipeIngredientResponseDto(
    id: Option<int>, foodId: Option<int>, foodName: string, quantity: real, unit: string)

  datatype RecipeResponseDto = RecipeResponseDto(
    id: Option<int>,
    name: string,
    description: Option<string>,
    servings: Option<int>,
    prepTime: Option<int>,
    cookTime: Option<int>,
    instructions: Option<string>,
    imageUrl: Option<string>,
    isPublic: Option<bool>,
    ingredients: seq<RecipeIngredientResponseDto>,
    nutritionPerServing: NutritionSummary)

  /** The ingredients a request lists; a missing list is none. */
  function Requested(dto: RecipeRequestDto): seq<RecipeIngredientRequestDto>
  {
    dto.ingredients.GetOr([])
  }

  /** The unsaved ingredients a request describes, in order, each with a placeholder food. */
  function IngredientsOf(ds: seq<RecipeIngredientRequestDto>): (r: seq<RecipeIngredient>)
    ensures |r| == |ds|
    ensures forall j :: 0 <= j < |ds| ==>
      r[j] == RecipeIngredient(None, null, Placeholder(ds[j].foodId), ds[j].quantity, ds[j].unit)
  {
    seq(|ds|, j requires 0 <= j < |ds| => RecipeIngredient(None, null, Placeholder(ds[j].foodId), ds[j].quantity, ds[j].unit))
  }

  /**
   * The recipe is unsaved, holds the request's fields with one serving and
   * not public as defaults, and the given ingredients in order, owned by it.
   */
  predicate BuiltWith(r: Recipe, dto: RecipeRequestDto, userId: int, ingredients: seq<RecipeIngredient>)
    reads r
  {
    r.id.None? && r.userId == userId && r.name == dto.name && r.description == dto.description
    && r.servings == Some(dto.servings.GetOr(1)) && r.prepTime == dto.prepTime && r.cookTime == dto.cookTime
    && r.instructions == dto.instructions && r.imageUrl == dto.imageUrl
    && r.isPublic == Some(dto.isPublic.GetOr(false))
    && r.ingredients == OwnedBy(ingredients, r)
  }

  /** The recipe is the one `toEntity` builds from the request for the user: placeholder foods. */
  predicate BuiltFrom(r: Recipe, dto: RecipeRequestDto, userId: int)
    reads r
  {
    BuiltWith(r, dto, userId, IngredientsOf(Requested(dto)))
  }

  /** A new recipe with the request's fields and defaults, to which the ingredients are added one by one. */
  method Build(dto: RecipeRequestDto, userId: int, ingredients: seq<RecipeIngredient>) returns (recipe: Recipe)
    ensures fresh(recipe) && BuiltWith(recipe, dto, userId, ingredients)
  {
    recipe := new Recipe(userId, dto.name, dto.description, Some(dto.servings.GetOr(1)), dto.prepTime, dto.cookTime,
                         dto.instructions, dto.imageUrl, Some(dto.isPublic.GetOr(false)));
    for i := 0 to |ingredients|
      invariant BuiltWith(recipe, dto, userId, ingredients[..i])
      modifies recipe`ingredients
    {
      recipe.AddIngredient(ingredients[i]);
      assert ingredients[..i + 1] == ingredients[..i] + [ingredients[i]];
    }
    assert ingredients[..|ingredients|] == ingredients;
  }

  /** `toEntity`: a null request maps to null; otherwise a new recipe built from the request. */
  method ToEntity(dto: Option<RecipeRequestDto>, userId: int) returns (r: Recipe?)
    ensures r == null <==> dto.None?
    ensures r != null ==> fresh(r) && BuiltFrom(r, dto.value, userId)
  {
    if dto.None? {
      return null;
    }
    r := Build(dto.value, userId, IngredientsOf(Requested(dto.value)));
  }

  /** `toIngredientDto`: the ingredient's id, its food's id and name, quantity and unit. */
  function ToIngredientDto(i: RecipeIngredient): (r: RecipeIngredientResponseDto)
    ensures r.id == i.id && r.foodId == i.food.id && r.foodName == i.food.name
    ensures r.quantity == i.quantity && r.unit == i.unit
  {
    RecipeIngredientResponseDto(i.id, i.food.id, i.food.name, i.quantity, i.unit)
  }

  /**
   * `toDto`: a null recipe maps to null; otherwise the recipe's fields, its
   * ingredients in order and the nutrition of one serving. When that
   * nutrition cannot be computed the conversion fails with the same error.
   */
  function ToDto(entity: Recipe?): (r: Result<Option<RecipeResponseDto>>)
    reads entity
    ensures entity == null ==> r == Ok(None)
    ensures entity != null ==>
      (r.Err? <==> NutritionPerServing(entity.ingredients, entity.servings).Err?)
      && (r.Err? ==> r.error == NutritionPerServing(entity.ingredients, entity.servings).error)
    ensures entity != null && r.Ok? ==>
      r.value.Some?
      && var d := r.value.value;
      d.id == entity.id && d.name == entity.name && d.description == entity.description
      && d.servings == entity.servings && d.prepTime == entity.prepTime && d.cookTime == entity.cookTime
      && d.instructions == entity.instructions && d.imageUrl == entity.imageUrl && d.isPublic == entity.isPublic
      && |d.ingredients| == |entity.ingredients|
      && (forall j :: 0 <= j < |d.ingredients| ==> d.ingredients[j] == ToIngredientDto(entity.ingredients[j]))
      && d.nutritionPerServing == NutritionPerServing(entity.ingredients, entity.servings).value
  {
    if entity == null then Ok(None)
    else
      var nutrition :- NutritionPerServing(entity.ingredients, entity.servings);
      var items := entity.ingredients;
      var ingredients := seq(|items|, j requires 0 <= j < |items| => ToIngredientDto(items[j]));
      Ok(Some(RecipeResponseDto(entity.id, entity.name, entity.description, entity.servings, entity.prepTime,
                                entity.cookTime, entity.instructions, entity.imageUrl, entity.isPublic,
                                ingredients, nutrition)))
  }

  /**
   * As written, a recipe built from a request that lists any ingredient
   * cannot be shown: its first ingredient's placeholder food has no serving
   * size, so the nutrition per serving dereferences null.
   */
  lemma RequestBuiltRecipeCannotBeShown(r: Recipe, dto: RecipeRequestDto, userId: int)
    requires BuiltFrom(r, dto, userId)
    requires |Requested(dto)| > 0
    ensures ToDto(r) == Err(NullPointer)
  {
    var ings := r.ingredients;
    assert ings[0].food == Placeholder(Requested(dto)[0].foodId);
    assert IngredientNutrition(ings[0]) == Err(NullPointer);
    assert IngredientsTotal([ings[0]]) == Err(NullPointer) by {
      assert [ings[0]][..0] == [];
    }
    assert [ings[0]] + ings[1..] == ings;
    FailureSticks([ings[0]], ings[1..]);
  }

  /** Every requested ingredient names a stored food. */
  predicate AllStored(ds: seq<RecipeIngredientRequestDto>, foods: map<int, Food>)
  {
    forall j :: 0 <= j < |ds| ==> ds[j].foodId.Some? && ds[j].foodId.value in foods
  }

  /** The unsaved ingredients a request describes, each with the stored food of its id. */
  function StoredIngredientsOf(ds: seq<RecipeIngredientRequestDto>, foods: map<int, Food>): (r: seq<RecipeIngredient>)
    requires AllStored(ds, foods)
    ensures |r| == |ds|
    ensures forall j :: 0 <= j < |ds| ==>
      r[j] == RecipeIngredient(None, null, foods[ds[j].foodId.value], ds[j].quantity, ds[j].unit)
  {
    seq(|ds|, j requires 0 <= j < |ds| => RecipeIngredient(None, null, foods[ds[j].foodId.value], ds[j].quantity, ds[j].unit))
  }

  /**
   * `toEntity` as evidently intended: each requested food is the stored food
   * of that id, and a request naming no food or an unknown one is refused.
   */
  method ToEntityWithStoredFoods(dto: Option<RecipeRequestDto>, userId: int, foods: map<int, Food>)
    returns (r: Result<Recipe?>)
    ensures dto.None? ==> r == Ok(null)
    ensures dto.Some? && !AllStored(Requested(dto.value), foods) ==> r == Err(NotFound("Food"))
    ensures dto.Some? && AllStored(Requested(dto.value), foods) ==>
      r.Ok? && r.value != null && fresh(r.value)
      && BuiltWith(r.value, dto.value, userId, StoredIngredientsOf(Requested(dto.value), foods))
  {
    if dto.None? {
      return Ok(null);
    }
    var requested := Requested(dto.value);
    if !AllStored(requested, foods) {
      return Err(NotFound("Food"));
    }
    var recipe := Build(dto.value, userId, StoredIngredientsOf(requested, foods));
    r := Ok(recipe);
  }

  /** The food has what the nutrition per serving reads: a non-zero serving size and the four values. */
  predicate Measurable(f: Food)
  {
    f.servingSize.Some? && f.servingSize.value != 0.0 && f.nutritionalInfo.Some?
    && f.nutritionalInfo.value.calories.Some? && f.nutritionalInfo.value.protein.Some?
    && f.nutritionalInfo.value.carbohydrates.Some? && f.nutritionalInfo.value.fats.Some?
  }

  /**
   * A recipe built with the stored foods can be shown whenever every
   * requested food is measurable and the servings are not zero, and the
   * response gives back the request: its name, description, times,
   * instructions and image, the defaults for servings and visibility, and
   * each requested food (with its stored name), quantity and unit in order.
   */
  lemma {:induction false} StoredFoodsShowRequest(r: Recipe, dto: RecipeRequestDto, userId: int, foods: map<int, Food>)
    requires AllStored(Requested(dto), foods)
    requires BuiltWith(r, dto, userId, StoredIngredientsOf(Requested(dto), foods))
    requires forall j :: 0 <= j < |Requested(dto)| ==> Measurable(foods[Requested(dto)[j].foodId.value])
    requires dto.servings != Some(0)
    ensures ToDto(r).Ok?
    ensures var d := ToDto(r).value.value;
      d.id.None? && d.name == dto.name && d.description == dto.description
      && d.servings == Some(dto.servings.GetOr(1)) && d.isPublic == Some(dto.isPublic.GetOr(false))
      && d.prepTime == dto.prepTime && d.cookTime == dto.cookTime
      && d.instructions == dto.instructions && d.imageUrl == dto.imageUrl
      && |d.ingredients| == |Requested(dto)|
      && forall j :: 0 <= j < |d.ingredients| ==>
           var asked := Requested(dto)[j];
           d.ingredients[j].id.None? && d.ingredients[j].foodId == foods[asked.foodId.value].id
           && d.ingredients[j].foodName == foods[asked.foodId.value].name
           && d.ingredients[j].quantity == asked.quantity && d.ingredients[j].unit == asked.unit
  {
    var ings := r.ingredients;
    forall j | 0 <= j < |ings|
      ensures IngredientNutrition(ings[j]).Ok?
    {
      assert ings[j].food == foods[Requested(dto)[j].foodId.value];
    }
    TotalOkIffEveryIngredient(ings);
  }
}
