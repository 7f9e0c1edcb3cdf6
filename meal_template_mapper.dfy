/**
 * Conversions between the meal-template request and response documents and
 * the template entity. A request names each item's food by id only; the
 * entity built from it holds a placeholder food carrying just that id.
 */
module MealTemplateMapper {
  import opened Wrappers
  import opened Nutrition
  import opened MealTemplates

  datatype MealTemplateItemRequestDto = MealTemplateItemRequestDto(foodId: Option<int>, quantity: real, unit: string)

  datatype MealTemplateRequestDto = MealTemplateRequestDto(
    name: string,
    description: Option<string>,
    mealType: Option<MealType>,
    isPublic: Option<bool>,
    items: Option<seq<MealTemplateItemRequestDto>>)

  /** One item as shown: its food and portion, and the food's four values per serving (not scaled to the portion). */
  datatype MealTemplateItemResponseDto = MealTemplateItemResponseDto(
    id: Option<int>,
    foodId: Option<int>,
    foodName: string,
    brand: Option<string>,
    quantity: real,
    unit: string,
    calories: Option<real>,
    protein: Option<real>,
    carbs: Option<real>,
    fats: Option<real>)

  datatype MealTemplateResponseDto = MealTemplateResponseDto(
    id: Option<int>,
    name: string,
    description: Option<string>,
    mealType: Option<MealType>,
    isPublic: Option<bool>,
    items: seq<MealTemplateItemResponseDto>)

  /** The items a request lists; a missing list is none. */
  function Requested(dto: MealTemplateRequestDto): seq<MealTemplateItemRequestDto>
  {
    dto.items.GetOr([])
  }

  /** The unsaved items a request describes, in order, each with a placeholder food. */
  function ItemsOf(ds: seq<MealTemplateItemRequestDto>): (r: seq<MealTemplateItem>)
    ensures |r| == |ds|
    ensures forall j :: 0 <= j < |ds| ==>
      r[j] == MealTemplateItem(None, null, Placeholder(ds[j].foodId), ds[j].quantity, ds[j].unit)
  {
    seq(|ds|, j requires 0 <= j < |ds| => MealTemplateItem(None, null, Placeholder(ds[j].foodId), ds[j].quantity, ds[j].unit))
  }

  /**
   * The template is unsaved, owned by the user, not a system one, holds the
   * request's fields with "not public" as default, and the given items in
   * order, owned by it.
   */
  predicate BuiltWith(t: MealTemplate, dto: MealTemplateRequestDto, userId: int, items: seq<MealTemplateItem>)
    reads t
  {
    t.id.None? && t.userId == Some(userId) && !t.isSystem && t.name == dto.name && t.description == dto.description
    && t.mealType == dto.mealType && t.isPublic == Some(dto.isPublic.GetOr(false))
    && t.items == OwnedItems(items, t)
  }

  /** The template is the one `toEntity` builds from the request for the user: placeholder foods. */
  predicate BuiltFrom(t: MealTemplate, dto: MealTemplateRequestDto, userId: int)
    reads t
  {
    BuiltWith(t, dto, userId, ItemsOf(Requested(dto)))
  }

  /** A new template with the request's fields and default, to which the items are added one by one. */
  method Build(dto: MealTemplateRequestDto, userId: int, items: seq<MealTemplateItem>) returns (t: MealTemplate)
    ensures fresh(t) && BuiltWith(t, dto, userId, items)
  {
    t := new MealTemplate(Some(userId), dto.name, dto.description, dto.mealType, Some(dto.isPublic.GetOr(false)));
    for i := 0 to |items|
      invariant BuiltWith(t, dto, userId, items[..i])
      modifies t`items
    {
      t.AddItem(items[i]);
      assert items[..i + 1] == items[..i] + [items[i]];
    }
    assert items[..|items|] == items;
  }

  /** `toEntity`: a null request maps to null; otherwise a new template built from the request. */
  method ToEntity(dto: Option<MealTemplateRequestDto>, userId: int) returns (t: MealTemplate?)
    ensures t == null <==> dto.None?
    ensures t != null ==> fresh(t) && BuiltFrom(t, dto.value, userId)
  {
    if dto.None? {
      return null;
    }
    t := Build(dto.value, userId, ItemsOf(Requested(dto.value)));
  }

  /**
   * `toItemDto`: the item's id, its food's id, name and brand, the portion,
   * and the food's four values; a food without a nutrient block is a null
   * dereference.
   */
  function ToItemDto(item: MealTemplateItem): (r: Result<MealTemplateItemResponseDto>)
    ensures r.Ok? <==> item.food.nutritionalInfo.Some?
    ensures r.Err? ==> r == Err(NullPointer)
    ensures r.Ok? ==>
      var n := item.food.nutritionalInfo.value;
      r.value.id == item.id && r.value.foodId == item.food.id && r.value.foodName == item.food.name
      && r.value.brand == item.food.brand && r.value.quantity == item.quantity && r.value.unit == item.unit
      && r.value.calories == n.calories && r.value.protein == n.protein && r.value.carbs == n.carbohydrates
      && r.value.fats == n.fats
  {
    if item.food.nutritionalInfo.None? then Err(NullPointer)
    else
      var n := item.food.nutritionalInfo.value;
      Ok(MealTemplateItemResponseDto(item.id, item.food.id, item.food.name, item.food.brand, item.quantity, item.unit,
                                     n.calories, n.protein, n.carbohydrates, n.fats))
  }

  /** Every item's food has a nutrient block. */
  predicate Showable(items: seq<MealTemplateItem>)
  {
    forall j :: 0 <= j < |items| ==> items[j].food.nutritionalInfo.Some?
  }

  /**
   * `toDto`: a null template maps to null; otherwise the template's fields
   * and its items in order. An item whose food has no nutrient block makes
   * the conversion fail.
   */
  function ToDto(entity: MealTemplate?): (r: Result<Option<MealTemplateResponseDto>>)
    reads entity
    ensures entity == null ==> r == Ok(None)
    ensures entity != null ==> (r.Ok? <==> Showable(entity.items))
    ensures r.Err? ==> r == Err(NullPointer)
    ensures entity != null && r.Ok? ==>
      r.value.Some?
      && var d := r.value.value;
      d.id == entity.id && d.name == entity.name && d.description == entity.description
      && d.mealType == entity.mealType && d.isPublic == entity.isPublic
      && |d.items| == |entity.items|
      && forall j :: 0 <= j < |d.items| ==> Ok(d.items[j]) == ToItemDto(entity.items[j])
  {
    if entity == null then Ok(None)
    else
      var items := entity.items;
      if !Showable(items) then Err(NullPointer)
      else
        var shown := seq(|items|, j requires 0 <= j < |items| => ToItemDto(items[j]).value);
        Ok(Some(MealTemplateResponseDto(entity.id, entity.name, entity.description, entity.mealType, entity.isPublic,
                                        shown)))
  }

  /**
   * As written, a template built from a request that lists any item cannot
   * be shown: its items' placeholder foods have no nutrient block.
   */
  lemma RequestBuiltTemplateCannotBeShown(t: MealTemplate, dto: MealTemplateRequestDto, userId: int)
    requires BuiltFrom(t, dto, userId)
    requires |Requested(dto)| > 0
    ensures ToDto(t) == Err(NullPointer)
  {
    assert t.items[0].food == Placeholder(Requested(dto)[0].foodId);
  }

  /** Every requested item names a stored food. */
  predicate AllStored(ds: seq<MealTemplateItemRequestDto>, foods: map<int, Food>)
  {
    forall j :: 0 <= j < |ds| ==> ds[j].foodId.Some? && ds[j].foodId.value in foods
  }

  /** The unsaved items a request describes, each with the stored food of its id. */
  function StoredItemsOf(ds: seq<MealTemplateItemRequestDto>, foods: map<int, Food>): (r: seq<MealTemplateItem>)
    requires AllStored(ds, foods)
    ensures |r| == |ds|
    ensures forall j :: 0 <= j < |ds| ==>
      r[j] == MealTemplateItem(None, null, foods[ds[j].foodId.value], ds[j].quantity, ds[j].unit)
  {
    seq(|ds|, j requires 0 <= j < |ds| => MealTemplateItem(None, null, foods[ds[j].foodId.value], ds[j].quantity, ds[j].unit))
  }

  /**
   * `toEntity` as evidently intended: each requested food is the stored food
   * of that id, and a request naming no food or an unknown one is refused.
   */
  method ToEntityWithStoredFoods(dto: Option<MealTemplateRequestDto>, userId: int, foods: map<int, Food>)
    returns (r: Result<MealTemplate?>)
    ensures dto.None? ==> r == Ok(null)
    ensures dto.Some? && !AllStored(Requested(dto.value), foods) ==> r == Err(NotFound("Food"))
    ensures dto.Some? && AllStored(Requested(dto.value), foods) ==>
      r.Ok? && r.value != null && fresh(r.value)
      && BuiltWith(r.value, dto.value, userId, StoredItemsOf(Requested(dto.value), foods))
  {
    if dto.None? {
      return Ok(null);
    }
    var requested := Requested(dto.value);
    if !AllStored(requested, foods) {
      return Err(NotFound("Food"));
    }
    var t := Build(dto.value, userId, StoredItemsOf(requested, foods));
    r := Ok(t);
  }

  /**
   * A template built with the stored foods can be shown whenever every
   * requested food has a nutrient block, and the response gives back the
   * request: its fields, the visibility default, and each requested food
   * (with its stored name, brand and nutrient values), quantity and unit in order.
   */
  lemma StoredFoodsShowRequest(t: MealTemplate, dto: MealTemplateRequestDto, userId: int, foods: map<int, Food>)
    requires AllStored(Requested(dto), foods)
    requires BuiltWith(t, dto, userId, StoredItemsOf(Requested(dto), foods))
    requires forall j :: 0 <= j < |Requested(dto)| ==> foods[Requested(dto)[j].foodId.value].nutritionalInfo.Some?
    ensures ToDto(t).Ok?
    ensures var d := ToDto(t).value.value;
      d.id.None? && d.name == dto.name && d.description == dto.description && d.mealType == dto.mealType
      && d.isPublic == Some(dto.isPublic.GetOr(false))
      && |d.items| == |Requested(dto)|
      && forall j :: 0 <= j < |d.items| ==>
           var asked := Requested(dto)[j];
           var food := foods[asked.foodId.value];
           d.items[j].id.None? && d.items[j].foodId == food.id && d.items[j].foodName == food.name
           && d.items[j].brand == food.brand
           && d.items[j].quantity == asked.quantity && d.items[j].unit == asked.unit
           && d.items[j].calories == food.nutritionalInfo.value.calories
           && d.items[j].protein == food.nutritionalInfo.value.protein
           && d.items[j].carbs == food.nutritionalInfo.value.carbohydrates
           && d.items[j].fats == food.nutritionalInfo.value.fats
  {
    assert Showable(t.items) by {
      forall j | 0 <= j < |t.items|
        ensures t.items[j].food.nutritionalInfo.Some?
      {
        assert t.items[j].food == foods[Requested(dto)[j].foodId.value];
      }
    }
  }
}
