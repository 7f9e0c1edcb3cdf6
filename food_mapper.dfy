/**
 * Conversions between the food request and response documents and the food
 * entity. The sixteen nutrient fields travel one for one; the category of a
 * request is not carried into the entity.
 */
module FoodMapper {
  import opened Wrappers
  import opened Nutrition

  /** The nutrient block of a request: sixteen nullable values per serving. */
  datatype NutrientsDto = NutrientsDto(
    calories: Option<real>,
    protein: Option<real>,
    carbohydrates: Option<real>,
    fats: Option<real>,
    fiber: Option<real>,
    sugars: Option<real>,
    saturatedFats: Option<real>,
    sodium: Option<real>,
    calcium: Option<real>,
    iron: Option<real>,
    potassium: Option<real>,
    vitaminA: Option<real>,
    vitaminC: Option<real>,
    vitaminD: Option<real>,
    vitaminE: Option<real>,
    vitaminB12: Option<real>)

  /** What a client sends to create or update a food; `category` is the enum constant's name. */
  datatype FoodRequestDto = FoodRequestDto(
    name: string,
    brand: Option<string>,
    barcode: Option<string>,
    servingSize: Option<real>,
    servingUnit: Option<string>,
    category: Option<string>,
    nutritionalInfo: Option<NutrientsDto>)

  /** The nutrient block of a response: the stored block's id and its sixteen values. */
  datatype NutritionalInfoDto = NutritionalInfoDto(
    id: Option<int>,
    calories: Option<real>,
    protein: Option<real>,
    carbohydrates: Option<real>,
    fats: Option<real>,
    fiber: Option<real>,
    sugars: Option<real>,
    saturatedFats: Option<real>,
    sodium: Option<real>,
    calcium: Option<real>,
    iron: Option<real>,
    potassium: Option<real>,
    vitaminA: Option<real>,
    vitaminC: Option<real>,
    vitaminD: Option<real>,
    vitaminE: Option<real>,
    vitaminB12: Option<real>)

  /** What the service returns for a food. */
  datatype FoodResponseDto = FoodResponseDto(
    id: Option<int>,
    name: string,
    brand: Option<string>,
    barcode: Option<string>,
    servingSize: Option<real>,
    servingUnit: Option<string>,
    category: Option<string>,
    nutritionalInfo: Option<NutritionalInfoDto>)

  /** `toNutritionalInfoEntity`: a new nutrient block (no id yet) with the request's sixteen values. */
  function ToNutritionalInfoEntity(dto: NutrientsDto): NutritionalInfo
  {
    NutritionalInfo(None, dto.calories, dto.protein, dto.carbohydrates, dto.fats, dto.fiber, dto.sugars,
                    dto.saturatedFats, dto.sodium, dto.calcium, dto.iron, dto.potassium, dto.vitaminA,
                    dto.vitaminC, dto.vitaminD, dto.vitaminE, dto.vitaminB12)
  }

  /** `toNutritionalInfoDto`: the block's id and sixteen values. */
  function ToNutritionalInfoDto(n: NutritionalInfo): NutritionalInfoDto
  {
    NutritionalInfoDto(n.id, n.calories, n.protein, n.carbohydrates, n.fats, n.fiber, n.sugars, n.saturatedFats,
                       n.sodium, n.calcium, n.iron, n.potassium, n.vitaminA, n.vitaminC, n.vitaminD, n.vitaminE,
                       n.vitaminB12)
  }

  /** `updateNutritionalInfoFromDto`: the block keeps its id and takes the request's sixteen values. */
  function UpdateNutritionalInfo(dto: NutrientsDto, n: NutritionalInfo): NutritionalInfo
  {
    ToNutritionalInfoEntity(dto).(id := n.id)
  }

  /** The request's sixteen nutrient values, as they read in a response block. */
  predicate CarriesNutrients(d: NutritionalInfoDto, n: NutrientsDto)
  {
    d.calories == n.calories && d.protein == n.protein && d.carbohydrates == n.carbohydrates && d.fats == n.fats
    && d.fiber == n.fiber && d.sugars == n.sugars && d.saturatedFats == n.saturatedFats && d.sodium == n.sodium
    && d.calcium == n.calcium && d.iron == n.iron && d.potassium == n.potassium && d.vitaminA == n.vitaminA
    && d.vitaminC == n.vitaminC && d.vitaminD == n.vitaminD && d.vitaminE == n.vitaminE
    && d.vitaminB12 == n.vitaminB12
  }

  /** The nutrient values of a stored block equal those of a request block. */
  predicate SameNutrients(e: NutritionalInfo, n: NutrientsDto)
  {
    CarriesNutrients(ToNutritionalInfoDto(e), n)
  }

  /**
   * `toEntity`: a new food (no id, no alternative units) with the request's
   * name, brand, barcode, serving size and unit, and a nutrient block only
   * when the request has one. A null request maps to null.
   */
  function ToEntity(dto: Option<FoodRequestDto>): (r: Option<Food>)
    ensures r.None? <==> dto.None?
    ensures r.Some? ==>
      var d := dto.value;
      r.value.id.None? && r.value.name == d.name && r.value.brand == d.brand && r.value.barcode == d.barcode
      && r.value.servingSize == d.servingSize && r.value.servingUnit == d.servingUnit
      && r.value.servingUnits == []
      && (r.value.nutritionalInfo.Some? <==> d.nutritionalInfo.Some?)
      && (d.nutritionalInfo.Some? ==>
            r.value.nutritionalInfo.value.id.None? && SameNutrients(r.value.nutritionalInfo.value, d.nutritionalInfo.value))
  {
    if dto.None? then None
    else
      var d := dto.value;
      var info := if d.nutritionalInfo.Some? then Some(ToNutritionalInfoEntity(d.nutritionalInfo.value)) else None;
      Some(Food(None, d.name, d.brand, d.barcode, d.servingSize, d.servingUnit, info, []))
  }

  /**
   * `toDto`: the food's id, scalar fields and nutrient block (when it has
   * one); the category is left empty. A null food maps to null.
   */
  function ToDto(food: Option<Food>): (r: Option<FoodResponseDto>)
    ensures r.None? <==> food.None?
    ensures r.Some? ==>
      var f := food.value;
      r.value.id == f.id && r.value.name == f.name && r.value.brand == f.brand && r.value.barcode == f.barcode
      && r.value.servingSize == f.servingSize && r.value.servingUnit == f.servingUnit && r.value.category.None?
      && (r.value.nutritionalInfo.Some? <==> f.nutritionalInfo.Some?)
      && (f.nutritionalInfo.Some? ==> r.value.nutritionalInfo.value.id == f.nutritionalInfo.value.id)
  {
    if food.None? then None
    else
      var f := food.value;
      var info := if f.nutritionalInfo.Some? then Some(ToNutritionalInfoDto(f.nutritionalInfo.value)) else None;
      Some(FoodResponseDto(f.id, f.name, f.brand, f.barcode, f.servingSize, f.servingUnit, None, info))
  }

  /** The response to a request turned into a food reproduces the request, except for the category. */
  predicate Reproduces(r: FoodResponseDto, d: FoodRequestDto)
  {
    r.name == d.name && r.brand == d.brand && r.barcode == d.barcode && r.servingSize == d.servingSize
    && r.servingUnit == d.servingUnit && r.category.None?
    && (r.nutritionalInfo.Some? <==> d.nutritionalInfo.Some?)
    && (d.nutritionalInfo.Some? ==> CarriesNutrients(r.nutritionalInfo.value, d.nutritionalInfo.value))
  }

  /** `toDto(toEntity(d))` gives back every scalar and nutrient field of `d`; only the category is lost. */
  lemma RoundTrip(d: FoodRequestDto)
    ensures ToDto(ToEntity(Some(d))).Some? && Reproduces(ToDto(ToEntity(Some(d))).value, d)
    ensures d.category.Some? ==> ToDto(ToEntity(Some(d))).value.category != d.category
  {
  }

  /**
   * `updateEntityFromDto`: the food takes the request's five scalar fields;
   * a request nutrient block is copied into the food's block, which keeps its
   * id, or becomes a new block when the food has none; a request without one
   * leaves the food's block alone. A null request or food changes nothing.
   */
  function UpdateEntityFromDto(dto: Option<FoodRequestDto>, entity: Option<Food>): (r: Option<Food>)
    ensures dto.None? || entity.None? ==> r == entity
    ensures dto.Some? && entity.Some? ==>
      var d, e := dto.value, entity.value;
      r.Some? && r.value.id == e.id && r.value.servingUnits == e.servingUnits
      && r.value.name == d.name && r.value.brand == d.brand && r.value.barcode == d.barcode
      && r.value.servingSize == d.servingSize && r.value.servingUnit == d.servingUnit
      && (d.nutritionalInfo.None? ==> r.value.nutritionalInfo == e.nutritionalInfo)
      && (d.nutritionalInfo.Some? ==>
            r.value.nutritionalInfo.Some? && SameNutrients(r.value.nutritionalInfo.value, d.nutritionalInfo.value)
            && r.value.nutritionalInfo.value.id == (if e.nutritionalInfo.Some? then e.nutritionalInfo.value.id else None))
  {
    if dto.None? || entity.None? then entity
    else
      var d, e := dto.value, entity.value;
      var info :=
        if d.nutritionalInfo.None? then e.nutritionalInfo
        else if e.nutritionalInfo.None? then Some(ToNutritionalInfoEntity(d.nutritionalInfo.value))
        else Some(UpdateNutritionalInfo(d.nutritionalInfo.value, e.nutritionalInfo.value));
      Some(e.(name := d.name, brand := d.brand, barcode := d.barcode, servingSize := d.servingSize,
              servingUnit := d.servingUnit, nutritionalInfo := info))
  }

  /** Updating a food from a request and showing it reproduces the request, with the food's own id. */
  lemma UpdateThenShow(d: FoodRequestDto, e: Food)
    ensures var r := ToDto(UpdateEntityFromDto(Some(d), Some(e)));
      r.Some? && r.value.id == e.id
      && (d.nutritionalInfo.Some? ==> Reproduces(r.value, d))
  {
  }

  /** Applying the same request twice changes nothing the first application did not. */
  lemma UpdateIdempotent(d: FoodRequestDto, e: Food)
    ensures var once := UpdateEntityFromDto(Some(d), Some(e));
      UpdateEntityFromDto(Some(d), once) == once
  {
  }
}
