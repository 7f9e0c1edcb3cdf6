/**
 * The food catalogue: creating, updating and deleting foods under the rule
 * that a barcode identifies at most one food, and the nutrition of a portion
 * given in grams or in one of the food's alternative serving units.
 *
 * The food repository is the `FoodStore`. The barcode column is declared
 * unique, so a save that would give two foods the same barcode is refused by
 * the database even where the service's own check does not run (a blank
 * barcode). A failing operation changes nothing.
 */
module FoodService {
  import opened Wrappers
  import opened Decimal
  import opened Nutrition
  import opened FoodMapper

  /** `Character.isWhitespace`. */
  predicate IsWhitespace(c: char)
  {
    c == ' ' || '\t' <= c <= '\r' || '\U{1C}' <= c <= '\U{1F}'
    || c == '\U{1680}' || '\U{2000}' <= c <= '\U{2006}' || '\U{2008}' <= c <= '\U{200A}'
    || c == '\U{2028}' || c == '\U{2029}' || c == '\U{205F}' || c == '\U{3000}'
  }

  /** `String.isBlank`: empty or whitespace only. */
  predicate IsBlank(s: string)
  {
    forall i :: 0 <= i < |s| ==> IsWhitespace(s[i])
  }

  /** The barcode is given and not blank, so the service checks that it is free. */
  predicate Checked(barcode: Option<string>)
  {
    barcode.Some? && !IsBlank(barcode.value)
  }

  /** `existsByBarcode`. */
  predicate BarcodeTaken(foods: map<int, Food>, barcode: string)
  {
    exists id :: id in foods && foods[id].barcode == Some(barcode)
  }

  /** Some food other than `self` already has the barcode, so the unique column refuses the save. */
  predicate ClashesWithOther(foods: map<int, Food>, self: int, barcode: Option<string>)
  {
    barcode.Some? && exists id :: id in foods && id != self && foods[id].barcode == barcode
  }

  /** The message of the barcode check. */
  function DuplicateBarcode(barcode: string): Error
  {
    Validation("Food with barcode '" + barcode + "' already exists")
  }

  /**
   * Every food sits under its own id, below the next id, and its nutrient
   * block, if any, has an id below the next block id; no two foods share a barcode.
   */
  predicate CatalogueInvariant(foods: map<int, Food>, nextId: int, nextInfoId: int)
  {
    nextId >= 1 && nextInfoId >= 1
    && (forall id :: id in foods ==> foods[id].id == Some(id) && 1 <= id < nextId)
    && (forall id :: id in foods && foods[id].nutritionalInfo.Some? ==>
          foods[id].nutritionalInfo.value.id.Some? && 1 <= foods[id].nutritionalInfo.value.id.value < nextInfoId)
    && (forall i, j :: i in foods && j in foods && i != j && foods[i].barcode.Some? ==>
          foods[i].barcode != foods[j].barcode)
  }

  /** A food as the repository stores it: under `id`, its new nutrient block numbered `infoId`. */
  function Stored(food: Food, id: int, infoId: int): (f: Food)
    ensures f.id == Some(id) && f.barcode == food.barcode
    ensures f.nutritionalInfo.Some? <==> food.nutritionalInfo.Some?
    ensures f.nutritionalInfo.Some? && food.nutritionalInfo.value.id.Some? ==>
      f.nutritionalInfo.value == food.nutritionalInfo.value
    ensures f.nutritionalInfo.Some? && food.nutritionalInfo.value.id.None? ==>
      f.nutritionalInfo.value == food.nutritionalInfo.value.(id := Some(infoId))
  {
    var info :=
      if food.nutritionalInfo.Some? && food.nutritionalInfo.value.id.None?
      then Some(food.nutritionalInfo.value.(id := Some(infoId)))
      else food.nutritionalInfo;
    food.(id := Some(id), nutritionalInfo := info)
  }

  class FoodStore {
    var foods: map<int, Food>
    var nextId: int
    var nextInfoId: int

    constructor ()
      ensures foods == map[] && Valid()
    {
      foods := map[];
      nextId := 1;
      nextInfoId := 1;
    }

    predicate Valid()
      reads this
    {
      CatalogueInvariant(foods, nextId, nextInfoId)
    }

    /**
     * `createFood`: a non-blank barcode that some food already has is
     * refused; otherwise the request becomes a new food under the next id.
     */
    method CreateFood(dto: FoodRequestDto) returns (r: Result<FoodResponseDto>)
      requires Valid()
      modifies this
      ensures Valid()
      ensures r.Err? ==> foods == old(foods)
      ensures Checked(dto.barcode) && old(BarcodeTaken(foods, dto.barcode.value)) ==>
        r == Err(DuplicateBarcode(dto.barcode.value))
      ensures r.Ok? <==> !old(ClashesWithOther(foods, nextId, dto.barcode))
      ensures r.Ok? ==>
        var food := Stored(ToEntity(Some(dto)).value, old(nextId), old(nextInfoId));
        foods == old(foods)[old(nextId) := food] && r == Ok(ToDto(Some(food)).value)
    {
      if Checked(dto.barcode) && BarcodeTaken(foods, dto.barcode.value) {
        return Err(DuplicateBarcode(dto.barcode.value));
      }
      if ClashesWithOther(foods, nextId, dto.barcode) {
        return Err(ConstraintViolation("Duplicate barcode"));
      }
      var food := Stored(ToEntity(Some(dto)).value, nextId, nextInfoId);
      foods := foods[nextId := food];
      nextId := nextId + 1;
      nextInfoId := nextInfoId + 1;
      r := Ok(ToDto(Some(food)).value);
    }

    /**
     * `updateFood`: a missing food is not found; a non-blank barcode that
     * differs from the food's own and that some food already has is refused;
     * otherwise the food takes the request's fields and keeps its id.
     */
    method UpdateFood(id: int, dto: FoodRequestDto) returns (r: Result<FoodResponseDto>)
      requires Valid()
      modifies this
      ensures Valid() && nextId == old(nextId)
      ensures r.Err? ==> foods == old(foods)
      ensures id !in old(foods) ==> r == Err(NotFound("Food"))
      ensures id in old(foods) && Checked(dto.barcode) && dto.barcode != old(foods[id].barcode)
              && old(BarcodeTaken(foods, dto.barcode.value)) ==>
        r == Err(DuplicateBarcode(dto.barcode.value))
      ensures r.Ok? <==> id in old(foods) && !old(ClashesWithOther(foods, id, dto.barcode))
      ensures r.Ok? ==>
        var food := Stored(UpdateEntityFromDto(Some(dto), Some(old(foods[id]))).value, id, old(nextInfoId));
        foods == old(foods)[id := food] && r == Ok(ToDto(Some(food)).value)
    {
      if id !in foods {
        return Err(NotFound("Food"));
      }
      var existing := foods[id];
      if Checked(dto.barcode) && dto.barcode != existing.barcode && BarcodeTaken(foods, dto.barcode.value) {
        return Err(DuplicateBarcode(dto.barcode.value));
      }
      if ClashesWithOther(foods, id, dto.barcode) {
        return Err(ConstraintViolation("Duplicate barcode"));
      }
      var food := Stored(UpdateEntityFromDto(Some(dto), Some(existing)).value, id, nextInfoId);
      foods := foods[id := food];
      nextInfoId := nextInfoId + 1;
      r := Ok(ToDto(Some(food)).value);
    }

    /** `deleteFood`: a missing food is not found; otherwise the food is removed. */
    method DeleteFood(id: int) returns (r: Result<()>)
      requires Valid()
      modifies this
      ensures Valid() && nextId == old(nextId)
      ensures r.Ok? <==> id in old(foods)
      ensures r.Err? ==> r == Err(NotFound("Food")) && foods == old(foods)
      ensures r.Ok? ==> foods == old(foods) - {id}
    {
      if id !in foods {
        return Err(NotFound("Food"));
      }
      foods := foods - {id};
      r := Ok(());
    }
  }

  /** Only a blank barcode that some food already has gets past the service's own check to the unique column. */
  lemma OnlyBlankBarcodesReachTheColumn(foods: map<int, Food>, nextId: int, nextInfoId: int, barcode: Option<string>)
    requires CatalogueInvariant(foods, nextId, nextInfoId)
    requires ClashesWithOther(foods, nextId, barcode)
    ensures Checked(barcode) ==> BarcodeTaken(foods, barcode.value)
    ensures !Checked(barcode) ==> IsBlank(barcode.value)
  {
  }

  /** `safeMultiply`: a missing value counts as zero; otherwise the product rounded to 2 decimals. */
  function SafeMultiply(value: Option<real>, factor: real): (r: real)
    ensures value.None? ==> r == 0.0
    ensures r == Round(Share(value, factor), 2)
  {
    RoundZero(2);
    if value.None? then 0.0
    else
      var x := value.value * factor;
      assert Share(value, factor) == x;
      Round(x, 2)
  }

  /** The first of the food's serving units with the given id. */
  function FindUnit(units: seq<ServingUnit>, unitId: int): (r: Option<ServingUnit>)
    ensures r.Some? ==> r.value in units && r.value.id == unitId
    ensures r.None? ==> forall i :: 0 <= i < |units| ==> units[i].id != unitId
  {
    if units == [] then None
    else if units[0].id == unitId then Some(units[0])
    else FindUnit(units[1..], unitId)
  }

  /** The weight in grams of `quantity` in the given unit, or of `quantity` grams when no unit is given. */
  function Grams(food: Food, servingUnitId: Option<int>, quantity: real): (r: Result<real>)
    ensures servingUnitId.None? ==> r == Ok(quantity)
    ensures servingUnitId.Some? ==>
      (r.Ok? <==> FindUnit(food.servingUnits, servingUnitId.value).Some?)
      && (r.Ok? ==> r.value == FindUnit(food.servingUnits, servingUnitId.value).value.weightGrams * quantity)
      && (r.Err? ==> r == Err(Validation("Serving unit not found for this food")))
  {
    if servingUnitId.None? then Ok(quantity)
    else
      var unit := FindUnit(food.servingUnits, servingUnitId.value);
      if unit.None? then Err(Validation("Serving unit not found for this food"))
      else Ok(unit.value.weightGrams * quantity)
  }

  /** The nutrition of `factor` times the food's 100 g base: each value scaled and rounded, a missing one zero. */
  function Scaled(base: NutritionalInfo, factor: real): (d: NutritionalInfoDto)
    ensures d.id.None?
    ensures d.calories == Some(SafeMultiply(base.calories, factor))
    ensures d.protein == Some(SafeMultiply(base.protein, factor))
    ensures d.carbohydrates == Some(SafeMultiply(base.carbohydrates, factor))
    ensures d.fats == Some(SafeMultiply(base.fats, factor))
    ensures d.fiber == Some(SafeMultiply(base.fiber, factor)) && d.sugars == Some(SafeMultiply(base.sugars, factor))
    ensures d.saturatedFats == Some(SafeMultiply(base.saturatedFats, factor))
    ensures d.sodium == Some(SafeMultiply(base.sodium, factor)) && d.calcium == Some(SafeMultiply(base.calcium, factor))
    ensures d.iron == Some(SafeMultiply(base.iron, factor))
    ensures d.potassium == Some(SafeMultiply(base.potassium, factor))
    ensures d.vitaminA == Some(SafeMultiply(base.vitaminA, factor))
    ensures d.vitaminC == Some(SafeMultiply(base.vitaminC, factor))
    ensures d.vitaminD == Some(SafeMultiply(base.vitaminD, factor))
    ensures d.vitaminE == Some(SafeMultiply(base.vitaminE, factor))
    ensures d.vitaminB12 == Some(SafeMultiply(base.vitaminB12, factor))
  {
    NutritionalInfoDto(
      None,
      Some(SafeMultiply(base.calories, factor)), Some(SafeMultiply(base.protein, factor)),
      Some(SafeMultiply(base.carbohydrates, factor)), Some(SafeMultiply(base.fats, factor)),
      Some(SafeMultiply(base.fiber, factor)), Some(SafeMultiply(base.sugars, factor)),
      Some(SafeMultiply(base.saturatedFats, factor)), Some(SafeMultiply(base.sodium, factor)),
      Some(SafeMultiply(base.calcium, factor)), Some(SafeMultiply(base.iron, factor)),
      Some(SafeMultiply(base.potassium, factor)), Some(SafeMultiply(base.vitaminA, factor)),
      Some(SafeMultiply(base.vitaminC, factor)), Some(SafeMultiply(base.vitaminD, factor)),
      Some(SafeMultiply(base.vitaminE, factor)), Some(SafeMultiply(base.vitaminB12, factor)))
  }

  /** The result for a food without nutritional information: the four macros zero, the rest absent. */
  const NoNutrition: NutritionalInfoDto :=
    NutritionalInfoDto(None, Some(0.0), Some(0.0), Some(0.0), Some(0.0),
                       None, None, None, None, None, None, None, None, None, None, None, None)

  /**
   * The nutrition of `grams` grams of the food: its values per 100 g times
   * the factor grams / 100, rounded to 4 decimals.
   */
  function NutritionOfGrams(food: Food, grams: real): (d: NutritionalInfoDto)
    ensures food.nutritionalInfo.None? ==> d == NoNutrition
    ensures food.nutritionalInfo.Some? ==> d == Scaled(food.nutritionalInfo.value, Divide(grams, 100.0, 4))
  {
    var factor := Divide(grams, 100.0, 4);
    if food.nutritionalInfo.None? then NoNutrition else Scaled(food.nutritionalInfo.value, factor)
  }

  /**
   * `calculateNutrition`: the nutrition of the portion, which weighs
   * `quantity` grams, or `quantity` times the weight of the given serving unit.
   */
  function CalculateNutrition(foods: map<int, Food>, foodId: int, servingUnitId: Option<int>, quantity: real)
    : (r: Result<NutritionalInfoDto>)
    ensures foodId !in foods ==> r == Err(NotFound("Food"))
    ensures foodId in foods ==>
      var grams := Grams(foods[foodId], servingUnitId, quantity);
      (grams.Err? ==> r == Err(grams.error))
      && (grams.Ok? ==> r == Ok(NutritionOfGrams(foods[foodId], grams.value)))
  {
    if foodId !in foods then Err(NotFound("Food"))
    else
      var food := foods[foodId];
      var grams := Grams(food, servingUnitId, quantity);
      if grams.Err? then Err(grams.error)
      else Ok(NutritionOfGrams(food, grams.value))
  }

  /** A portion in a serving unit has the nutrition of its weight in grams. */
  lemma UnitPortionIsGrams(foods: map<int, Food>, foodId: int, unitId: int, quantity: real, grams: real)
    requires foodId in foods && FindUnit(foods[foodId].servingUnits, unitId).Some?
    requires grams == FindUnit(foods[foodId].servingUnits, unitId).value.weightGrams * quantity
    ensures CalculateNutrition(foods, foodId, Some(unitId), quantity) == CalculateNutrition(foods, foodId, None, grams)
  {
    var g := Grams(foods[foodId], Some(unitId), quantity);
    assert g.Ok? && g.value == grams;
  }

  /** 100 g of a food report its stored values, rounded to 2 decimals. */
  lemma HundredGramsIsTheBase(foods: map<int, Food>, foodId: int)
    requires foodId in foods && foods[foodId].nutritionalInfo.Some?
    ensures var base := foods[foodId].nutritionalInfo.value;
      var r := CalculateNutrition(foods, foodId, None, 100.0);
      r.Ok? && r.value.calories == Some(Round(Safe(base.calories), 2))
      && r.value.protein == Some(Round(Safe(base.protein), 2))
      && r.value.carbohydrates == Some(Round(Safe(base.carbohydrates), 2))
      && r.value.fats == Some(Round(Safe(base.fats), 2))
  {
    var base := foods[foodId].nutritionalInfo.value;
    assert Divide(100.0, 100.0, 4) == 1.0 by {
      RoundWhole(1.0);
      assert Pow10(4) == 10000.0;
    }
  }

  /** A larger portion never reports less of a nutrient that is not negative. */
  lemma LargerPortionNoLess(foods: map<int, Food>, foodId: int, q1: real, q2: real)
    requires foodId in foods && foods[foodId].nutritionalInfo.Some?
    requires 0.0 <= q1 <= q2 && Safe(foods[foodId].nutritionalInfo.value.protein) >= 0.0
    ensures CalculateNutrition(foods, foodId, None, q1).value.protein.value
      <= CalculateNutrition(foods, foodId, None, q2).value.protein.value
  {
    var base := foods[foodId].nutritionalInfo.value;
    DivideMonotone(q1, q2, 100.0);
    RoundMonotone(q1 / 100.0, q2 / 100.0, 4);
    var f1, f2 := Divide(q1, 100.0, 4), Divide(q2, 100.0, 4);
    ShareMonotone(base.protein, f1, f2);
    RoundMonotone(Share(base.protein, f1), Share(base.protein, f2), 2);
  }

  lemma ShareMonotone(v: Option<real>, f1: real, f2: real)
    requires Safe(v) >= 0.0 && f1 <= f2
    ensures Share(v, f1) <= Share(v, f2)
  {
    if Safe(v) > 0.0 {
      ScaleMonotone(f1, f2, Safe(v));
    }
  }
}
