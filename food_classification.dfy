/**
 * The food classifier of the diet engine: a threshold decision tree over a
 * food's macro shares of calories, and the portion cap of each category.
 */
module FoodClassification {
  import opened Wrappers
  import opened Decimal
  import opened Nutrition

  /** The macro role a food can fill in a meal. */
  datatype FoodCategory = LeanProtein | FattyProtein | CarbComplex | CarbSimple | Fat | Unknown

  /** Calories derived from the macros, 4·protein + 4·carbohydrates + 9·fats, absent macros as 0. */
  function MacroCalories(n: NutritionalInfo): (r: real)
    ensures Safe(n.protein) >= 0.0 && Safe(n.carbohydrates) >= 0.0 && Safe(n.fats) >= 0.0 ==> r >= 0.0
  {
    Safe(n.protein) * 4.0 + Safe(n.carbohydrates) * 4.0 + Safe(n.fats) * 9.0
  }

  /** The stored calories when present and positive, otherwise the derived ones. */
  function EffectiveCalories(n: NutritionalInfo): (r: real)
    ensures n.calories.Some? && n.calories.value > 0.0 ==> r == n.calories.value
    ensures !(n.calories.Some? && n.calories.value > 0.0) ==> r == MacroCalories(n)
  {
    if n.calories.Some? && n.calories.value > 0.0 then n.calories.value else MacroCalories(n)
  }

  /** The share of calories from protein, to four digits. */
  function ProteinRatio(n: NutritionalInfo): real
    requires EffectiveCalories(n) > 0.0
  {
    Divide(Safe(n.protein) * 4.0, EffectiveCalories(n), 4)
  }

  /** The share of calories from fat, to four digits. */
  function FatRatio(n: NutritionalInfo): real
    requires EffectiveCalories(n) > 0.0
  {
    Divide(Safe(n.fats) * 9.0, EffectiveCalories(n), 4)
  }

  /** The share of carbohydrates that is sugar, to four digits. */
  function SugarRatio(n: NutritionalInfo): real
    requires n.carbohydrates.Some? && n.carbohydrates.value > 0.0
  {
    Divide(Safe(n.sugars), n.carbohydrates.value, 4)
  }

  predicate HasCalories(food: Food)
  {
    food.nutritionalInfo.Some? && EffectiveCalories(food.nutritionalInfo.value) > 0.0
  }

  predicate HasCarbs(n: NutritionalInfo)
  {
    n.carbohydrates.Some? && n.carbohydrates.value > 0.0
  }

  predicate IsProteinRole(c: FoodCategory)
  {
    c == LeanProtein || c == FattyProtein
  }

  /** The category of a food, decided by the protein, fat and sugar shares. */
  function Classify(food: Food): (c: FoodCategory)
    ensures !HasCalories(food) ==> c == Unknown
  {
    if food.nutritionalInfo.None? then Unknown
    else
      var n := food.nutritionalInfo.value;
      if EffectiveCalories(n) <= 0.0 then Unknown
      else if ProteinRatio(n) > 0.25 then
        (if FatRatio(n) > 0.25 then FattyProtein else LeanProtein)
      else if FatRatio(n) > 0.50 then Fat
      else if HasCarbs(n) then
        (if SugarRatio(n) > 0.15 then CarbSimple else CarbComplex)
      else Unknown
  }

  const Categories: set<FoodCategory> :=
    {LeanProtein, FattyProtein, CarbComplex, CarbSimple, Fat, Unknown}

  /** The portion cap of every category, in grams. */
  function PortionLimits(): (m: map<FoodCategory, real>)
    ensures m.Keys == Categories
    ensures forall c :: c in m ==> 40.0 <= m[c] <= 350.0
    ensures m[CarbSimple] < m[Unknown] < m[FattyProtein] < m[LeanProtein] < m[CarbComplex]
    ensures m[Fat] < m[CarbSimple]
  {
    map[LeanProtein := 250.0, FattyProtein := 180.0, CarbComplex := 350.0,
        CarbSimple := 50.0, Fat := 40.0, Unknown := 100.0]
  }

  /** Every category has a cap in the table. */
  lemma EveryCategoryHasCap(c: FoodCategory)
    ensures c in PortionLimits()
  {
    match c
    case LeanProtein =>
    case FattyProtein =>
    case CarbComplex =>
    case CarbSimple =>
    case Fat =>
    case Unknown =>
  }

  /** The cap looked up with a default of 300. */
  function PortionCap(c: FoodCategory): (cap: real)
    ensures 40.0 <= cap <= 350.0
  {
    var limits := PortionLimits();
    if c in limits then limits[c] else 300.0
  }

  /** The lookup default is never used: every cap comes from the table. */
  lemma PortionCapFromTable(c: FoodCategory)
    ensures PortionCap(c) == PortionLimits()[c] && PortionCap(c) != 300.0
  {
    EveryCategoryHasCap(c);
  }

  /** A food is in a protein role exactly when more than a quarter of its calories come from protein. */
  lemma ClassifyProteinRole(food: Food)
    ensures IsProteinRole(Classify(food)) <==>
      HasCalories(food) && ProteinRatio(food.nutritionalInfo.value) > 0.25
  {
  }

  /** A protein food is fatty exactly when more than a quarter of its calories come from fat. */
  lemma ClassifyFattyProtein(food: Food)
    requires HasCalories(food) && ProteinRatio(food.nutritionalInfo.value) > 0.25
    ensures Classify(food) == FattyProtein <==> FatRatio(food.nutritionalInfo.value) > 0.25
    ensures Classify(food) == LeanProtein <==> FatRatio(food.nutritionalInfo.value) <= 0.25
  {
  }

  /** FAT exactly when the protein share is at most a quarter and the fat share above a half. */
  lemma ClassifyFat(food: Food)
    ensures Classify(food) == Fat <==>
      HasCalories(food) && ProteinRatio(food.nutritionalInfo.value) <= 0.25
      && FatRatio(food.nutritionalInfo.value) > 0.50
  {
  }

  /** A FAT food has a positive fat amount: with none, its fat share of calories would not exceed zero. */
  lemma FatFoodHasFats(food: Food)
    requires Classify(food) == Fat
    ensures food.nutritionalInfo.Some? && food.nutritionalInfo.value.fats.Some?
    ensures food.nutritionalInfo.value.fats.value > 0.0
  {
    var n := food.nutritionalInfo.value;
    assert Safe(n.fats) * 9.0 / EffectiveCalories(n) > 0.0;
  }

  /** A carbohydrate role needs positive carbohydrates; it is simple exactly when sugars exceed 15% of them. */
  lemma ClassifyCarb(food: Food)
    ensures Classify(food) in {CarbSimple, CarbComplex} <==>
      HasCalories(food) && ProteinRatio(food.nutritionalInfo.value) <= 0.25
      && FatRatio(food.nutritionalInfo.value) <= 0.50 && HasCarbs(food.nutritionalInfo.value)
    ensures Classify(food) == CarbSimple <==>
      Classify(food) in {CarbSimple, CarbComplex} && SugarRatio(food.nutritionalInfo.value) > 0.15
  {
  }

  /** Everything that fits no role is UNKNOWN. */
  lemma ClassifyUnknown(food: Food)
    ensures Classify(food) == Unknown <==>
      !HasCalories(food)
      || (ProteinRatio(food.nutritionalInfo.value) <= 0.25 && FatRatio(food.nutritionalInfo.value) <= 0.50
          && !HasCarbs(food.nutritionalInfo.value))
  {
  }

  lemma RoundOne()
    ensures Round(1.0, 4) == 1.0
  {
    assert Pow10(4) == 10000.0;
    assert HalfUpUnits(1.0 * 10000.0) == 10000;
  }

  /** A positive amount is the whole of itself: its share of itself rounds to one. */
  lemma WholeShare(x: real)
    requires x > 0.0
    ensures Divide(x, x, 4) == 1.0
  {
    assert x / x == 1.0;
    RoundOne();
  }

  /** A food whose calories all come from protein is lean protein, whatever its stated calories. */
  lemma PureProteinIsLean(food: Food)
    requires food.nutritionalInfo.Some?
    requires var n := food.nutritionalInfo.value;
      Safe(n.protein) > 0.0 && Safe(n.carbohydrates) == 0.0 && Safe(n.fats) == 0.0
      && (n.calories.None? || n.calories.value <= 0.0)
    ensures Classify(food) == LeanProtein
  {
    var n := food.nutritionalInfo.value;
    var share := Safe(n.protein) * 4.0;
    assert EffectiveCalories(n) == share;
    WholeShare(share);
    RoundOne();
    RoundZero(4);
    assert ProteinRatio(n) == Round(1.0, 4);
    assert FatRatio(n) == Round(0.0, 4);
  }

  /** A food whose calories all come from fat is a fat source. */
  lemma PureFatIsFat(food: Food)
    requires food.nutritionalInfo.Some?
    requires var n := food.nutritionalInfo.value;
      Safe(n.fats) > 0.0 && Safe(n.carbohydrates) == 0.0 && Safe(n.protein) == 0.0
      && (n.calories.None? || n.calories.value <= 0.0)
    ensures Classify(food) == Fat
  {
    var n := food.nutritionalInfo.value;
    var share := Safe(n.fats) * 9.0;
    assert EffectiveCalories(n) == share;
    WholeShare(share);
    RoundOne();
    RoundZero(4);
    assert ProteinRatio(n) == Round(0.0, 4);
    assert FatRatio(n) == Round(1.0, 4);
  }

  /** A food with carbohydrates and no sugar, protein or fat is a complex carbohydrate. */
  lemma SugarFreeCarbIsComplex(food: Food)
    requires food.nutritionalInfo.Some?
    requires var n := food.nutritionalInfo.value;
      HasCarbs(n) && Safe(n.sugars) == 0.0 && Safe(n.fats) == 0.0 && Safe(n.protein) == 0.0
    ensures Classify(food) == CarbComplex
  {
    var n := food.nutritionalInfo.value;
    RoundZero(4);
    assert ProteinRatio(n) == Round(0.0, 4);
    assert FatRatio(n) == Round(0.0, 4);
    assert SugarRatio(n) == Round(0.0, 4);
  }
}
