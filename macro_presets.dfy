/**
 * Macro presets: named splits of the daily calories into protein, carbs and
 * fats percentages that a user saves, marks as default and applies to the
 * profile.
 *
 * The percentages arrive as nullable 32-bit integers and their sum is taken
 * in 32-bit arithmetic. Saving a preset also checks the entity's declared
 * constraints (a non-blank name of at most 50 characters, each percentage
 * between 0 and 100, the sum check); a preset that breaks one is not saved.
 */
module MacroPresets {
  import opened Wrappers
  import opened Nutrition

  /** Java's `int`. */
  type Int32 = x: int | -0x8000_0000 <= x < 0x8000_0000

  /** The 32-bit wrap-around of an integer. */
  function Wrap32(x: int): (r: Int32)
    ensures -0x8000_0000 <= x < 0x8000_0000 ==> r == x
    ensures (r - x) % 0x1_0000_0000 == 0
  {
    (x + 0x8000_0000) % 0x1_0000_0000 - 0x8000_0000
  }

  datatype MacroPreset = MacroPreset(
    id: int, userId: int, name: string, proteinPercentage: int, carbsPercentage: int, fatsPercentage: int,
    isDefault: bool)

  /** `proteinPercentage + carbsPercentage + fatsPercentage == 100` on 32-bit integers. */
  predicate SumsTo100(protein: Int32, carbs: Int32, fats: Int32)
  {
    Wrap32(Wrap32(protein + carbs) + fats) == 100
  }

  /** `isMacroSumValid`: false when a percentage is missing, else the 32-bit sum check. */
  predicate IsMacroSumValid(protein: Option<Int32>, carbs: Option<Int32>, fats: Option<Int32>)
  {
    protein.Some? && carbs.Some? && fats.Some? && SumsTo100(protein.value, carbs.value, fats.value)
  }

  /** For percentages in their declared range the 32-bit sum is the true sum. */
  lemma SumInRange(protein: Int32, carbs: Int32, fats: Int32)
    requires 0 <= protein <= 100 && 0 <= carbs <= 100 && 0 <= fats <= 100
    ensures SumsTo100(protein, carbs, fats) <==> protein + carbs + fats == 100
  {
  }

  /** The 32-bit sum check alone lets through percentages far outside 0 to 100. */
  lemma SumCheckWraps()
    ensures SumsTo100(0x7FFF_FFFF, 0x7FFF_FFFF, 102)
    ensures 0x7FFF_FFFF + 0x7FFF_FFFF + 102 != 100
  {
  }

  /** `@NotBlank`: some character above the space character. */
  predicate NotBlank(s: string)
  {
    exists i :: 0 <= i < |s| && s[i] > ' '
  }

  /** The constraints declared on the entity, checked whenever it is saved. */
  predicate Conforms(p: MacroPreset)
  {
    NotBlank(p.name) && |p.name| <= 50
    && 0 <= p.proteinPercentage <= 100 && 0 <= p.carbsPercentage <= 100 && 0 <= p.fatsPercentage <= 100
    && p.proteinPercentage + p.carbsPercentage + p.fatsPercentage == 100
  }

  /** `findByIdAndUserId`: the preset exists and belongs to the user. */
  predicate Owned(presets: map<int, MacroPreset>, presetId: int, userId: int)
  {
    presetId in presets && presets[presetId].userId == userId
  }

  /** `existsByUserIdAndName`. */
  predicate NameTaken(presets: map<int, MacroPreset>, userId: int, name: string)
  {
    exists id :: id in presets && presets[id].userId == userId && presets[id].name == name
  }

  /** The percentage checks the service makes before saving: none missing, 32-bit sum of 100. */
  function CheckPercentages(protein: Option<Int32>, carbs: Option<Int32>, fats: Option<Int32>): (r: Result<()>)
    ensures r.Ok? <==> IsMacroSumValid(protein, carbs, fats)
    ensures (protein.None? || carbs.None? || fats.None?) ==> r == Err(NullPointer)
    ensures protein.Some? && carbs.Some? && fats.Some? && r.Err? ==>
      r == Err(IllegalArgument("Macro percentages must sum to 100"))
  {
    if protein.None? || carbs.None? || fats.None? then Err(NullPointer)
    else if !SumsTo100(protein.value, carbs.value, fats.value) then Err(IllegalArgument("Macro percentages must sum to 100"))
    else Ok(())
  }

  /**
   * `applyPresetToProfile`: the user's profile with custom macros switched on
   * and the preset's three percentages; the preset must be the user's and the
   * profile must exist.
   */
  function ApplyPresetToProfile(presets: map<int, MacroPreset>, presetId: int, userId: int,
                                profile: Option<UserProfile>): (r: Result<UserProfile>)
    ensures !Owned(presets, presetId, userId) ==> r == Err(IllegalArgument("Preset not found"))
    ensures Owned(presets, presetId, userId) && profile.None? ==> r == Err(IllegalArgument("User profile not found"))
    ensures r.Ok? <==> Owned(presets, presetId, userId) && profile.Some?
    ensures r.Ok? ==>
      var p := presets[presetId];
      r.value.useCustomMacros
      && r.value.customProteinPercentage == Some(p.proteinPercentage as real)
      && r.value.customCarbsPercentage == Some(p.carbsPercentage as real)
      && r.value.customFatsPercentage == Some(p.fatsPercentage as real)
      && r.value.(useCustomMacros := false, customProteinPercentage := None, customCarbsPercentage := None,
                  customFatsPercentage := None)
         == profile.value.(useCustomMacros := false, customProteinPercentage := None, customCarbsPercentage := None,
                           customFatsPercentage := None)
  {
    if !Owned(presets, presetId, userId) then Err(IllegalArgument("Preset not found"))
    else if profile.None? then Err(IllegalArgument("User profile not found"))
    else
      var p := presets[presetId];
      Ok(profile.value.(useCustomMacros := true,
                        customProteinPercentage := Some(p.proteinPercentage as real),
                        customCarbsPercentage := Some(p.carbsPercentage as real),
                        customFatsPercentage := Some(p.fatsPercentage as real)))
  }

  /** Applying a stored preset gives the profile a custom split that sums to 100%. */
  lemma AppliedSplitSumsTo100(presets: map<int, MacroPreset>, presetId: int, userId: int, profile: Option<UserProfile>)
    requires Owned(presets, presetId, userId) && profile.Some? && Conforms(presets[presetId])
    ensures var r := ApplyPresetToProfile(presets, presetId, userId, profile);
      r.Ok? && r.value.customProteinPercentage.value + r.value.customCarbsPercentage.value
               + r.value.customFatsPercentage.value == 100.0
  {
  }

  /**
   * Each preset is stored under its id, from 1 up to below the next id, and conforms to its
   * constraints; a user's presets have distinct names and at most one of them
   * is the default.
   */
  predicate StoreInvariant(presets: map<int, MacroPreset>, nextId: int)
  {
    nextId >= 1
    && (forall id :: id in presets ==> presets[id].id == id && 1 <= id < nextId && Conforms(presets[id]))
    && (forall i, j :: i in presets && j in presets && i != j && presets[i].userId == presets[j].userId ==>
          presets[i].name != presets[j].name)
    && (forall i, j ::
          (i in presets && j in presets && presets[i].userId == presets[j].userId
           && presets[i].isDefault && presets[j].isDefault) ==> i == j)
  }

  /** The user's presets with only `presetId` marked as the default; other users' presets untouched. */
  function WithDefault(presets: map<int, MacroPreset>, userId: int, presetId: int): (r: map<int, MacroPreset>)
    ensures r.Keys == presets.Keys
  {
    map id | id in presets ::
      presets[id].(isDefault := if presets[id].userId == userId then id == presetId else presets[id].isDefault)
  }

  /** Moving a user's default to one of their presets keeps the store invariant, and it is then their only default. */
  lemma WithDefaultKeepsInvariant(presets: map<int, MacroPreset>, nextId: int, userId: int, presetId: int)
    requires StoreInvariant(presets, nextId) && Owned(presets, presetId, userId)
    ensures StoreInvariant(WithDefault(presets, userId, presetId), nextId)
    ensures var r := WithDefault(presets, userId, presetId);
      r[presetId].isDefault
      && forall id :: id in r && r[id].userId == userId && r[id].isDefault ==> id == presetId
  {
    var r := WithDefault(presets, userId, presetId);
    forall id | id in r
      ensures r[id] == presets[id].(isDefault := r[id].isDefault)
    {
    }
  }

  /** The presets with every default flag of the user cleared. */
  function Cleared(presets: map<int, MacroPreset>, userId: int): (r: map<int, MacroPreset>)
    ensures r.Keys == presets.Keys
  {
    map id | id in presets :: if presets[id].userId == userId then presets[id].(isDefault := false) else presets[id]
  }

  /** Clearing the user's defaults and then setting the chosen preset's flag moves the default to it. */
  lemma DefaultMoved(presets: map<int, MacroPreset>, userId: int, presetId: int)
    requires Owned(presets, presetId, userId)
    ensures var c := Cleared(presets, userId);
      c[presetId := c[presetId].(isDefault := true)] == WithDefault(presets, userId, presetId)
  {
    var c := Cleared(presets, userId);
    var m := c[presetId := c[presetId].(isDefault := true)];
    forall id | id in m
      ensures m[id] == WithDefault(presets, userId, presetId)[id]
    {
    }
  }

  /**
   * The loop of `setDefaultPreset`: walks the user's presets newest first
   * (ids are handed out in creation order) and clears every default flag.
   */
  method ClearDefaults(presets: map<int, MacroPreset>, userId: int, nextId: int) returns (m: map<int, MacroPreset>)
    requires forall id :: id in presets ==> 1 <= id < nextId
    ensures m == Cleared(presets, userId)
  {
    m := presets;
    var id := nextId - 1;
    while id >= 1
      invariant id <= nextId - 1
      invariant m.Keys == presets.Keys
      invariant forall k :: k in m ==>
        m[k] == if presets[k].userId == userId && k > id then presets[k].(isDefault := false) else presets[k]
    {
      if id in m && m[id].userId == userId && m[id].isDefault {
        m := m[id := m[id].(isDefault := false)];
      }
      id := id - 1;
    }
    forall k | k in m
      ensures m[k] == Cleared(presets, userId)[k]
    {
    }
  }

  class PresetStore {
    var presets: map<int, MacroPreset>
    var nextId: int

    constructor ()
      ensures presets == map[] && Valid()
    {
      presets := map[];
      nextId := 1;
    }

    /**
     * Each preset is stored under its id, below the next id, and conforms to
     * its constraints; a user's presets have distinct names and at most one of
     * them is the default.
     */
    predicate Valid()
      reads this
    {
      StoreInvariant(presets, nextId)
    }

    /**
     * `createPreset`: checks the percentages, then that the user has no preset of
     * that name, then the entity's constraints, and saves a new preset that is
     * not the default.
     */
    method CreatePreset(userId: int, name: string, protein: Option<Int32>, carbs: Option<Int32>, fats: Option<Int32>)
      returns (r: Result<MacroPreset>)
      requires Valid()
      modifies this
      ensures Valid()
      ensures r.Err? ==> presets == old(presets) && nextId == old(nextId)
      ensures CheckPercentages(protein, carbs, fats).Err? ==> r == CheckPercentages(protein, carbs, fats).PropagateFailure()
      ensures CheckPercentages(protein, carbs, fats).Ok? && old(NameTaken(presets, userId, name)) ==>
        r == Err(IllegalArgument("A preset with this name already exists"))
      ensures r.Ok? <==>
        CheckPercentages(protein, carbs, fats).Ok? && !old(NameTaken(presets, userId, name))
        && Conforms(MacroPreset(old(nextId), userId, name, protein.value, carbs.value, fats.value, false))
      ensures r.Ok? ==>
        r.value == MacroPreset(old(nextId), userId, name, protein.value, carbs.value, fats.value, false)
        && presets == old(presets)[old(nextId) := r.value]
    {
      var checked := CheckPercentages(protein, carbs, fats);
      if checked.Err? {
        return checked.PropagateFailure();
      }
      if NameTaken(presets, userId, name) {
        return Err(IllegalArgument("A preset with this name already exists"));
      }
      var preset := MacroPreset(nextId, userId, name, protein.value, carbs.value, fats.value, false);
      if !Conforms(preset) {
        return Err(ConstraintViolation("Macro preset constraints violated"));
      }
      presets := presets[nextId := preset];
      nextId := nextId + 1;
      r := Ok(preset);
    }

    /**
     * `updatePreset`: the user's preset takes the new name and percentages,
     * after the same checks as creation; the name check only runs when the
     * name changes, and the default flag is kept.
     */
    method UpdatePreset(presetId: int, userId: int, name: string, protein: Option<Int32>, carbs: Option<Int32>,
                        fats: Option<Int32>)
      returns (r: Result<MacroPreset>)
      requires Valid()
      modifies this
      ensures Valid() && nextId == old(nextId)
      ensures r.Err? ==> presets == old(presets)
      ensures !old(Owned(presets, presetId, userId)) ==> r == Err(IllegalArgument("Preset not found"))
      ensures old(Owned(presets, presetId, userId)) && CheckPercentages(protein, carbs, fats).Err? ==>
        r == CheckPercentages(protein, carbs, fats).PropagateFailure()
      ensures (old(Owned(presets, presetId, userId)) && CheckPercentages(protein, carbs, fats).Ok?
               && old(presets[presetId].name) != name && old(NameTaken(presets, userId, name))) ==>
        r == Err(IllegalArgument("A preset with this name already exists"))
      ensures r.Ok? <==>
        old(Owned(presets, presetId, userId)) && CheckPercentages(protein, carbs, fats).Ok?
        && (old(presets[presetId].name) == name || !old(NameTaken(presets, userId, name)))
        && Conforms(old(presets[presetId]).(name := name, proteinPercentage := protein.value,
                                             carbsPercentage := carbs.value, fatsPercentage := fats.value))
      ensures r.Ok? ==>
        r.value == old(presets[presetId]).(name := name, proteinPercentage := protein.value,
                                            carbsPercentage := carbs.value, fatsPercentage := fats.value)
        && presets == old(presets)[presetId := r.value]
    {
      if !Owned(presets, presetId, userId) {
        return Err(IllegalArgument("Preset not found"));
      }
      var preset := presets[presetId];
      var checked := CheckPercentages(protein, carbs, fats);
      if checked.Err? {
        return checked.PropagateFailure();
      }
      if preset.name != name && NameTaken(presets, userId, name) {
        return Err(IllegalArgument("A preset with this name already exists"));
      }
      var updated := preset.(name := name, proteinPercentage := protein.value, carbsPercentage := carbs.value,
                             fatsPercentage := fats.value);
      if !Conforms(updated) {
        return Err(ConstraintViolation("Macro preset constraints violated"));
      }
      presets := presets[presetId := updated];
      r := Ok(updated);
    }

    /** `deletePreset`: removes the user's preset. */
    method DeletePreset(presetId: int, userId: int) returns (r: Result<()>)
      requires Valid()
      modifies this
      ensures Valid() && nextId == old(nextId)
      ensures r.Ok? <==> old(Owned(presets, presetId, userId))
      ensures r.Err? ==> r == Err(IllegalArgument("Preset not found")) && presets == old(presets)
      ensures r.Ok? ==> presets == old(presets) - {presetId}
    {
      if !Owned(presets, presetId, userId) {
        return Err(IllegalArgument("Preset not found"));
      }
      presets := presets - {presetId};
      r := Ok(());
    }

    /**
     * `setDefaultPreset`: clears the default flag of every preset of the user,
     * then sets it on the chosen one, which becomes the user's only default.
     */
    method SetDefaultPreset(presetId: int, userId: int) returns (r: Result<MacroPreset>)
      requires Valid()
      modifies this
      ensures Valid() && nextId == old(nextId)
      ensures r.Ok? <==> old(Owned(presets, presetId, userId))
      ensures r.Err? ==> r == Err(IllegalArgument("Preset not found")) && presets == old(presets)
      ensures r.Ok? ==> presets == WithDefault(old(presets), userId, presetId) && r == Ok(presets[presetId])
    {
      if !Owned(presets, presetId, userId) {
        return Err(IllegalArgument("Preset not found"));
      }
      ghost var before := presets;
      var cleared := ClearDefaults(presets, userId, nextId);
      presets := cleared[presetId := cleared[presetId].(isDefault := true)];
      DefaultMoved(before, userId, presetId);
      WithDefaultKeepsInvariant(before, nextId, userId, presetId);
      r := Ok(presets[presetId]);
    }
  }
}
