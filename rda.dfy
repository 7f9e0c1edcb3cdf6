/**
 * Recommended daily amounts of micronutrients for a user, chosen by sex and
 * age from a fixed table. A missing gender counts as male and a missing age
 * as 30; only the gender "MALE" (in any letter case) gets the male column.
 */
module Rda {
  import opened Wrappers
  import opened Nutrition

  /** The recommended daily amounts the service reports. */
  datatype RdaValues = RdaValues(
    fiber: real, sugars: real, saturatedFats: real, sodium: real, calcium: real, iron: real,
    potassium: real, vitaminA: real, vitaminC: real, vitaminD: real, vitaminE: real, vitaminB12: real,
    magnesium: real, zinc: real, vitaminK: real, vitaminB1: real, vitaminB2: real, vitaminB3: real,
    vitaminB6: real, vitaminB9: real)

  /** Upper-cases an ASCII letter and leaves every other character alone. */
  function UpperChar(c: char): char
  {
    if 'a' <= c <= 'z' then (c as int - 32) as char else c
  }

  /** `String.toUpperCase` on ASCII text. */
  function Upper(s: string): (u: string)
    ensures |u| == |s|
    ensures forall i :: 0 <= i < |s| ==> u[i] == UpperChar(s[i])
  {
    seq(|s|, i requires 0 <= i < |s| => UpperChar(s[i]))
  }

  /** The upper-cased gender, "MALE" when the profile has none. */
  function GenderOf(profile: UserProfile): string
  {
    if profile.gender.Some? then Upper(profile.gender.value) else "MALE"
  }

  /** The age, 30 when the profile has none. */
  function AgeOf(profile: UserProfile): int
  {
    profile.age.GetOr(30)
  }

  predicate IsMale(profile: UserProfile)
  {
    GenderOf(profile) == "MALE"
  }

  /** `calculateIron`: 8 mg for men and for anyone over 50, 18 mg for younger women. */
  function Iron(isMale: bool, age: int): (r: real)
    ensures r == 8.0 || r == 18.0
    ensures r == 18.0 <==> !isMale && age <= 50
  {
    if isMale then 8.0
    else if age > 50 then 8.0
    else 18.0
  }

  /** The table row for a sex and an age. */
  function Values(isMale: bool, age: int): RdaValues
  {
    RdaValues(
      fiber := if isMale then 38.0 else 25.0,
      sugars := if isMale then 36.0 else 25.0,
      saturatedFats := 20.0,
      sodium := 2300.0,
      calcium := if age > 50 then 1200.0 else 1000.0,
      iron := Iron(isMale, age),
      potassium := if isMale then 3400.0 else 2600.0,
      vitaminA := if isMale then 3000.0 else 2333.0,
      vitaminC := if isMale then 90.0 else 75.0,
      vitaminD := 600.0,
      vitaminE := 15.0,
      vitaminB12 := 2.4,
      magnesium := if isMale then 400.0 else 310.0,
      zinc := if isMale then 11.0 else 8.0,
      vitaminK := if isMale then 120.0 else 90.0,
      vitaminB1 := if isMale then 1.2 else 1.1,
      vitaminB2 := if isMale then 1.3 else 1.1,
      vitaminB3 := if isMale then 16.0 else 14.0,
      vitaminB6 := 1.3,
      vitaminB9 := 400.0)
  }

  /** `getRdaForUser`: the row for the profile's sex and age; no profile is NotFound. */
  function GetRdaForUser(profile: Option<UserProfile>): (r: Result<RdaValues>)
    ensures profile.None? ==> r == Err(NotFound("UserProfile"))
    ensures profile.Some? ==> r.Ok?
    ensures profile.Some? ==> (r.value.calcium == 1200.0 <==> AgeOf(profile.value) > 50)
    ensures profile.Some? ==> (r.value.iron == 18.0 <==> !IsMale(profile.value) && AgeOf(profile.value) <= 50)
  {
    if profile.None? then Err(NotFound("UserProfile"))
    else Ok(Values(IsMale(profile.value), AgeOf(profile.value)))
  }

  /** A profile without a gender is given the same amounts as a male profile, whatever the letter case. */
  lemma MissingGenderIsMale(profile: UserProfile)
    ensures GetRdaForUser(Some(profile.(gender := None))) == GetRdaForUser(Some(profile.(gender := Some("MALE"))))
    ensures GetRdaForUser(Some(profile.(gender := Some("male")))) == GetRdaForUser(Some(profile.(gender := Some("MALE"))))
  {
    assert Upper("MALE") == "MALE";
    assert Upper("male") == "MALE";
  }

  /** Every gender that is not "MALE" in some letter case is given the female amounts. */
  lemma OtherGendersAreFemale(profile: UserProfile, gender: string)
    requires Upper(gender) != "MALE"
    ensures GetRdaForUser(Some(profile.(gender := Some(gender))))
         == GetRdaForUser(Some(profile.(gender := Some("FEMALE"))))
  {
    assert Upper("FEMALE") == "FEMALE";
  }

  /** A profile without an age is given the same amounts as a 30-year-old. */
  lemma MissingAgeIsThirty(profile: UserProfile)
    ensures GetRdaForUser(Some(profile.(age := None))) == GetRdaForUser(Some(profile.(age := Some(30))))
  {
  }

  /** Sodium, vitamin D, folate and the other fixed guidelines do not depend on sex or age. */
  lemma FixedAmounts(p: UserProfile, q: UserProfile)
    ensures var a, b := GetRdaForUser(Some(p)).value, GetRdaForUser(Some(q)).value;
      a.sodium == b.sodium == 2300.0 && a.vitaminD == b.vitaminD == 600.0 && a.vitaminB9 == b.vitaminB9 == 400.0
      && a.saturatedFats == b.saturatedFats && a.vitaminE == b.vitaminE && a.vitaminB12 == b.vitaminB12
      && a.vitaminB6 == b.vitaminB6
  {
  }

  /** Women of 50 or under need more iron than anyone else; the sex only matters up to 50. */
  lemma IronBySexAndAge(isMale: bool, age: int)
    ensures Iron(isMale, age) <= Iron(false, age)
    ensures age > 50 ==> Iron(true, age) == Iron(false, age)
  {
  }
}
