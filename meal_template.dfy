/**
 * A meal template: a named list of food portions that can be logged in one
 * go. System templates belong to no user and cannot be changed.
 */
module MealTemplates {
  import opened Wrappers
  import opened Nutrition

  /** One portion of the template; `mealTemplate` is the back-reference to the owning template. */
  datatype MealTemplateItem = MealTemplateItem(id: Option<int>, mealTemplate: MealTemplate?, food: Food, quantity: real,
                                               unit: string)

  /** The items, each pointing back to `owner`. */
  function OwnedItems(items: seq<MealTemplateItem>, owner: MealTemplate?): (r: seq<MealTemplateItem>)
    ensures |r| == |items|
    ensures forall j :: 0 <= j < |r| ==> r[j] == items[j].(mealTemplate := owner)
  {
    seq(|items|, j requires 0 <= j < |items| => items[j].(mealTemplate := owner))
  }

  class MealTemplate {
    var id: Option<int>
    var userId: Option<int>
    var name: string
    var description: Option<string>
    var mealType: Option<MealType>
    var isPublic: Option<bool>
    var isSystem: bool
    var items: seq<MealTemplateItem>

    /** A template not yet stored, not a system one, with the given fields and no items. */
    constructor (userId: Option<int>, name: string, description: Option<string>, mealType: Option<MealType>,
                 isPublic: Option<bool>)
      ensures this.id.None? && this.userId == userId && this.name == name && this.description == description
      ensures this.mealType == mealType && this.isPublic == isPublic && !this.isSystem && this.items == []
    {
      this.id := None;
      this.userId := userId;
      this.name := name;
      this.description := description;
      this.mealType := mealType;
      this.isPublic := isPublic;
      this.isSystem := false;
      this.items := [];
    }

    /** `addItem`: appends the item and points it back to this template. */
    method AddItem(item: MealTemplateItem)
      modifies this`items
      ensures items == old(items) + [item.(mealTemplate := this)]
    {
      items := items + [item.(mealTemplate := this)];
    }
  }
}
