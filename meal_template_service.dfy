/**
 * Looking up, updating, deleting and applying meal templates. Applying a
 * template logs each of its items as a meal entry of one day, through the
 * daily-log service.
 *
 * The template repository is the `TemplateStore`, a map from id to
 * template. An operation that fails changes nothing, as the surrounding
 * transaction is rolled back.
 */
module MealTemplateService {
  import opened Wrappers
  import opened Nutrition
  import opened DailyLogs
  import opened DailyLogService
  import opened MealTemplates

  /** The meal the entries go under: the requested one, else the template's own, else breakfast. */
  function TargetMealType(requested: Option<MealType>, templateType: Option<MealType>): (t: MealType)
    ensures requested.Some? ==> t == requested.value
    ensures requested.None? && templateType.Some? ==> t == templateType.value
    ensures requested.None? && templateType.None? ==> t == Breakfast
  {
    if requested.Some? then requested.value
    else if templateType.Some? then templateType.value
    else Breakfast
  }

  /** The log request built for one item: the day, the target meal and the item's food, quantity and unit. */
  function ItemRequest(item: MealTemplateItem, date: int, target: MealType): MealEntryRequest
  {
    MealEntryRequest(date, target, item.food.id, item.quantity, item.unit)
  }

  /** Why logging the item would fail: its food is not stored, or the food's snapshot cannot be computed. */
  function ItemFailure(item: MealTemplateItem, foods: map<int, Food>): (e: Option<Error>)
    ensures FindFood(foods, item.food.id).None? ==> e == Some(NotFound("Food"))
    ensures FindFood(foods, item.food.id).Some? ==>
      var macros := EntryMacros(FindFood(foods, item.food.id).value, item.quantity);
      (e.Some? <==> macros.Err?) && (e.Some? ==> e.value == macros.error)
  {
    var food := FindFood(foods, item.food.id);
    if food.None? then Some(NotFound("Food"))
    else
      var macros := EntryMacros(food.value, item.quantity);
      if macros.Err? then Some(macros.error) else None
  }

  /**
   * The failure of the first item, in list order, that cannot be logged: the
   * one at which logging the items one by one stops.
   */
  function FirstItemFailure(items: seq<MealTemplateItem>, foods: map<int, Food>): (e: Option<Error>)
    ensures e.None? <==> forall j :: 0 <= j < |items| ==> ItemFailure(items[j], foods).None?
    ensures e.Some? ==>
      exists j :: 0 <= j < |items| && ItemFailure(items[j], foods) == e
                  && forall i :: 0 <= i < j ==> ItemFailure(items[i], foods).None?
  {
    if items == [] then None
    else
      var first := ItemFailure(items[0], foods);
      if first.Some? then first
      else
        var rest := FirstItemFailure(items[1..], foods);
        if rest.Some? then
          var j :| 0 <= j < |items[1..]| && ItemFailure(items[1..][j], foods) == rest
                   && forall i :: 0 <= i < j ==> ItemFailure(items[1..][i], foods).None?;
          assert ItemFailure(items[j + 1], foods) == rest;
          assert forall i :: 0 < i < j + 1 ==> items[i] == items[1..][i - 1];
          rest
        else
          assert forall j :: 0 < j < |items| ==> items[j] == items[1..][j - 1];
          None
  }

  /** Every item can be logged. */
  predicate Loggable(items: seq<MealTemplateItem>, foods: map<int, Food>)
  {
    forall j :: 0 <= j < |items| ==> ItemFailure(items[j], foods).None?
  }

  /** The entry that logging the item adds to `log`. */
  function ItemEntry(item: MealTemplateItem, log: DailyLog, date: int, target: MealType, foods: map<int, Food>)
    : (e: MealEntry)
    requires ItemFailure(item, foods).None?
    ensures e.id.None? && e.dailyLog == log && e.mealType == target && e.food == FindFood(foods, item.food.id).value
    ensures e.quantity == item.quantity && e.unit == item.unit
  {
    var food := FindFood(foods, item.food.id).value;
    NewEntry(log, food, ItemRequest(item, date, target), EntryMacros(food, item.quantity).value)
  }

  /** The entries that logging the items adds to `log`, in item order. */
  function TemplateEntries(items: seq<MealTemplateItem>, log: DailyLog, date: int, target: MealType,
                           foods: map<int, Food>): (r: seq<MealEntry>)
    requires Loggable(items, foods)
    ensures |r| == |items|
    ensures forall j :: 0 <= j < |items| ==>
      r[j] == ItemEntry(items[j], log, date, target, foods)
  {
    seq(|items|, j requires 0 <= j < |items| => ItemEntry(items[j], log, date, target, foods))
  }

  /** Logging one more item appends its entry. */
  lemma TemplateEntriesStep(items: seq<MealTemplateItem>, i: nat, log: DailyLog, date: int, target: MealType,
                            foods: map<int, Food>)
    requires i < |items| && Loggable(items, foods)
    ensures Loggable(items[..i], foods) && Loggable(items[..i + 1], foods)
    ensures TemplateEntries(items[..i + 1], log, date, target, foods)
         == TemplateEntries(items[..i], log, date, target, foods) + [ItemEntry(items[i], log, date, target, foods)]
  {
    assert forall j :: 0 <= j <= i ==> items[..i + 1][j] == items[j];
  }

  /**
   * Why the user may not change the template: a system template never, and
   * otherwise only its owner (a template without an owner is a null
   * dereference).
   */
  function ChangeRefusal(isSystem: bool, owner: Option<int>, userId: int, systemMessage: string): (e: Option<Error>)
    ensures e.None? <==> !isSystem && owner == Some(userId)
    ensures isSystem ==> e == Some(IllegalArgument(systemMessage))
    ensures !isSystem && owner.None? ==> e == Some(NullPointer)
    ensures !isSystem && owner.Some? && owner.value != userId ==> e == Some(IllegalArgument("User does not own this template"))
  {
    if isSystem then Some(IllegalArgument(systemMessage))
    else if owner.None? then Some(NullPointer)
    else if owner.value != userId then Some(IllegalArgument("User does not own this template"))
    else None
  }

  /** Logs one item that can be logged, through the daily-log service, into the (user, date) log `log`. */
  method LogItem(book: LogBook, item: MealTemplateItem, date: int, target: MealType, userId: int, foods: map<int, Food>,
                 profile: Option<UserProfile>)
    returns (log: DailyLog)
    requires book.Valid() && ItemFailure(item, foods).None?
    modifies book, if (userId, date) in book.logs then {book.logs[(userId, date)]} else {}
    ensures book.Valid()
    ensures (userId, date) in book.logs && log == book.logs[(userId, date)]
    ensures book.logs.Keys == old(book.logs.Keys) + {(userId, date)}
    ensures book.Repr == old(book.Repr) + {log}
    ensures forall k :: k in old(book.logs) ==> book.logs[k] == old(book.logs[k])
    ensures (userId, date) in old(book.logs) ==> book.logs == old(book.logs) && book.Repr == old(book.Repr)
    ensures (userId, date) in old(book.logs) ==> log.id == old(log.id) && log.dailyWeight == old(log.dailyWeight)
    ensures (userId, date) !in old(book.logs) ==> fresh(log)
    ensures forall k :: k in old(book.logs) && k != (userId, date) ==> book.logs[k].mealEntries == old(book.logs[k].mealEntries)
    ensures log.mealEntries
      == (if (userId, date) in old(book.logs) then old(book.logs[(userId, date)].mealEntries) else [])
         + [ItemEntry(item, log, date, target, foods)]
  {
    var request := ItemRequest(item, date, target);
    var food := FindFood(foods, item.food.id);
    assert food.Some? && EntryMacros(food.value, item.quantity).Ok?;
    var added := DailyLogService.AddEntry(book, request, userId, foods, profile);
    assert added.Ok?;
    log := book.logs[(userId, date)];
  }

  /** Logs one item that can be logged into the (user, date) log `log`, which already exists. */
  method LogItemInto(book: LogBook, log: DailyLog, item: MealTemplateItem, date: int, target: MealType, userId: int,
                     foods: map<int, Food>, profile: Option<UserProfile>)
    requires book.Valid() && (userId, date) in book.logs && book.logs[(userId, date)] == log
    requires ItemFailure(item, foods).None?
    modifies book, log
    ensures book.Valid() && book.logs == old(book.logs) && book.Repr == old(book.Repr)
    ensures log.id == old(log.id) && log.dailyWeight == old(log.dailyWeight)
    ensures log.mealEntries == old(log.mealEntries) + [ItemEntry(item, log, date, target, foods)]
    ensures forall k :: k in book.logs && k != (userId, date) ==> book.logs[k].mealEntries == old(book.logs[k].mealEntries)
  {
    var logged := LogItem(book, item, date, target, userId, foods, profile);
    assert logged == log;
  }

  /** Logs the items, all of which can be logged, one by one in order. */
  method LogItems(book: LogBook, items: seq<MealTemplateItem>, date: int, target: MealType, userId: int,
                  foods: map<int, Food>, profile: Option<UserProfile>)
    requires book.Valid() && Loggable(items, foods)
    modifies book, if (userId, date) in book.logs then {book.logs[(userId, date)]} else {}
    ensures book.Valid()
    ensures items == [] ==> unchanged(book) && unchanged(book.Repr)
    ensures items != [] ==>
      var key := (userId, date);
      key in book.logs && book.logs.Keys == old(book.logs.Keys) + {key}
      && book.Repr == old(book.Repr) + {book.logs[key]}
      && (key in old(book.logs) ==>
            book.logs[key].id == old(book.logs[key].id) && book.logs[key].dailyWeight == old(book.logs[key].dailyWeight))
      && (forall k :: k in old(book.logs) ==> book.logs[k] == old(book.logs[k]))
      && (forall k :: k in old(book.logs) && k != key ==> book.logs[k].mealEntries == old(book.logs[k].mealEntries))
      && book.logs[key].mealEntries
         == (if key in old(book.logs) then old(book.logs[key].mealEntries) else [])
            + TemplateEntries(items, book.logs[key], date, target, foods)
  {
    if items == [] {
      return;
    }
    var key := (userId, date);
    ghost var start := if key in book.logs then book.logs[key].mealEntries else [];
    var log := LogItem(book, items[0], date, target, userId, foods, profile);
    TemplateEntriesStep(items, 0, log, date, target, foods);
    assert items[..0] == [];
    LogRest(book, log, items, date, target, userId, foods, profile, start);
  }

  /** Logs the items after the first into the (user, date) log `log`, which already holds the first. */
  method LogRest(book: LogBook, log: DailyLog, items: seq<MealTemplateItem>, date: int, target: MealType,
                 userId: int, foods: map<int, Food>, profile: Option<UserProfile>, ghost start: seq<MealEntry>)
    requires book.Valid() && (userId, date) in book.logs && book.logs[(userId, date)] == log
    requires 0 < |items| && Loggable(items, foods)
    requires log.mealEntries == start + TemplateEntries(items[..1], log, date, target, foods)
    modifies book, log
    ensures book.Valid() && book.logs == old(book.logs) && book.Repr == old(book.Repr)
    ensures log.id == old(log.id) && log.dailyWeight == old(log.dailyWeight)
    ensures log.mealEntries == start + TemplateEntries(items, log, date, target, foods)
    ensures forall k :: k in book.logs && k != (userId, date) ==> book.logs[k].mealEntries == old(book.logs[k].mealEntries)
  {
    for i := 1 to |items|
      invariant book.Valid() && book.logs == old(book.logs) && book.Repr == old(book.Repr)
      invariant log.id == old(log.id) && log.dailyWeight == old(log.dailyWeight)
      invariant log.mealEntries == start + TemplateEntries(items[..i], log, date, target, foods)
      invariant forall k :: k in book.logs && k != (userId, date) ==> book.logs[k].mealEntries == old(book.logs[k].mealEntries)
    {
      LogNext(book, log, items, i, date, target, userId, foods, profile, start);
    }
    assert items[..|items|] == items;
  }

  /** Logs item `i` into the (user, date) log `log`, which already holds the items before it. */
  method LogNext(book: LogBook, log: DailyLog, items: seq<MealTemplateItem>, i: nat, date: int, target: MealType,
                 userId: int, foods: map<int, Food>, profile: Option<UserProfile>, ghost start: seq<MealEntry>)
    requires book.Valid() && (userId, date) in book.logs && book.logs[(userId, date)] == log
    requires i < |items| && Loggable(items, foods)
    requires log.mealEntries == start + TemplateEntries(items[..i], log, date, target, foods)
    modifies book, log
    ensures book.Valid() && book.logs == old(book.logs) && book.Repr == old(book.Repr)
    ensures log.id == old(log.id) && log.dailyWeight == old(log.dailyWeight)
    ensures log.mealEntries == start + TemplateEntries(items[..i + 1], log, date, target, foods)
    ensures forall k :: k in book.logs && k != (userId, date) ==> book.logs[k].mealEntries == old(book.logs[k].mealEntries)
  {
    assert ItemFailure(items[i], foods).None?;
    ghost var before := TemplateEntries(items[..i], log, date, target, foods);
    LogItemInto(book, log, items[i], date, target, userId, foods, profile);
    TemplateEntriesStep(items, i, log, date, target, foods);
    assert start + (before + [ItemEntry(items[i], log, date, target, foods)])
        == (start + before) + [ItemEntry(items[i], log, date, target, foods)];
  }

  class TemplateStore {
    var templates: map<int, MealTemplate>

    constructor ()
      ensures templates == map[]
    {
      templates := map[];
    }

    /** `getTemplateById`: the stored template, or not found. */
    function GetTemplateById(id: int): (r: Result<MealTemplate>)
      reads this
      ensures r.Ok? <==> id in templates
      ensures r.Ok? ==> r.value == templates[id]
      ensures r.Err? ==> r == Err(NotFound("MealTemplate"))
    {
      if id in templates then Ok(templates[id]) else Err(NotFound("MealTemplate"))
    }

    /**
     * `updateTemplate`: refused for a system template or another user's; the
     * stored template otherwise takes the name, description, meal type and
     * visibility of `updated`, then its items are cleared and refilled, in
     * order, with those of `updated`, each pointing back to the stored
     * template. The refill reads `updated`'s list after the clear, so
     * updating a template from itself leaves it without items.
     */
    method UpdateTemplate(id: int, updated: MealTemplate, userId: int) returns (r: Result<MealTemplate>)
      modifies if id in templates then {templates[id]} else {}
      ensures id !in templates ==> r == Err(NotFound("MealTemplate"))
      ensures id in templates ==>
        var existing := templates[id];
        var refusal := ChangeRefusal(old(existing.isSystem), old(existing.userId), userId, "Cannot update a system template");
        (refusal.Some? ==> r == Err(refusal.value) && unchanged(existing))
        && (refusal.None? ==>
              r == Ok(existing)
              && existing.id == old(existing.id) && existing.userId == old(existing.userId)
              && existing.isSystem == old(existing.isSystem)
              && existing.name == old(updated.name) && existing.description == old(updated.description)
              && existing.mealType == old(updated.mealType) && existing.isPublic == old(updated.isPublic)
              && existing.items == OwnedItems(if updated == existing then [] else old(updated.items), existing))
    {
      var found := GetTemplateById(id);
      if found.Err? {
        return found;
      }
      var existing: MealTemplate := found.value;
      var refusal := ChangeRefusal(existing.isSystem, existing.userId, userId, "Cannot update a system template");
      if refusal.Some? {
        return Err(refusal.value);
      }
      existing.name := updated.name;
      existing.description := updated.description;
      existing.mealType := updated.mealType;
      existing.isPublic := updated.isPublic;
      existing.items := [];
      var source := updated.items;
      for i := 0 to |source|
        invariant existing.items == OwnedItems(source[..i], existing)
        modifies existing`items
      {
        existing.AddItem(source[i]);
        assert source[..i + 1] == source[..i] + [source[i]];
      }
      assert source[..|source|] == source;
      r := Ok(existing);
    }

    /** `deleteTemplate`: refused for a system template or another user's; otherwise the template is removed. */
    method DeleteTemplate(id: int, userId: int) returns (r: Result<()>)
      modifies this
      ensures id !in old(templates) ==> r == Err(NotFound("MealTemplate"))
      ensures id in old(templates) ==>
        var refusal := ChangeRefusal(old(templates[id].isSystem), old(templates[id].userId), userId,
                                     "Cannot delete a system template");
        (refusal.Some? ==> r == Err(refusal.value)) && (refusal.None? ==> r == Ok(()))
      ensures r.Err? ==> templates == old(templates)
      ensures r.Ok? ==> templates == old(templates) - {id}
    {
      var found := GetTemplateById(id);
      if found.Err? {
        return Err(found.error);
      }
      var refusal := ChangeRefusal(found.value.isSystem, found.value.userId, userId, "Cannot delete a system template");
      if refusal.Some? {
        return Err(refusal.value);
      }
      templates := templates - {id};
      r := Ok(());
    }

    /**
     * `applyTemplate`: logs every item of the template, in order, as an entry
     * of the user's log of `date` under the target meal. The first item that
     * cannot be logged fails the whole application and nothing is changed; a
     * template without items changes nothing and starts no log. A log that
     * already exists keeps its id and weight. Any user may
     * apply any template.
     */
    method ApplyTemplate(book: LogBook, templateId: int, date: int, mealType: Option<MealType>, userId: int,
                         foods: map<int, Food>, profile: Option<UserProfile>)
      returns (r: Result<()>)
      requires book.Valid()
      modifies book, if (userId, date) in book.logs then {book.logs[(userId, date)]} else {}
      ensures book.Valid()
      ensures templateId !in templates ==> r == Err(NotFound("MealTemplate"))
      ensures templateId in templates && FirstItemFailure(templates[templateId].items, foods).Some? ==>
        r == Err(FirstItemFailure(templates[templateId].items, foods).value)
      ensures r.Ok? <==> templateId in templates && FirstItemFailure(templates[templateId].items, foods).None?
      ensures r.Err? || templates[templateId].items == [] ==> unchanged(book) && unchanged(book.Repr)
      ensures r.Ok? && templates[templateId].items != [] ==>
        var key := (userId, date);
        var template := templates[templateId];
        key in book.logs && book.logs.Keys == old(book.logs.Keys) + {key}
        && book.Repr == old(book.Repr) + {book.logs[key]}
        && (key in old(book.logs) ==>
              book.logs[key].id == old(book.logs[key].id) && book.logs[key].dailyWeight == old(book.logs[key].dailyWeight))
        && (forall k :: k in old(book.logs) ==> book.logs[k] == old(book.logs[k]))
        && (forall k :: k in old(book.logs) && k != key ==> book.logs[k].mealEntries == old(book.logs[k].mealEntries))
        && book.logs[key].mealEntries
           == (if key in old(book.logs) then old(book.logs[key].mealEntries) else [])
              + TemplateEntries(template.items, book.logs[key], date, TargetMealType(mealType, template.mealType), foods)
    {
      var found := GetTemplateById(templateId);
      if found.Err? {
        return Err(found.error);
      }
      var template := found.value;
      var target := TargetMealType(mealType, template.mealType);
      var items := template.items;
      var failure := FirstItemFailure(items, foods);
      if failure.Some? {
        return Err(failure.value);
      }
      LogItems(book, items, date, target, userId, foods, profile);
      r := Ok(());
    }
  }
}
