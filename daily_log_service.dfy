/**
 * The daily-log ledger: adding, updating and deleting meal entries, each
 * followed by a recomputation of the log's totals from its entries, and the
 * response that groups a log's entries by meal type.
 *
 * The log repository is the `LogBook`, one log per (user, date). The entry
 * repository's lookup by id is modelled as a search of the log that holds
 * the entry, which the caller supplies (null when no log holds it). An
 * operation that fails changes nothing, as the surrounding transaction is
 * rolled back.
 */
module DailyLogService {
  import opened Wrappers
  import opened Decimal
  import opened Nutrition
  import opened DailyLogs

  /** What a client sends to log a food. */
  datatype MealEntryRequest = MealEntryRequest(date: int, mealType: MealType, foodId: Option<int>, quantity: real,
                                               unit: string)

  datatype DailyGoals = DailyGoals(calorieGoal: Option<real>, proteinGoal: Option<real>, carbsGoal: Option<real>,
                                   fatsGoal: Option<real>)

  datatype MealEntryDto = MealEntryDto(
    id: Option<int>, foodId: Option<int>, foodName: string, brand: Option<string>, quantity: real, unit: string,
    calories: real, protein: real, carbs: real, fats: real)

  datatype DailyLogResponse = DailyLogResponse(
    id: Option<int>, date: int, dailyWeight: Option<real>, totals: DailyTotals, goals: Option<DailyGoals>,
    meals: map<MealType, seq<MealEntryDto>>)

  /**
   * The logs of every user and day; the unique (user, date) constraint makes
   * it a map. `nextLogId` is the id the repository generates for the next log
   * it saves.
   */
  class LogBook {
    var logs: map<(int, int), DailyLog>
    var nextLogId: int
    /** The stored logs, and possibly logs no longer stored. */
    ghost var Repr: set<DailyLog>

    constructor ()
      ensures logs == map[] && Valid()
    {
      logs := map[];
      nextLogId := 1;
      Repr := {};
    }

    /**
     * Every log is stored, has a generated id below the next one, sits under
     * its own (user, date), owns its entries and has balanced totals.
     */
    ghost predicate Valid()
      reads this, Repr
    {
      forall k :: k in logs ==>
        logs[k] in Repr && logs[k].id.Some? && logs[k].id.value < nextLogId
        && logs[k].userId == k.0 && logs[k].date == k.1 && logs[k].Owns() && logs[k].Balanced()
    }
  }

  /** The log stored under `key`, if any, as a set. */
  function StoredAt(book: LogBook, key: (int, int)): (s: set<DailyLog>)
    reads book
    ensures key in book.logs ==> s == {book.logs[key]}
    ensures key !in book.logs ==> s == {}
  {
    if key in book.logs then {book.logs[key]} else {}
  }

  /**
   * An entry's snapshot: each nutrient times round4(quantity / servingSize),
   * rounded to 2 places. A missing serving size, missing nutritional
   * information or a missing one of the four nutrients is a null dereference,
   * and a zero serving size a division by zero.
   */
  function EntryMacros(food: Food, quantity: real): (r: Result<DailyTotals>)
    ensures r.Err? <==>
      food.servingSize.None? || food.servingSize == Some(0.0) || food.nutritionalInfo.None?
      || food.nutritionalInfo.value.calories.None? || food.nutritionalInfo.value.protein.None?
      || food.nutritionalInfo.value.carbohydrates.None? || food.nutritionalInfo.value.fats.None?
    ensures food.servingSize == Some(0.0) ==> r == Err(DivisionByZero)
    ensures r.Err? && food.servingSize != Some(0.0) ==> r == Err(NullPointer)
  {
    if food.servingSize.None? then Err(NullPointer)
    else if food.servingSize.value == 0.0 then Err(DivisionByZero)
    else
      var ratio := Divide(quantity, food.servingSize.value, 4);
      if food.nutritionalInfo.None? then Err(NullPointer)
      else
        var n := food.nutritionalInfo.value;
        if n.calories.None? || n.protein.None? || n.carbohydrates.None? || n.fats.None? then Err(NullPointer)
        else Ok(DailyTotals(Round(n.calories.value * ratio, 2), Round(n.protein.value * ratio, 2),
                            Round(n.carbohydrates.value * ratio, 2), Round(n.fats.value * ratio, 2)))
  }

  /** The snapshot of an entry never goes below zero for a food without negative nutrients. */
  lemma EntryMacrosNonNegative(food: Food, quantity: real)
    requires EntryMacros(food, quantity).Ok? && quantity >= 0.0 && food.servingSize.value > 0.0
    requires food.nutritionalInfo.value.calories.value >= 0.0 && food.nutritionalInfo.value.protein.value >= 0.0
    requires food.nutritionalInfo.value.carbohydrates.value >= 0.0 && food.nutritionalInfo.value.fats.value >= 0.0
    ensures var m := EntryMacros(food, quantity).value;
      m.calories >= 0.0 && m.protein >= 0.0 && m.carbs >= 0.0 && m.fats >= 0.0
  {
  }

  /** A new entry of `log` for the requested food and portion, with its snapshot. */
  function NewEntry(log: DailyLog, food: Food, request: MealEntryRequest, macros: DailyTotals): MealEntry
  {
    MealEntry(None, log, food, request.mealType, request.quantity, request.unit,
              macros.calories, macros.protein, macros.carbs, macros.fats)
  }

  /** Sets the log's four totals to the sums over its entries. */
  method RecalculateTotals(log: DailyLog)
    modifies log`totalCalories, log`totalProtein, log`totalCarbs, log`totalFats
    ensures log.Totals() == EntriesTotals(log.mealEntries)
    ensures log.mealEntries == old(log.mealEntries) && log.id == old(log.id) && log.dailyWeight == old(log.dailyWeight)
  {
    var calories, protein, carbs, fats := 0.0, 0.0, 0.0, 0.0;
    var entries := log.mealEntries;
    for i := 0 to |entries|
      invariant unchanged(log)
      invariant DailyTotals(calories, protein, carbs, fats) == EntriesTotals(entries[..i])
    {
      assert entries[..i + 1] == entries[..i] + [entries[i]];
      EntriesTotalsAppend(entries[..i], entries[i]);
      calories := calories + entries[i].calories;
      protein := protein + entries[i].protein;
      carbs := carbs + entries[i].carbohydrates;
      fats := fats + entries[i].fats;
    }
    assert entries[..|entries|] == entries;
    log.totalCalories, log.totalProtein, log.totalCarbs, log.totalFats := calories, protein, carbs, fats;
  }

  /** How an entry is shown. */
  function EntryDto(e: MealEntry): MealEntryDto
  {
    MealEntryDto(e.id, e.food.id, e.food.name, e.food.brand, e.quantity, e.unit,
                 e.calories, e.protein, e.carbohydrates, e.fats)
  }

  /** The shown entries of one meal type, in log order. */
  function EntriesOf(entries: seq<MealEntry>, t: MealType): (r: seq<MealEntryDto>)
    ensures |r| <= |entries|
  {
    if entries == [] then []
    else
      var last := entries[|entries| - 1];
      EntriesOf(entries[..|entries| - 1], t) + (if last.mealType == t then [EntryDto(last)] else [])
  }

  /** The entries grouped by meal type, with a (possibly empty) list for every meal type. */
  function MealsByType(entries: seq<MealEntry>): (m: map<MealType, seq<MealEntryDto>>)
    ensures forall t :: t in m
  {
    assert forall t :: t in MealTypes by {
      forall t ensures t in MealTypes {
        var i := MealIndex(t);
      }
    }
    map t | t in MealTypes :: EntriesOf(entries, t)
  }

  /** One more entry lands at the end of its own meal type's list and nowhere else. */
  lemma MealsByTypeAppend(entries: seq<MealEntry>, e: MealEntry)
    ensures MealsByType(entries + [e])
      == MealsByType(entries)[e.mealType := MealsByType(entries)[e.mealType] + [EntryDto(e)]]
  {
    var s := entries + [e];
    assert s[..|s| - 1] == entries;
    var updated := MealsByType(entries)[e.mealType := MealsByType(entries)[e.mealType] + [EntryDto(e)]];
    forall t
      ensures MealsByType(s)[t] == updated[t]
    {
      assert EntriesOf(s, t) == EntriesOf(entries, t) + (if e.mealType == t then [EntryDto(e)] else []);
    }
    assert MealsByType(s).Keys == updated.Keys;
  }

  /** The profile's goals, or 2000 kcal, 150 g protein, 200 g carbohydrates and 65 g fats without a profile. */
  function GetUserGoals(profile: Option<UserProfile>): (g: DailyGoals)
    ensures profile.None? ==> g == DailyGoals(Some(2000.0), Some(150.0), Some(200.0), Some(65.0))
    ensures profile.Some? ==>
      g.calorieGoal == profile.value.dailyCalorieGoal && g.proteinGoal == profile.value.dailyProteinGoal
      && g.carbsGoal == profile.value.dailyCarbsGoal && g.fatsGoal == profile.value.dailyFatsGoal
  {
    match profile
    case Some(p) => DailyGoals(p.dailyCalorieGoal, p.dailyProteinGoal, p.dailyCarbsGoal, p.dailyFatsGoal)
    case None => DailyGoals(Some(2000.0), Some(150.0), Some(200.0), Some(65.0))
  }

  /**
   * The response for a log: its stored fields and totals, the goals (absent
   * when no user is given), and its entries grouped by meal type.
   */
  method MapToDto(log: DailyLog, goals: Option<DailyGoals>) returns (r: DailyLogResponse)
    ensures r.id == log.id && r.date == log.date && r.dailyWeight == log.dailyWeight
    ensures r.totals == log.Totals() && r.goals == goals
    ensures r.meals == MealsByType(log.mealEntries)
  {
    var meals: map<MealType, seq<MealEntryDto>> := map[];
    for k := 0 to |MealTypes|
      invariant meals == map t | t in MealTypes[..k] :: []
    {
      assert MealTypes[..k + 1] == MealTypes[..k] + [MealTypes[k]];
      meals := meals[MealTypes[k] := []];
    }
    assert MealTypes[..|MealTypes|] == MealTypes;
    var entries := log.mealEntries;
    assert meals == MealsByType(entries[..0]);
    for i := 0 to |entries|
      invariant meals == MealsByType(entries[..i])
    {
      assert entries[..i + 1] == entries[..i] + [entries[i]];
      MealsByTypeAppend(entries[..i], entries[i]);
      meals := meals[entries[i].mealType := meals[entries[i].mealType] + [EntryDto(entries[i])]];
    }
    assert entries[..|entries|] == entries;
    r := DailyLogResponse(log.id, log.date, log.dailyWeight, log.Totals(), goals, meals);
  }

  /** Each entry is shown in its own meal type's list. */
  lemma {:induction false} EntryShownInItsMeal(entries: seq<MealEntry>, i: nat)
    requires i < |entries|
    ensures EntryDto(entries[i]) in MealsByType(entries)[entries[i].mealType]
    decreases |entries|
  {
    var init, t := entries[..|entries| - 1], entries[i].mealType;
    assert MealsByType(entries)[t] == EntriesOf(entries, t);
    if i < |entries| - 1 {
      EntryShownInItsMeal(init, i);
      assert init[i] == entries[i];
      assert MealsByType(init)[t] == EntriesOf(init, t);
    }
  }

  /** The meal lists together hold exactly as many items as the log has entries. */
  lemma {:induction false} MealListsPartition(entries: seq<MealEntry>)
    ensures |EntriesOf(entries, Breakfast)| + |EntriesOf(entries, Lunch)| + |EntriesOf(entries, Dinner)|
      + |EntriesOf(entries, Snack)| == |entries|
    decreases |entries|
  {
    if entries != [] {
      MealListsPartition(entries[..|entries| - 1]);
    }
  }

  /**
   * Logs a food: the (user, date) log is reused, or a new one is started with
   * zero totals and no entries and saved under a newly generated id; an unknown food is NotFound and a food whose
   * snapshot cannot be computed fails, both before anything is changed. On
   * success the log holds one more entry, at the end, keeps its id and weight,
   * and its totals are the sums over its entries.
   */
  method AddEntry(book: LogBook, request: MealEntryRequest, userId: int, foods: map<int, Food>,
                  profile: Option<UserProfile>)
    returns (r: Result<DailyLogResponse>)
    requires book.Valid()
    modifies book`logs, book`nextLogId, book`Repr
    modifies StoredAt(book, (userId, request.date))`mealEntries
    modifies StoredAt(book, (userId, request.date))`totalCalories, StoredAt(book, (userId, request.date))`totalProtein
    modifies StoredAt(book, (userId, request.date))`totalCarbs, StoredAt(book, (userId, request.date))`totalFats
    ensures book.Valid()
    ensures FindFood(foods, request.foodId).None? ==> r == Err(NotFound("Food"))
    ensures FindFood(foods, request.foodId).Some? ==>
      r.Err? == EntryMacros(FindFood(foods, request.foodId).value, request.quantity).Err?
    ensures r.Err? ==> unchanged(book) && unchanged(book.Repr)
    ensures r.Ok? ==> (userId, request.date) in book.logs && book.Repr == old(book.Repr) + {book.logs[(userId, request.date)]}
    ensures r.Ok? && (userId, request.date) in old(book.logs) ==>
      book.logs == old(book.logs) && book.Repr == old(book.Repr)
      && book.logs[(userId, request.date)].id == old(book.logs[(userId, request.date)].id)
      && book.logs[(userId, request.date)].dailyWeight == old(book.logs[(userId, request.date)].dailyWeight)
    ensures r.Ok? ==>
      var key := (userId, request.date);
      var food := FindFood(foods, request.foodId).value;
      key in book.logs && book.logs.Keys == old(book.logs.Keys) + {key}
      && (forall k :: k in old(book.logs) ==> book.logs[k] == old(book.logs[k]))
      && (forall k :: k in old(book.logs) && k != key ==> book.logs[k].mealEntries == old(book.logs[k].mealEntries))
      && (key !in old(book.logs) ==>
            fresh(book.logs[key]) && book.logs[key].dailyWeight.None? && book.logs[key].id == Some(old(book.nextLogId))
            && forall k :: k in old(book.logs) ==> old(book.logs[k].id) != book.logs[key].id)
      && book.logs[key].mealEntries
         == (if key in old(book.logs) then old(book.logs[key].mealEntries) else [])
            + [NewEntry(book.logs[key], food, request, EntryMacros(food, request.quantity).value)]
      && r.value.id == book.logs[key].id && r.value.date == request.date
      && r.value.dailyWeight == book.logs[key].dailyWeight
      && r.value.meals == MealsByType(book.logs[key].mealEntries)
      && r.value.totals == EntriesTotals(book.logs[key].mealEntries)
      && r.value.goals == Some(GetUserGoals(profile))
  {
    var food := FindFood(foods, request.foodId);
    if food.None? {
      return Err(NotFound("Food"));
    }
    var macros := EntryMacros(food.value, request.quantity);
    if macros.Err? {
      return Err(macros.error);
    }
    var log := LogEntry(book, userId, food.value, request, macros.value);
    var dto := MapToDto(log, Some(GetUserGoals(profile)));
    r := Ok(dto);
  }

  /** Appends a new entry to the (user, date) log, which is started when missing, and stores the log. */
  method LogEntry(book: LogBook, userId: int, food: Food, request: MealEntryRequest, macros: DailyTotals)
    returns (log: DailyLog)
    requires book.Valid()
    modifies book`logs, book`nextLogId, book`Repr
    modifies StoredAt(book, (userId, request.date))`mealEntries
    modifies StoredAt(book, (userId, request.date))`totalCalories, StoredAt(book, (userId, request.date))`totalProtein
    modifies StoredAt(book, (userId, request.date))`totalCarbs, StoredAt(book, (userId, request.date))`totalFats
    ensures book.Valid()
    ensures (userId, request.date) in book.logs && log == book.logs[(userId, request.date)]
    ensures book.logs.Keys == old(book.logs.Keys) + {(userId, request.date)}
    ensures forall k :: k in old(book.logs) ==> book.logs[k] == old(book.logs[k])
    ensures (userId, request.date) !in old(book.logs) ==> fresh(log) && log.dailyWeight.None?
    ensures (userId, request.date) !in old(book.logs) ==>
      log.id == Some(old(book.nextLogId)) && forall k :: k in old(book.logs) ==> old(book.logs[k].id) != log.id
    ensures book.Repr == old(book.Repr) + {log}
    ensures (userId, request.date) in old(book.logs) ==> book.logs == old(book.logs) && book.Repr == old(book.Repr)
    ensures (userId, request.date) in old(book.logs) ==> log.id == old(log.id) && log.dailyWeight == old(log.dailyWeight)
    ensures forall k :: k in old(book.logs) && k != (userId, request.date) ==>
      book.logs[k].mealEntries == old(book.logs[k].mealEntries)
    ensures log.mealEntries
      == (if (userId, request.date) in old(book.logs) then old(book.logs[(userId, request.date)].mealEntries) else [])
         + [NewEntry(log, food, request, macros)]
  {
    var key := (userId, request.date);
    if key in book.logs {
      log := book.logs[key];
      AppendToStored(book, key, log, NewEntry(log, food, request, macros));
      assert book.Repr == old(book.Repr) + {log};
    } else {
      log := StartLog(book, userId, food, request, macros);
    }
  }

  /**
   * Starts the (user, date) log with one new entry and saves it under a newly
   * generated id; the stored logs are unchanged.
   */
  method StartLog(book: LogBook, userId: int, food: Food, request: MealEntryRequest, macros: DailyTotals)
    returns (log: DailyLog)
    requires book.Valid() && (userId, request.date) !in book.logs
    modifies book`logs, book`nextLogId, book`Repr
    ensures book.Valid() && fresh(log) && log.dailyWeight.None?
    ensures log.id == Some(old(book.nextLogId)) && book.nextLogId == old(book.nextLogId) + 1
    ensures forall k :: k in old(book.logs) ==> old(book.logs[k].id) != log.id
    ensures book.logs == old(book.logs)[(userId, request.date) := log] && book.Repr == old(book.Repr) + {log}
    ensures forall k :: k in old(book.logs) ==> book.logs[k].mealEntries == old(book.logs[k].mealEntries)
    ensures log.mealEntries == [NewEntry(log, food, request, macros)]
  {
    log := new DailyLog(userId, request.date);
    AppendEntry(log, NewEntry(log, food, request, macros));
    forall k | k in book.logs
      ensures book.logs[k].mealEntries == old(book.logs[k].mealEntries)
    {
      assert book.logs[k] in old(book.Repr);
    }
    StoreLog(book, (userId, request.date), log);
  }

  /** Adds an entry to the log stored under `key`; the book and its other logs are unchanged. */
  method AppendToStored(book: LogBook, key: (int, int), log: DailyLog, entry: MealEntry)
    requires book.Valid() && key in book.logs && book.logs[key] == log
    modifies log`mealEntries, log`totalCalories, log`totalProtein, log`totalCarbs, log`totalFats
    ensures book.Valid()
    ensures log.mealEntries == old(log.mealEntries) + [entry.(dailyLog := log)]
    ensures log.id == old(log.id) && log.dailyWeight == old(log.dailyWeight)
    ensures forall k :: k in book.logs && k != key ==> book.logs[k].mealEntries == old(book.logs[k].mealEntries)
  {
    AppendEntry(log, entry);
    forall k | k in book.logs
      ensures book.logs[k].userId == k.0 && book.logs[k].date == k.1
      ensures book.logs[k].Owns() && book.logs[k].Balanced()
    {
      if k != key {
        assert old(book.logs[k].userId) == k.0 && old(book.logs[k].date) == k.1;
        assert book.logs[k] != log;
      }
    }
  }

  /**
   * Saves a log that is not yet in the book: it takes the generated id, which
   * no stored log has, and is stored under its own (user, date).
   */
  method StoreLog(book: LogBook, key: (int, int), log: DailyLog)
    requires book.Valid() && key !in book.logs && log !in book.Repr
    requires log.userId == key.0 && log.date == key.1 && log.Owns() && log.Balanced()
    modifies book`logs, book`nextLogId, book`Repr, log
    ensures book.Valid()
    ensures book.logs == old(book.logs)[key := log] && book.Repr == old(book.Repr) + {log}
    ensures log.id == Some(old(book.nextLogId)) && book.nextLogId == old(book.nextLogId) + 1
    ensures forall k :: k in old(book.logs) ==> old(book.logs[k].id) != log.id
    ensures log.dailyWeight == old(log.dailyWeight)
    ensures log.mealEntries == old(log.mealEntries) && log.Totals() == old(log.Totals())
    ensures forall k :: k in old(book.logs) ==> book.logs[k].mealEntries == old(book.logs[k].mealEntries)
  {
    log.id := Some(book.nextLogId);
    book.nextLogId := book.nextLogId + 1;
    book.logs := book.logs[key := log];
    book.Repr := book.Repr + {log};
  }

  /** Adds an entry to a log and recomputes the log's totals. */
  method AppendEntry(log: DailyLog, entry: MealEntry)
    modifies log`mealEntries, log`totalCalories, log`totalProtein, log`totalCarbs, log`totalFats
    ensures log.mealEntries == old(log.mealEntries) + [entry.(dailyLog := log)]
    ensures log.Balanced() && (old(log.Owns()) ==> log.Owns())
    ensures log.id == old(log.id)
    ensures log.dailyWeight == old(log.dailyWeight)
  {
    log.AddMealEntry(entry);
    RecalculateTotals(log);
  }

  /** The position of the entry with id `entryId` in `entries`, if any. */
  function FindEntry(entries: seq<MealEntry>, entryId: int): (r: Option<nat>)
    ensures r.Some? ==> r.value < |entries| && entries[r.value].id == Some(entryId)
    ensures r.None? ==> forall i :: 0 <= i < |entries| ==> entries[i].id != Some(entryId)
  {
    if entries == [] then None
    else if entries[0].id == Some(entryId) then Some(0)
    else
      var r := FindEntry(entries[1..], entryId);
      if r.Some? then Some(r.value + 1) else None
  }

  /**
   * Changes an entry's quantity, unit and meal type and recomputes its
   * snapshot from its own food; the entry keeps its place in the log and the
   * log's totals are recomputed. A missing entry is NotFound.
   */
  method UpdateEntry(log: DailyLog?, entryId: int, request: MealEntryRequest, profile: Option<UserProfile>)
    returns (r: Result<DailyLogResponse>)
    requires log != null ==> log.Owns()
    modifies log
    ensures log == null || FindEntry(old(log.mealEntries), entryId).None? ==> r == Err(NotFound("MealEntry"))
    ensures r.Err? && log != null ==> log.mealEntries == old(log.mealEntries) && log.Totals() == old(log.Totals())
    ensures r.Ok? ==>
      var i := FindEntry(old(log.mealEntries), entryId).value;
      var e := old(log.mealEntries)[i];
      EntryMacros(e.food, request.quantity).Ok?
    ensures r.Ok? ==>
      var i := FindEntry(old(log.mealEntries), entryId).value;
      var e := old(log.mealEntries)[i];
      var m := EntryMacros(e.food, request.quantity).value;
      log.mealEntries == old(log.mealEntries)[i := e.(quantity := request.quantity, unit := request.unit,
           mealType := request.mealType, calories := m.calories, protein := m.protein,
           carbohydrates := m.carbs, fats := m.fats)]
      && log.Owns() && log.Balanced()
      && r.value.meals == MealsByType(log.mealEntries) && r.value.goals == Some(GetUserGoals(profile))
    ensures log != null ==> log.id == old(log.id)
    ensures log != null ==> log.dailyWeight == old(log.dailyWeight)
  {
    if log == null {
      return Err(NotFound("MealEntry"));
    }
    var i := FindEntry(log.mealEntries, entryId);
    if i.None? {
      return Err(NotFound("MealEntry"));
    }
    var e := log.mealEntries[i.value];
    var macros := EntryMacros(e.food, request.quantity);
    if macros.Err? {
      return Err(macros.error);
    }
    var m := macros.value;
    log.mealEntries := log.mealEntries[i.value := e.(quantity := request.quantity, unit := request.unit,
      mealType := request.mealType, calories := m.calories, protein := m.protein, carbohydrates := m.carbs,
      fats := m.fats)];
    RecalculateTotals(log);
    var dto := MapToDto(log, Some(GetUserGoals(profile)));
    r := Ok(dto);
  }

  /**
   * Deletes an entry: it leaves its log, the other entries keep their order,
   * and the totals drop by exactly its snapshot. A missing entry is NotFound.
   */
  method DeleteEntry(log: DailyLog?, entryId: int, profile: Option<UserProfile>)
    returns (r: Result<DailyLogResponse>)
    requires log != null ==> log.Owns() && log.Balanced()
    modifies log
    ensures log == null || FindEntry(old(log.mealEntries), entryId).None? ==> r == Err(NotFound("MealEntry"))
    ensures r.Err? && log != null ==> log.mealEntries == old(log.mealEntries) && log.Totals() == old(log.Totals())
    ensures r.Ok? ==>
      var e := old(log.mealEntries)[FindEntry(old(log.mealEntries), entryId).value];
      log.mealEntries == RemoveFirst(old(log.mealEntries), e)
      && |log.mealEntries| == |old(log.mealEntries)| - 1
      && log.Totals().Plus(e.Totals()) == old(log.Totals())
      && log.Owns() && log.Balanced()
      && r.value.meals == MealsByType(log.mealEntries) && r.value.goals == Some(GetUserGoals(profile))
    ensures log != null ==> log.id == old(log.id)
    ensures log != null ==> log.dailyWeight == old(log.dailyWeight)
  {
    if log == null {
      return Err(NotFound("MealEntry"));
    }
    var i := FindEntry(log.mealEntries, entryId);
    if i.None? {
      return Err(NotFound("MealEntry"));
    }
    var e := log.mealEntries[i.value];
    assert e in log.mealEntries;
    RemovedEntryTotals(log.mealEntries, e);
    var removed := log.RemoveMealEntry(e);
    RecalculateTotals(log);
    var dto := MapToDto(log, Some(GetUserGoals(profile)));
    r := Ok(dto);
  }

  /**
   * Records the day's weight in the (user, date) log, starting a new log with
   * a newly generated id when there is none; entries, totals and the id of an
   * existing log are untouched. The response carries the log's id.
   */
  method UpdateDailyWeight(book: LogBook, date: int, weight: Option<real>, userId: int,
                           profile: Option<UserProfile>)
    returns (r: DailyLogResponse)
    requires book.Valid()
    modifies book, if (userId, date) in book.logs then {book.logs[(userId, date)]} else {}
    ensures book.Valid()
    ensures (userId, date) in book.logs && book.logs.Keys == old(book.logs.Keys) + {(userId, date)}
    ensures book.Repr == old(book.Repr) + {book.logs[(userId, date)]}
    ensures forall k :: k in old(book.logs) ==> book.logs[k] == old(book.logs[k])
    ensures book.logs[(userId, date)].dailyWeight == weight
    ensures (userId, date) in old(book.logs) ==>
      book.logs[(userId, date)].mealEntries == old(book.logs[(userId, date)].mealEntries)
      && book.logs[(userId, date)].Totals() == old(book.logs[(userId, date)].Totals())
      && book.logs[(userId, date)].id == old(book.logs[(userId, date)].id)
    ensures (userId, date) !in old(book.logs) ==>
      fresh(book.logs[(userId, date)]) && book.logs[(userId, date)].mealEntries == []
      && book.logs[(userId, date)].Totals() == ZeroDay && book.logs[(userId, date)].id == Some(old(book.nextLogId))
      && forall k :: k in old(book.logs) ==> old(book.logs[k].id) != book.logs[(userId, date)].id
    ensures r.id == book.logs[(userId, date)].id && r.date == date
    ensures r.dailyWeight == weight && r.goals == Some(GetUserGoals(profile))
    ensures r.meals == MealsByType(book.logs[(userId, date)].mealEntries)
  {
    var log := RecordWeight(book, userId, date, weight);
    r := MapToDto(log, Some(GetUserGoals(profile)));
  }

  /**
   * Sets the weight of the (user, date) log; a missing log is first started
   * empty and saved under a newly generated id.
   */
  method RecordWeight(book: LogBook, userId: int, date: int, weight: Option<real>) returns (log: DailyLog)
    requires book.Valid()
    modifies book, if (userId, date) in book.logs then {book.logs[(userId, date)]} else {}
    ensures book.Valid()
    ensures (userId, date) in book.logs && log == book.logs[(userId, date)]
    ensures book.logs.Keys == old(book.logs.Keys) + {(userId, date)}
    ensures forall k :: k in old(book.logs) ==> book.logs[k] == old(book.logs[k])
    ensures log.dailyWeight == weight
    ensures (userId, date) in old(book.logs) ==>
      log.mealEntries == old(log.mealEntries) && log.Totals() == old(log.Totals()) && log.id == old(log.id)
    ensures (userId, date) !in old(book.logs) ==>
      fresh(log) && log.mealEntries == [] && log.Totals() == ZeroDay && log.id == Some(old(book.nextLogId))
      && forall k :: k in old(book.logs) ==> old(book.logs[k].id) != log.id
    ensures book.Repr == old(book.Repr) + {log}
  {
    var key := (userId, date);
    if key in book.logs {
      log := book.logs[key];
      SetWeight(log, weight);
      forall k | k in book.logs
        ensures book.logs[k].id.Some? && book.logs[k].id.value < book.nextLogId
        ensures book.logs[k].userId == k.0 && book.logs[k].date == k.1
        ensures book.logs[k].Owns() && book.logs[k].Balanced()
      {
        if k != key {
          assert book.logs[k] != log;
        }
      }
    } else {
      log := new DailyLog(userId, date);
      SetWeight(log, weight);
      StoreLog(book, key, log);
    }
  }

  method SetWeight(log: DailyLog, weight: Option<real>)
    modifies log`dailyWeight
    ensures log.dailyWeight == weight && log.mealEntries == old(log.mealEntries) && log.Totals() == old(log.Totals())
    ensures log.id == old(log.id)
    ensures old(log.Owns()) ==> log.Owns()
    ensures old(log.Balanced()) ==> log.Balanced()
  {
    log.dailyWeight := weight;
  }
}
