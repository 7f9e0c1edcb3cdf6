/**
 * The life of a diet plan around its generation: a plan is generated or
 * regenerated under a new version, shown with its items enriched from their
 * foods, and accepted into the user's daily logs.
 *
 * Repository lookups (the user's profile, the latest plan of a day, a plan by
 * id, foods by id) are parameters; the ids the database assigns on saving are
 * parameters too. A failed operation is rolled back, so it returns `Err` and
 * leaves every object as it was.
 */
module PlanLifecycle {
  import opened Wrappers
  import opened Nutrition
  import opened DietPlans
  import opened RecommendationMapper
  import opened DailyLogs
  import opened DailyLogService
  import opened DietGeneration

  /* ---------------------------------------------------------------------- */
  /* Accepting a plan                                                        */
  /* ---------------------------------------------------------------------- */

  /** The (user, date) of the log a recommendation is entered into. */
  function LogKey(rec: DietRecommendation): (int, int)
  {
    (rec.userId, rec.date)
  }

  /** The logs the first `n` recommendations are entered into. */
  function LogKeys(recs: seq<DietRecommendation>, n: nat): set<(int, int)>
    requires n <= |recs|
  {
    if n == 0 then {} else LogKeys(recs, n - 1) + {LogKey(recs[n - 1])}
  }

  /** A log is among those of the first `n` recommendations exactly when one of them is entered into it. */
  lemma {:induction false} LogKeysMembers(recs: seq<DietRecommendation>, n: nat, k: (int, int))
    requires n <= |recs|
    ensures k in LogKeys(recs, n) <==> exists i :: 0 <= i < n && LogKey(recs[i]) == k
  {
    if n != 0 {
      LogKeysMembers(recs, n - 1, k);
      if LogKey(recs[n - 1]) == k {
        assert 0 <= n - 1 < n && LogKey(recs[n - 1]) == k;
      }
    }
  }

  /**
   * The entry request for a recommendation: its day, meal, food and quantity,
   * in the food's serving unit, or grams when the food or its unit is unknown.
   */
  function RequestOf(rec: DietRecommendation, foods: map<int, Food>): (q: MealEntryRequest)
    ensures q.date == rec.date && q.mealType == rec.mealType && q.foodId == rec.foodId
    ensures q.quantity == rec.suggestedQuantity
    ensures FindFood(foods, rec.foodId).Some? && FindFood(foods, rec.foodId).value.servingUnit.Some? ==>
      q.unit == FindFood(foods, rec.foodId).value.servingUnit.value
    ensures FindFood(foods, rec.foodId).None? || FindFood(foods, rec.foodId).value.servingUnit.None? ==> q.unit == "g"
  {
    var food := FindFood(foods, rec.foodId);
    var unit := if food.Some? && food.value.servingUnit.Some? then food.value.servingUnit.value else "g";
    MealEntryRequest(rec.date, rec.mealType, rec.foodId, rec.suggestedQuantity, unit)
  }

  /** Logging the recommendation succeeds: its food exists and yields a snapshot. */
  predicate Loggable(rec: DietRecommendation, foods: map<int, Food>)
  {
    FindFood(foods, rec.foodId).Some? && EntryMacros(FindFood(foods, rec.foodId).value, rec.suggestedQuantity).Ok?
  }

  /** Why logging the recommendation fails, if it does. */
  function LogFailure(rec: DietRecommendation, foods: map<int, Food>): (e: Option<Error>)
    ensures e.None? <==> Loggable(rec, foods)
    ensures FindFood(foods, rec.foodId).None? ==> e == Some(NotFound("Food"))
  {
    var food := FindFood(foods, rec.foodId);
    if food.None? then Some(NotFound("Food"))
    else
      var macros := EntryMacros(food.value, rec.suggestedQuantity);
      if macros.Err? then Some(macros.error) else None
  }

  /** The failure of the first recommendation that cannot be logged, if any. */
  function FirstFailure(recs: seq<DietRecommendation>, foods: map<int, Food>): (e: Option<Error>)
    ensures e.None? <==> forall i :: 0 <= i < |recs| ==> Loggable(recs[i], foods)
    ensures e.Some? ==> exists i :: 0 <= i < |recs| && LogFailure(recs[i], foods) == e
  {
    if recs == [] then None
    else if !Loggable(recs[0], foods) then LogFailure(recs[0], foods)
    else
      var e := FirstFailure(recs[1..], foods);
      assert forall i :: 1 <= i < |recs| ==> recs[i] == recs[1..][i - 1];
      assert e.Some? ==> exists i :: 0 <= i < |recs| && LogFailure(recs[i], foods) == e by {
        if e.Some? {
          var i :| 0 <= i < |recs[1..]| && LogFailure(recs[1..][i], foods) == e;
          assert recs[i + 1] == recs[1..][i];
        }
      }
      e
  }

  /** The entry of `log` that logging the recommendation creates. */
  function AcceptedEntry(rec: DietRecommendation, log: DailyLog, foods: map<int, Food>): (e: MealEntry)
    requires Loggable(rec, foods)
    ensures e.dailyLog == log && e.id.None? && e.food == FindFood(foods, rec.foodId).value
    ensures e.mealType == rec.mealType && e.quantity == rec.suggestedQuantity
    ensures e.Totals() == EntryMacros(FindFood(foods, rec.foodId).value, rec.suggestedQuantity).value
  {
    var food := FindFood(foods, rec.foodId).value;
    NewEntry(log, food, RequestOf(rec, foods), EntryMacros(food, rec.suggestedQuantity).value)
  }

  predicate AllLoggable(recs: seq<DietRecommendation>, foods: map<int, Food>)
  {
    forall i :: 0 <= i < |recs| ==> Loggable(recs[i], foods)
  }

  /** The entries that accepting the first `n` recommendations adds to the log `log` kept under `key`, in plan order. */
  function AcceptedEntries(recs: seq<DietRecommendation>, n: nat, key: (int, int), log: DailyLog,
                           foods: map<int, Food>): (es: seq<MealEntry>)
    requires n <= |recs| && AllLoggable(recs, foods)
    ensures |es| <= n
  {
    if n == 0 then []
    else
      AcceptedEntries(recs, n - 1, key, log, foods)
      + (if LogKey(recs[n - 1]) == key then [AcceptedEntry(recs[n - 1], log, foods)] else [])
  }

  /** The first `n` recommendations that go to the log under `key`, in plan order. */
  function RecsFor(recs: seq<DietRecommendation>, n: nat, key: (int, int)): (g: seq<DietRecommendation>)
    requires n <= |recs|
    ensures forall j :: 0 <= j < |g| ==> g[j] in recs && LogKey(g[j]) == key
  {
    if n == 0 then []
    else RecsFor(recs, n - 1, key) + (if LogKey(recs[n - 1]) == key then [recs[n - 1]] else [])
  }

  /**
   * The log under `key` receives one entry per recommendation for that key, in
   * plan order, each for the recommendation's food, meal and quantity.
   */
  lemma {:induction false} AcceptedEntriesOneEach(recs: seq<DietRecommendation>, n: nat, key: (int, int),
                                                   log: DailyLog, foods: map<int, Food>)
    requires n <= |recs| && AllLoggable(recs, foods)
    ensures |AcceptedEntries(recs, n, key, log, foods)| == |RecsFor(recs, n, key)|
    ensures forall j :: 0 <= j < |RecsFor(recs, n, key)| ==>
      Loggable(RecsFor(recs, n, key)[j], foods)
      && AcceptedEntries(recs, n, key, log, foods)[j] == AcceptedEntry(RecsFor(recs, n, key)[j], log, foods)
  {
    if n != 0 {
      AcceptedEntriesOneEach(recs, n - 1, key, log, foods);
    }
  }

  /** When every recommendation goes to the same log, that log receives one entry per recommendation. */
  lemma {:induction false} RecsForSameKey(recs: seq<DietRecommendation>, n: nat, key: (int, int))
    requires n <= |recs| && forall i :: 0 <= i < |recs| ==> LogKey(recs[i]) == key
    ensures RecsFor(recs, n, key) == recs[..n]
  {
    if n != 0 {
      RecsForSameKey(recs, n - 1, key);
      assert recs[..n - 1] + [recs[n - 1]] == recs[..n];
    }
  }

  /** A key none of the first `n` recommendations goes to receives nothing. */
  lemma {:induction false} AcceptedEntriesNone(recs: seq<DietRecommendation>, n: nat, key: (int, int),
                                               log: DailyLog, foods: map<int, Food>)
    requires n <= |recs| && AllLoggable(recs, foods) && key !in LogKeys(recs, n)
    ensures AcceptedEntries(recs, n, key, log, foods) == []
  {
    if n != 0 {
      assert LogKey(recs[n - 1]) in LogKeys(recs, n);
      assert key !in LogKeys(recs, n - 1);
      AcceptedEntriesNone(recs, n - 1, key, log, foods);
    }
  }

  /** One more accepted recommendation adds its entry to its own log and nothing to the others. */
  lemma AcceptedEntriesStep(recs: seq<DietRecommendation>, i: nat, key: (int, int), log: DailyLog,
                            foods: map<int, Food>)
    requires i < |recs| && AllLoggable(recs, foods)
    ensures LogKey(recs[i]) == key ==>
      AcceptedEntries(recs, i + 1, key, log, foods)
      == AcceptedEntries(recs, i, key, log, foods) + [AcceptedEntry(recs[i], log, foods)]
    ensures LogKey(recs[i]) != key ==>
      AcceptedEntries(recs, i + 1, key, log, foods) == AcceptedEntries(recs, i, key, log, foods)
  {
    var es := AcceptedEntries(recs, i, key, log, foods);
    assert es + [] == es;
  }

  /** Each log's entries, by (user, date). */
  function EntriesByKey(book: LogBook): (m: map<(int, int), seq<MealEntry>>)
    requires book.Valid()
    reads book, book.Repr
    ensures m.Keys == book.logs.Keys
    ensures forall k :: k in m ==> m[k] == book.logs[k].mealEntries
  {
    map k | k in book.logs :: book.logs[k].mealEntries
  }

  /**
   * `acceptRecommendation`: logs the recommendation's food, quantity and meal
   * for its user and day, in the food's unit. Only the log of that user and
   * day changes: an existing log keeps its id and weight, and a missing one is
   * started.
   */
  method AcceptRecommendation(book: LogBook, rec: DietRecommendation, foods: map<int, Food>)
    returns (ghost log: DailyLog)
    requires book.Valid() && Loggable(rec, foods)
    modifies book`logs, book`nextLogId, book`Repr
    modifies StoredAt(book, LogKey(rec))`mealEntries
    modifies StoredAt(book, LogKey(rec))`totalCalories, StoredAt(book, LogKey(rec))`totalProtein
    modifies StoredAt(book, LogKey(rec))`totalCarbs, StoredAt(book, LogKey(rec))`totalFats
    ensures book.Valid()
    ensures book.logs == old(book.logs)[LogKey(rec) := log]
    ensures LogKey(rec) in old(book.logs) ==> log == old(book.logs[LogKey(rec)])
    ensures LogKey(rec) in old(book.logs) ==> log.id == old(log.id) && log.dailyWeight == old(log.dailyWeight)
    ensures LogKey(rec) !in old(book.logs) ==> fresh(log)
    ensures book.Repr == old(book.Repr) + {log} && (log in old(book.Repr) || fresh(log))
    ensures log.mealEntries
      == (if LogKey(rec) in old(book.logs) then old(log.mealEntries) else []) + [AcceptedEntry(rec, log, foods)]
    ensures EntriesByKey(book) == old(EntriesByKey(book))[LogKey(rec) := log.mealEntries]
  {
    ghost var key := LogKey(rec);
    ghost var beforeLogs := book.logs;
    ghost var prior := EntriesByKey(book);
    var r := AddEntry(book, RequestOf(rec, foods), rec.userId, foods, None);
    if r.Err? {
      assert false;
    }
    log := book.logs[key];
    UpdatedAt(book.logs, beforeLogs, key, log);
    ghost var after := EntriesByKey(book);
    forall k | k in prior && k != key
      ensures after[k] == prior[k]
    {
    }
    UpdatedAt(after, prior, key, log.mealEntries);
  }

  /** A map that differs from `m` at most at `key`, where it holds `v`, is `m` updated at `key`. */
  lemma UpdatedAt<V>(m': map<(int, int), V>, m: map<(int, int), V>, key: (int, int), v: V)
    requires m'.Keys == m.Keys + {key} && m'[key] == v
    requires forall k :: k in m && k != key ==> m'[k] == m[k]
    ensures m' == m[key := v]
  {
  }

  /**
   * The logs under `logs`, with entries `entries`, hold the entries they held
   * in `base` (none for a log not in `base`) followed by the entries of the
   * accepted recommendations that belong to them; the logs are those of `base`
   * and of the recommendations.
   */
  predicate Logged(entries: map<(int, int), seq<MealEntry>>, logs: map<(int, int), DailyLog>,
                   base: map<(int, int), seq<MealEntry>>, recs: seq<DietRecommendation>, n: nat,
                   foods: map<int, Food>)
    requires n <= |recs| && AllLoggable(recs, foods)
  {
    && entries.Keys == logs.Keys
    && logs.Keys == base.Keys + LogKeys(recs, n)
    && forall k :: k in logs ==>
      entries[k] == (if k in base then base[k] else []) + AcceptedEntries(recs, n, k, logs[k], foods)
  }

  /** Accepting the `i`-th recommendation extends what the first `i` logged. */
  lemma LoggedStep(entries: map<(int, int), seq<MealEntry>>, logs: map<(int, int), DailyLog>,
                   entries': map<(int, int), seq<MealEntry>>, logs': map<(int, int), DailyLog>,
                   log: DailyLog, base: map<(int, int), seq<MealEntry>>, recs: seq<DietRecommendation>,
                   i: nat, foods: map<int, Food>)
    requires i < |recs| && AllLoggable(recs, foods) && Logged(entries, logs, base, recs, i, foods)
    requires logs' == logs[LogKey(recs[i]) := log] && (LogKey(recs[i]) in logs ==> log == logs[LogKey(recs[i])])
    requires entries' == entries[LogKey(recs[i]) :=
               (if LogKey(recs[i]) in logs then entries[LogKey(recs[i])] else []) + [AcceptedEntry(recs[i], log, foods)]]
    ensures Logged(entries', logs', base, recs, i + 1, foods)
  {
    LoggedKeysStep(entries, logs, entries', logs', log, entries'[LogKey(recs[i])], base, recs, i);
    LoggedEntriesStep(entries, logs, entries', logs', log, base, recs, i, foods);
  }

  lemma LoggedKeysStep(entries: map<(int, int), seq<MealEntry>>, logs: map<(int, int), DailyLog>,
                       entries': map<(int, int), seq<MealEntry>>, logs': map<(int, int), DailyLog>,
                       log: DailyLog, added: seq<MealEntry>, base: map<(int, int), seq<MealEntry>>,
                       recs: seq<DietRecommendation>, i: nat)
    requires i < |recs| && entries.Keys == logs.Keys && logs.Keys == base.Keys + LogKeys(recs, i)
    requires logs' == logs[LogKey(recs[i]) := log] && entries' == entries[LogKey(recs[i]) := added]
    ensures entries'.Keys == logs'.Keys && logs'.Keys == base.Keys + LogKeys(recs, i + 1)
  {
  }

  lemma LoggedEntriesStep(entries: map<(int, int), seq<MealEntry>>, logs: map<(int, int), DailyLog>,
                          entries': map<(int, int), seq<MealEntry>>, logs': map<(int, int), DailyLog>,
                          log: DailyLog, base: map<(int, int), seq<MealEntry>>, recs: seq<DietRecommendation>,
                          i: nat, foods: map<int, Food>)
    requires i < |recs| && AllLoggable(recs, foods) && Logged(entries, logs, base, recs, i, foods)
    requires logs' == logs[LogKey(recs[i]) := log] && (LogKey(recs[i]) in logs ==> log == logs[LogKey(recs[i])])
    requires entries' == entries[LogKey(recs[i]) :=
               (if LogKey(recs[i]) in logs then entries[LogKey(recs[i])] else []) + [AcceptedEntry(recs[i], log, foods)]]
    ensures forall k :: k in logs' ==>
      entries'[k] == (if k in base then base[k] else []) + AcceptedEntries(recs, i + 1, k, logs'[k], foods)
  {
    forall k | k in logs'
      ensures entries'[k] == (if k in base then base[k] else []) + AcceptedEntries(recs, i + 1, k, logs'[k], foods)
    {
      LoggedStepAt(entries, logs, entries', logs', log, base, recs, i, foods, k);
    }
  }

  lemma LoggedStepAt(entries: map<(int, int), seq<MealEntry>>, logs: map<(int, int), DailyLog>,
                     entries': map<(int, int), seq<MealEntry>>, logs': map<(int, int), DailyLog>,
                     log: DailyLog, base: map<(int, int), seq<MealEntry>>, recs: seq<DietRecommendation>,
                     i: nat, foods: map<int, Food>, k: (int, int))
    requires i < |recs| && AllLoggable(recs, foods) && Logged(entries, logs, base, recs, i, foods)
    requires logs' == logs[LogKey(recs[i]) := log] && (LogKey(recs[i]) in logs ==> log == logs[LogKey(recs[i])])
    requires entries' == entries[LogKey(recs[i]) :=
               (if LogKey(recs[i]) in logs then entries[LogKey(recs[i])] else []) + [AcceptedEntry(recs[i], log, foods)]]
    requires k in logs'
    ensures entries'[k] == (if k in base then base[k] else []) + AcceptedEntries(recs, i + 1, k, logs'[k], foods)
  {
    var key := LogKey(recs[i]);
    var start := if k in base then base[k] else [];
    AcceptedEntriesStep(recs, i, k, logs'[k], foods);
    if k == key {
      var added := [AcceptedEntry(recs[i], log, foods)];
      if key in logs {
        assert entries[k] == start + AcceptedEntries(recs, i, k, log, foods);
        ConcatAssoc(start, AcceptedEntries(recs, i, k, log, foods), added);
      } else {
        assert k !in base;
        AcceptedEntriesNone(recs, i, key, log, foods);
        assert AcceptedEntries(recs, i + 1, k, log, foods) == added;
      }
    } else {
      assert k in logs && logs[k] == logs'[k] && entries'[k] == entries[k];
    }
  }

  /**
   * `acceptPlan`: a missing plan is an error and an ACCEPTED plan is left as it
   * is. Otherwise every recommendation, whatever its status, is logged as an
   * entry of its user's day and becomes ACCEPTED, and the plan becomes ACCEPTED;
   * the logs that already existed keep their ids and weights. A recommendation
   * that cannot be logged fails the whole acceptance.
   */
  method AcceptPlan(book: LogBook, plan: DietPlan?, foods: map<int, Food>) returns (r: Result<()>)
    requires book.Valid()
    modifies book`logs, book`nextLogId, book`Repr, plan
    modifies book.Repr`mealEntries, book.Repr`totalCalories, book.Repr`totalProtein
    modifies book.Repr`totalCarbs, book.Repr`totalFats
    ensures book.Valid()
    ensures plan == null ==> r == Err(Runtime("Plan not found"))
    ensures plan != null && old(plan.status) == PlanStatus.Accepted ==> r == Ok(())
    ensures plan != null && old(plan.status) != PlanStatus.Accepted
            && FirstFailure(old(plan.recommendations), foods).Some? ==>
      r == Err(FirstFailure(old(plan.recommendations), foods).value)
    ensures r.Err? || old(plan.status) == PlanStatus.Accepted ==>
      unchanged(book) && unchanged(book.Repr) && (plan != null ==> unchanged(plan))
    ensures r.Ok? && old(plan.status) != PlanStatus.Accepted ==>
      AllLoggable(old(plan.recommendations), foods)
      && plan.id == old(plan.id)
      && plan.status == PlanStatus.Accepted
      && plan.recommendations == MarkAccepted(old(plan.recommendations))
      && (forall k :: k in old(book.logs) ==> k in book.logs && book.logs[k] == old(book.logs[k]))
      && (forall k :: k in old(book.logs) ==>
            book.logs[k].id == old(book.logs[k].id) && book.logs[k].dailyWeight == old(book.logs[k].dailyWeight))
      && fresh(book.Repr - old(book.Repr))
      && Logged(EntriesByKey(book), book.logs, old(EntriesByKey(book)), old(plan.recommendations),
                |old(plan.recommendations)|, foods)
  {
    if plan == null {
      return Err(Runtime("Plan not found"));
    }
    if plan.status == PlanStatus.Accepted {
      return Ok(());
    }
    var failure := FirstFailure(plan.recommendations, foods);
    if failure.Some? {
      return Err(failure.value);
    }
    AcceptPending(book, plan, foods);
    r := Ok(());
  }

  /**
   * Accepting a plan whose recommendations can all be logged: the plan and its
   * recommendations become ACCEPTED and every recommendation is logged.
   */
  method AcceptPending(book: LogBook, plan: DietPlan, foods: map<int, Food>)
    requires book.Valid() && AllLoggable(plan.recommendations, foods)
    modifies book`logs, book`nextLogId, book`Repr, plan
    modifies book.Repr`mealEntries, book.Repr`totalCalories, book.Repr`totalProtein
    modifies book.Repr`totalCarbs, book.Repr`totalFats
    ensures book.Valid()
    ensures plan.id == old(plan.id)
    ensures plan.status == PlanStatus.Accepted
    ensures plan.recommendations == MarkAccepted(old(plan.recommendations))
    ensures forall k :: k in old(book.logs) ==>
      k in book.logs && book.logs[k] == old(book.logs[k])
      && book.logs[k].id == old(book.logs[k].id) && book.logs[k].dailyWeight == old(book.logs[k].dailyWeight)
    ensures fresh(book.Repr - old(book.Repr))
    ensures Logged(EntriesByKey(book), book.logs, old(EntriesByKey(book)), old(plan.recommendations),
                   |old(plan.recommendations)|, foods)
  {
    var recs := plan.recommendations;
    ghost var before := EntriesByKey(book);
    plan.recommendations := MarkAccepted(recs);
    plan.status := PlanStatus.Accepted;
    assert EntriesByKey(book) == before;
    AcceptAll(book, recs, foods);
  }

  /** The recommendations, each marked ACCEPTED. */
  function MarkAccepted(recs: seq<DietRecommendation>): (marked: seq<DietRecommendation>)
    ensures |marked| == |recs|
    ensures forall j :: 0 <= j < |recs| ==> marked[j] == recs[j].(status := RecommendationStatus.Accepted)
  {
    seq(|recs|, j requires 0 <= j < |recs| => recs[j].(status := RecommendationStatus.Accepted))
  }

  /**
   * The entries and the logs after logging, in order, the first `|created|`
   * recommendations, starting from `base` and `baseLogs`. `created[j]` is the
   * log opened for `recs[j]` when its day has no log yet.
   */
  ghost function Replay(base: map<(int, int), seq<MealEntry>>, baseLogs: map<(int, int), DailyLog>,
                        recs: seq<DietRecommendation>, created: seq<DailyLog>, foods: map<int, Food>)
    : (r: (map<(int, int), seq<MealEntry>>, map<(int, int), DailyLog>))
    requires base.Keys == baseLogs.Keys && |created| <= |recs| && AllLoggable(recs, foods)
    ensures r.0.Keys == r.1.Keys
    decreases |created|
  {
    if created == [] then (base, baseLogs)
    else
      var n := |created| - 1;
      var prior := Replay(base, baseLogs, recs, created[..n], foods);
      var key := LogKey(recs[n]);
      var log := if key in prior.1 then prior.1[key] else created[n];
      (prior.0[key := (if key in prior.1 then prior.0[key] else []) + [AcceptedEntry(recs[n], log, foods)]],
       prior.1[key := log])
  }

  /** Replaying the recommendations logs them. */
  lemma {:induction false} ReplayLogged(base: map<(int, int), seq<MealEntry>>, baseLogs: map<(int, int), DailyLog>,
                                        recs: seq<DietRecommendation>, created: seq<DailyLog>, foods: map<int, Food>)
    requires base.Keys == baseLogs.Keys && |created| <= |recs| && AllLoggable(recs, foods)
    ensures Logged(Replay(base, baseLogs, recs, created, foods).0, Replay(base, baseLogs, recs, created, foods).1,
                   base, recs, |created|, foods)
    decreases |created|
  {
    if created == [] {
      forall k | k in baseLogs
        ensures base[k] == base[k] + AcceptedEntries(recs, 0, k, baseLogs[k], foods)
      {
        assert AcceptedEntries(recs, 0, k, baseLogs[k], foods) == [];
      }
    } else {
      var n := |created| - 1;
      var prior := Replay(base, baseLogs, recs, created[..n], foods);
      ReplayLogged(base, baseLogs, recs, created[..n], foods);
      var key := LogKey(recs[n]);
      var log := if key in prior.1 then prior.1[key] else created[n];
      LoggedStep(prior.0, prior.1, Replay(base, baseLogs, recs, created, foods).0,
                 Replay(base, baseLogs, recs, created, foods).1, log, base, recs, n, foods);
    }
  }

  /** The loop of `acceptPlan`: logs each recommendation in order. */
  method AcceptAll(book: LogBook, recs: seq<DietRecommendation>, foods: map<int, Food>)
    requires book.Valid() && AllLoggable(recs, foods)
    modifies book`logs, book`nextLogId, book`Repr
    modifies book.Repr`mealEntries, book.Repr`totalCalories, book.Repr`totalProtein
    modifies book.Repr`totalCarbs, book.Repr`totalFats
    ensures book.Valid()
    ensures forall k :: k in old(book.logs) ==>
      k in book.logs && book.logs[k] == old(book.logs[k])
      && book.logs[k].id == old(book.logs[k].id) && book.logs[k].dailyWeight == old(book.logs[k].dailyWeight)
    ensures fresh(book.Repr - old(book.Repr))
    ensures Logged(EntriesByKey(book), book.logs, old(EntriesByKey(book)), recs, |recs|, foods)
  {
    ghost var base := EntriesByKey(book);
    ghost var baseLogs := book.logs;
    ghost var created := AcceptEach(book, recs, foods, base, baseLogs);
    forall k | k in baseLogs
      ensures baseLogs[k].id == old(baseLogs[k].id) && baseLogs[k].dailyWeight == old(baseLogs[k].dailyWeight)
    {
      assert baseLogs[k] in old(book.Repr);
    }
    ReplayDone(base, baseLogs, recs, created, foods, EntriesByKey(book), book.logs);
  }

  /**
   * The turns of the loop of `acceptPlan`; `created` holds, turn by turn, the
   * log each recommendation went to.
   */
  method AcceptEach(book: LogBook, recs: seq<DietRecommendation>, foods: map<int, Food>,
                    ghost base: map<(int, int), seq<MealEntry>>, ghost baseLogs: map<(int, int), DailyLog>)
    returns (ghost created: seq<DailyLog>)
    requires book.Valid() && AllLoggable(recs, foods) && base == EntriesByKey(book) && baseLogs == book.logs
    modifies book`logs, book`nextLogId, book`Repr
    modifies book.Repr`mealEntries, book.Repr`totalCalories, book.Repr`totalProtein
    modifies book.Repr`totalCarbs, book.Repr`totalFats
    ensures book.Valid() && fresh(book.Repr - old(book.Repr))
    ensures |created| == |recs| && Replayed(book, base, baseLogs, recs, created, foods)
  {
    created := [];
    for i := 0 to |recs|
      invariant book.Valid()
      invariant fresh(book.Repr - old(book.Repr))
      invariant |created| == i && Replayed(book, base, baseLogs, recs, created, foods)
    {
      ghost var log := AcceptStep(book, recs, i, foods, base, baseLogs, created);
      created := created + [log];
    }
  }

  /** The book's entries and logs are those the replay of `created` leaves. */
  ghost predicate Replayed(book: LogBook, base: map<(int, int), seq<MealEntry>>, baseLogs: map<(int, int), DailyLog>,
                           recs: seq<DietRecommendation>, created: seq<DailyLog>, foods: map<int, Food>)
    requires book.Valid() && base.Keys == baseLogs.Keys && |created| <= |recs| && AllLoggable(recs, foods)
    reads book, book.Repr
  {
    (EntriesByKey(book), book.logs) == Replay(base, baseLogs, recs, created, foods)
  }

  /** What a replay of all the recommendations leaves behind. */
  lemma ReplayDone(base: map<(int, int), seq<MealEntry>>, baseLogs: map<(int, int), DailyLog>,
                   recs: seq<DietRecommendation>, created: seq<DailyLog>, foods: map<int, Food>,
                   entries: map<(int, int), seq<MealEntry>>, logs: map<(int, int), DailyLog>)
    requires base.Keys == baseLogs.Keys && |created| == |recs| && AllLoggable(recs, foods)
    requires (entries, logs) == Replay(base, baseLogs, recs, created, foods)
    ensures forall k :: k in baseLogs ==> k in logs && logs[k] == baseLogs[k]
    ensures Logged(entries, logs, base, recs, |recs|, foods)
  {
    ReplayLogged(base, baseLogs, recs, created, foods);
    ReplayKeeps(base, baseLogs, recs, created, foods);
  }

  /** Replaying keeps every log of `baseLogs` under its key. */
  lemma {:induction false} ReplayKeeps(base: map<(int, int), seq<MealEntry>>, baseLogs: map<(int, int), DailyLog>,
                                       recs: seq<DietRecommendation>, created: seq<DailyLog>, foods: map<int, Food>)
    requires base.Keys == baseLogs.Keys && |created| <= |recs| && AllLoggable(recs, foods)
    ensures forall k :: k in baseLogs ==>
      k in Replay(base, baseLogs, recs, created, foods).1 && Replay(base, baseLogs, recs, created, foods).1[k] == baseLogs[k]
    decreases |created|
  {
    if created != [] {
      ReplayKeeps(base, baseLogs, recs, created[..|created| - 1], foods);
    }
  }

  /** One turn of the loop of `acceptPlan`: logs the `i`-th recommendation. */
  method AcceptStep(book: LogBook, recs: seq<DietRecommendation>, i: nat, foods: map<int, Food>,
                    ghost base: map<(int, int), seq<MealEntry>>, ghost baseLogs: map<(int, int), DailyLog>,
                    ghost created: seq<DailyLog>)
    returns (ghost log: DailyLog)
    requires i < |recs| && |created| == i && book.Valid() && AllLoggable(recs, foods) && base.Keys == baseLogs.Keys
    requires Replayed(book, base, baseLogs, recs, created, foods)
    modifies book`logs, book`nextLogId, book`Repr
    modifies book.Repr`mealEntries, book.Repr`totalCalories, book.Repr`totalProtein
    modifies book.Repr`totalCarbs, book.Repr`totalFats
    ensures book.Valid()
    ensures book.Repr == old(book.Repr) + {log} && (log in old(book.Repr) || fresh(log))
    ensures LogKey(recs[i]) in old(book.logs) ==>
      log == old(book.logs[LogKey(recs[i])]) && log.id == old(log.id) && log.dailyWeight == old(log.dailyWeight)
    ensures Replayed(book, base, baseLogs, recs, created + [log], foods)
  {
    log := AcceptRecommendation(book, recs[i], foods);
    ReplayStep(base, baseLogs, recs, created, log, foods);
  }

  /** Replaying one more recommendation adds its entry to the log of its day. */
  lemma ReplayStep(base: map<(int, int), seq<MealEntry>>, baseLogs: map<(int, int), DailyLog>,
                   recs: seq<DietRecommendation>, created: seq<DailyLog>, log: DailyLog, foods: map<int, Food>)
    requires base.Keys == baseLogs.Keys && |created| < |recs| && AllLoggable(recs, foods)
    requires LogKey(recs[|created|]) in Replay(base, baseLogs, recs, created, foods).1 ==>
      log == Replay(base, baseLogs, recs, created, foods).1[LogKey(recs[|created|])]
    ensures var prior := Replay(base, baseLogs, recs, created, foods);
      var key := LogKey(recs[|created|]);
      Replay(base, baseLogs, recs, created + [log], foods)
        == (prior.0[key := (if key in prior.1 then prior.0[key] else []) + [AcceptedEntry(recs[|created|], log, foods)]],
            prior.1[key := log])
  {
    assert (created + [log])[..|created|] == created;
  }


}
