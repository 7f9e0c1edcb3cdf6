/**
 * A user's log for one day: the meal entries eaten that day, each with a
 * snapshot of its calories and macros, and the day's four totals. The totals
 * are stored fields; the service keeps them equal to the sums over the entries.
 */
module DailyLogs {
  import opened Wrappers
  import opened Nutrition

  /** Calories and macros of an entry or a whole day. */
  datatype DailyTotals = DailyTotals(calories: real, protein: real, carbs: real, fats: real)
  {
    function Plus(other: DailyTotals): DailyTotals
    {
      DailyTotals(calories + other.calories, protein + other.protein, carbs + other.carbs, fats + other.fats)
    }
  }

  const ZeroDay: DailyTotals := DailyTotals(0.0, 0.0, 0.0, 0.0)

  /**
   * One logged food. `dailyLog` is the back-reference to the owning log
   * (null once removed); the four nutrient values are a snapshot taken when
   * the entry is created or updated.
   */
  datatype MealEntry = MealEntry(
    id: Option<int>,
    dailyLog: DailyLog?,
    food: Food,
    mealType: MealType,
    quantity: real,
    unit: string,
    calories: real,
    protein: real,
    carbohydrates: real,
    fats: real)
  {
    function Totals(): DailyTotals
    {
      DailyTotals(calories, protein, carbohydrates, fats)
    }
  }

  /** The sum of the entries' snapshots, in list order. */
  function EntriesTotals(entries: seq<MealEntry>): DailyTotals
  {
    if entries == [] then ZeroDay
    else EntriesTotals(entries[..|entries| - 1]).Plus(entries[|entries| - 1].Totals())
  }

  /** The position of the first element equal to `x`. */
  function IndexOf<T(==)>(s: seq<T>, x: T): (i: nat)
    requires x in s
    ensures i < |s| && s[i] == x && x !in s[..i]
  {
    if s[0] == x then 0
    else
      assert s == [s[0]] + s[1..];
      var i := IndexOf(s[1..], x) + 1;
      assert s[..i] == [s[0]] + s[1..][..i - 1];
      i
  }

  /** `List.remove(Object)`: drops the first element equal to `x`; a list without `x` is left as it is. */
  function RemoveFirst<T(==)>(s: seq<T>, x: T): (r: seq<T>)
    ensures x !in s ==> r == s
    ensures x in s ==> |r| == |s| - 1
    ensures multiset(r) == multiset(s) - multiset{x}
  {
    if x !in s then s
    else
      var i := IndexOf(s, x);
      assert s == s[..i] + [x] + s[i + 1..];
      s[..i] + s[i + 1..]
  }

  /** Removal keeps the other elements in their order: the ones before the removed one, then the ones after it. */
  lemma RemoveFirstKeepsOrder<T>(s: seq<T>, x: T)
    requires x in s
    ensures RemoveFirst(s, x)[..IndexOf(s, x)] == s[..IndexOf(s, x)]
    ensures RemoveFirst(s, x)[IndexOf(s, x)..] == s[IndexOf(s, x) + 1..]
  {
  }

  class DailyLog {
    var id: Option<int>
    const userId: int
    const date: int
    var dailyWeight: Option<real>
    var totalCalories: real
    var totalProtein: real
    var totalCarbs: real
    var totalFats: real
    var mealEntries: seq<MealEntry>

    /** The builder's defaults: no id yet, zero totals and no entries. */
    constructor (userId: int, date: int)
      ensures this.id.None? && this.userId == userId && this.date == date && this.dailyWeight.None?
      ensures Totals() == ZeroDay && mealEntries == []
      ensures Owns() && Balanced()
    {
      this.id := None;
      this.userId := userId;
      this.date := date;
      this.dailyWeight := None;
      this.totalCalories := 0.0;
      this.totalProtein := 0.0;
      this.totalCarbs := 0.0;
      this.totalFats := 0.0;
      this.mealEntries := [];
    }

    /** The stored totals. */
    function Totals(): DailyTotals
      reads this
    {
      DailyTotals(totalCalories, totalProtein, totalCarbs, totalFats)
    }

    /** The stored totals are the sums over the entries. */
    predicate Balanced()
      reads this
    {
      Totals() == EntriesTotals(mealEntries)
    }

    /** Every entry points back to this log. */
    predicate Owns()
      reads this
    {
      forall i :: 0 <= i < |mealEntries| ==> mealEntries[i].dailyLog == this
    }

    /** Appends the entry and points it back to this log. */
    method AddMealEntry(entry: MealEntry)
      modifies `mealEntries
      ensures mealEntries == old(mealEntries) + [entry.(dailyLog := this)]
      ensures id == old(id) && dailyWeight == old(dailyWeight)
      ensures Totals() == old(Totals())
      ensures old(Owns()) ==> Owns()
    {
      mealEntries := mealEntries + [entry.(dailyLog := this)];
    }

    /**
     * Removes the first entry equal to `entry` and returns it with its
     * back-reference cleared; a log without that entry keeps its entries.
     */
    method RemoveMealEntry(entry: MealEntry) returns (removed: MealEntry)
      modifies this
      ensures mealEntries == RemoveFirst(old(mealEntries), entry)
      ensures removed == entry.(dailyLog := null)
      ensures id == old(id) && dailyWeight == old(dailyWeight)
      ensures Totals() == old(Totals())
      ensures old(Owns()) ==> Owns()
    {
      ghost var before := mealEntries;
      mealEntries := RemoveFirst(mealEntries, entry);
      forall i | 0 <= i < |mealEntries|
        ensures mealEntries[i] in before
      {
        assert mealEntries[i] in multiset(mealEntries);
      }
      removed := entry.(dailyLog := null);
    }
  }

  /** The totals of a list with one more entry are the old totals plus that entry's snapshot. */
  lemma EntriesTotalsAppend(entries: seq<MealEntry>, e: MealEntry)
    ensures EntriesTotals(entries + [e]) == EntriesTotals(entries).Plus(e.Totals())
  {
    assert (entries + [e])[..|entries|] == entries;
  }

  /** The totals of a concatenation are the sum of the parts' totals. */
  lemma {:induction false} EntriesTotalsConcat(a: seq<MealEntry>, b: seq<MealEntry>)
    ensures EntriesTotals(a + b) == EntriesTotals(a).Plus(EntriesTotals(b))
    decreases |b|
  {
    if b == [] {
      assert a + b == a;
    } else {
      var b', last := b[..|b| - 1], b[|b| - 1];
      assert (a + b)[..|a + b| - 1] == a + b';
      assert (a + b)[|a + b| - 1] == last;
      EntriesTotalsConcat(a, b');
    }
  }

  /** Removing an entry takes exactly its snapshot off the totals. */
  lemma RemovedEntryTotals(entries: seq<MealEntry>, e: MealEntry)
    requires e in entries
    ensures EntriesTotals(RemoveFirst(entries, e)).Plus(e.Totals()) == EntriesTotals(entries)
  {
    var i := IndexOf(entries, e);
    var before, after := entries[..i], entries[i + 1..];
    RemoveFirstSplit(entries, e);
    var tb, ta := EntriesTotals(before), EntriesTotals(after);
    assert EntriesTotals(RemoveFirst(entries, e)) == tb.Plus(ta) by {
      EntriesTotalsConcat(before, after);
    }
    assert EntriesTotals(entries) == tb.Plus(e.Totals()).Plus(ta) by {
      EntriesTotalsConcat(before + [e], after);
      EntriesTotalsAppend(before, e);
    }
    PlusSwap(tb, ta, e.Totals());
  }

  lemma PlusSwap(a: DailyTotals, b: DailyTotals, c: DailyTotals)
    ensures a.Plus(b).Plus(c) == a.Plus(c).Plus(b)
  {
  }

  lemma RemoveFirstSplit<T>(s: seq<T>, x: T)
    requires x in s
    ensures s == s[..IndexOf(s, x)] + [x] + s[IndexOf(s, x) + 1..]
    ensures RemoveFirst(s, x) == s[..IndexOf(s, x)] + s[IndexOf(s, x) + 1..]
  {
  }
}
