/**
 * Goal-achievement statistics over a range of logged days: how many days
 * met their calorie goal, the longest run of consecutive such days, and the
 * run still going at the last logged day.
 *
 * A day meets its goal when it has a non-zero goal and its calories (zero
 * when absent) lie within 5% of it. The logs of the range (the repository
 * query) are a parameter; each is reduced to the three values the statistics
 * read.
 */
module GoalStreaks {
  import opened Wrappers

  /** What the statistics read of a daily log: its date, its calorie goal and its calories. */
  datatype LoggedDay = LoggedDay(date: int, calorieGoal: Option<real>, totalCalories: Option<real>)

  datatype GoalAchievement = GoalAchievement(
    totalDays: int, achievedDays: int, achievementRate: real, currentStreak: int, bestStreak: int)

  /** The relative distance from the goal that still counts as meeting it. */
  const Tolerance: real := 0.05

  /** `isGoalAchieved`: a non-zero goal, and calories between 95% and 105% of it. */
  predicate IsGoalAchieved(d: LoggedDay)
  {
    d.calorieGoal.Some? && d.calorieGoal.value != 0.0
    && d.calorieGoal.value * (1.0 - Tolerance) <= d.totalCalories.GetOr(0.0) <= d.calorieGoal.value * (1.0 + Tolerance)
  }

  /** Only positive goals can be met, and meeting one means being within 5% of it. */
  lemma AchievedMeansNear(d: LoggedDay)
    ensures IsGoalAchieved(d) <==>
      d.calorieGoal.Some? && d.calorieGoal.value > 0.0
      && -0.05 * d.calorieGoal.value <= d.totalCalories.GetOr(0.0) - d.calorieGoal.value <= 0.05 * d.calorieGoal.value
  {
  }

  // ---------------------------------------------------------------------------
  // Sorting by date

  predicate SortedByDate(s: seq<LoggedDay>)
  {
    forall i, j :: 0 <= i < j < |s| ==> s[i].date <= s[j].date
  }

  /** Places `d` before the first day that is not earlier than it. */
  function Insert(d: LoggedDay, s: seq<LoggedDay>): (r: seq<LoggedDay>)
    ensures |r| == |s| + 1
    ensures multiset(r) == multiset(s) + multiset{d}
  {
    if |s| == 0 then [d]
    else if d.date <= s[0].date then [d] + s
    else
      assert s == [s[0]] + s[1..];
      [s[0]] + Insert(d, s[1..])
  }

  /** The days ordered by date, days of the same date kept in their original order. */
  function SortByDate(s: seq<LoggedDay>): (r: seq<LoggedDay>)
    ensures |r| == |s|
    ensures multiset(r) == multiset(s)
    ensures SortedByDate(r)
  {
    if |s| == 0 then []
    else
      assert s == [s[0]] + s[1..];
      InsertSorted(s[0], SortByDate(s[1..]));
      Insert(s[0], SortByDate(s[1..]))
  }

  /** Inserting into a sorted sequence keeps it sorted. */
  lemma {:induction false} InsertSorted(d: LoggedDay, s: seq<LoggedDay>)
    requires SortedByDate(s)
    ensures SortedByDate(Insert(d, s))
    decreases |s|
  {
    if |s| > 0 && d.date > s[0].date {
      var tail := s[1..];
      var rest := Insert(d, tail);
      InsertSorted(d, tail);
      forall k | 0 <= k < |rest| ensures s[0].date <= rest[k].date {
        assert rest[k] in multiset(rest);
        if rest[k] != d {
          assert rest[k] in multiset(tail);
          var m :| 0 <= m < |tail| && tail[m] == rest[k];
          assert s[1 + m] == rest[k];
        }
      }
      assert Insert(d, s) == [s[0]] + rest;
    }
  }

  // ---------------------------------------------------------------------------
  // What the statistics count

  /** The number of days in `s` that met their goal. */
  function AchievedCount(s: seq<LoggedDay>): nat
  {
    if |s| == 0 then 0
    else AchievedCount(s[..|s| - 1]) + (if IsGoalAchieved(s[|s| - 1]) then 1 else 0)
  }

  /** The number of consecutive days at the end of `s` that met their goal. */
  function TrailingRun(s: seq<LoggedDay>): nat
  {
    if |s| == 0 then 0
    else if IsGoalAchieved(s[|s| - 1]) then TrailingRun(s[..|s| - 1]) + 1
    else 0
  }

  /** The longest run of consecutive goal-meeting days ending anywhere in `s`. */
  function BestRun(s: seq<LoggedDay>): nat
  {
    if |s| == 0 then 0
    else
      var before := BestRun(s[..|s| - 1]);
      if TrailingRun(s) > before then TrailingRun(s) else before
  }

  /** Every day in positions `i` to `j - 1` met its goal. */
  predicate AllAchieved(s: seq<LoggedDay>, i: int, j: int)
    requires 0 <= i <= j <= |s|
  {
    forall k :: i <= k < j ==> IsGoalAchieved(s[k])
  }

  /** `achievedDays * 100.0 / totalDays`, or 0 without days. */
  function Rate(achieved: int, total: int): real
  {
    if total > 0 then achieved as real * 100.0 / total as real else 0.0
  }

  /**
   * `getGoalAchievement`: sorts the days by date and walks them once, counting
   * the days that met their goal and tracking the current and the best run.
   */
  method GetGoalAchievement(logs: seq<LoggedDay>) returns (g: GoalAchievement)
    ensures g.totalDays == |logs|
    ensures g.achievedDays == AchievedCount(logs)
    ensures g.currentStreak == TrailingRun(SortByDate(logs))
    ensures g.bestStreak == BestRun(SortByDate(logs))
    ensures g.achievementRate == Rate(g.achievedDays, g.totalDays)
  {
    var sorted := SortByDate(logs);
    var achievedDays, tempStreak, bestStreak := 0, 0, 0;
    for i := 0 to |sorted|
      invariant achievedDays == AchievedCount(sorted[..i])
      invariant tempStreak == TrailingRun(sorted[..i])
      invariant bestStreak == BestRun(sorted[..i])
    {
      assert sorted[..i + 1][..i] == sorted[..i];
      if IsGoalAchieved(sorted[i]) {
        achievedDays := achievedDays + 1;
        tempStreak := tempStreak + 1;
        if tempStreak > bestStreak {
          bestStreak := tempStreak;
        }
      } else {
        tempStreak := 0;
      }
    }
    assert sorted[..|sorted|] == sorted;
    var currentStreak := 0;
    if |sorted| > 0 && IsGoalAchieved(sorted[|sorted| - 1]) {
      currentStreak := tempStreak;
    }
    SortedCount(logs);
    g := GoalAchievement(|logs|, achievedDays, Rate(achievedDays, |logs|), currentStreak, bestStreak);
  }

  // ---------------------------------------------------------------------------
  // Properties

  /** Counting a concatenation counts each part. */
  lemma {:induction false} CountConcat(a: seq<LoggedDay>, b: seq<LoggedDay>)
    ensures AchievedCount(a + b) == AchievedCount(a) + AchievedCount(b)
    decreases |b|
  {
    if |b| > 0 {
      var b' := b[..|b| - 1];
      assert (a + b)[..|a + b| - 1] == a + b';
      CountConcat(a, b');
    } else {
      assert a + b == a;
    }
  }

  /** Inserting a day adds its own count. */
  lemma {:induction false} InsertCount(d: LoggedDay, s: seq<LoggedDay>)
    ensures AchievedCount(Insert(d, s)) == AchievedCount([d]) + AchievedCount(s)
    decreases |s|
  {
    if |s| == 0 {
    } else if d.date <= s[0].date {
      CountConcat([d], s);
    } else {
      assert s == [s[0]] + s[1..];
      CountConcat([s[0]], Insert(d, s[1..]));
      InsertCount(d, s[1..]);
      CountConcat([s[0]], s[1..]);
    }
  }

  /** Sorting does not change how many days met their goal. */
  lemma {:induction false} SortedCount(s: seq<LoggedDay>)
    ensures AchievedCount(SortByDate(s)) == AchievedCount(s)
    decreases |s|
  {
    if |s| > 0 {
      assert s == [s[0]] + s[1..];
      SortedCount(s[1..]);
      InsertCount(s[0], SortByDate(s[1..]));
      CountConcat([s[0]], s[1..]);
    }
  }

  /** The current run is at most the best run, which is at most the goal-meeting days, at most all days. */
  lemma {:induction false} StreakOrder(s: seq<LoggedDay>)
    ensures TrailingRun(s) <= BestRun(s) <= AchievedCount(s) <= |s|
    decreases |s|
  {
    if |s| > 0 {
      var init := s[..|s| - 1];
      StreakOrder(init);
      RunBelowCount(s);
    }
  }

  /** A trailing run never has more days than the days that met their goal. */
  lemma {:induction false} RunBelowCount(s: seq<LoggedDay>)
    ensures TrailingRun(s) <= AchievedCount(s)
    decreases |s|
  {
    if |s| > 0 {
      RunBelowCount(s[..|s| - 1]);
    }
  }

  /**
   * The trailing run is exactly the goal-meeting days at the end: all of them
   * met the goal, and the day just before them (if any) did not.
   */
  lemma {:induction false} TrailingRunExact(s: seq<LoggedDay>)
    ensures TrailingRun(s) <= |s|
    ensures AllAchieved(s, |s| - TrailingRun(s), |s|)
    ensures TrailingRun(s) < |s| ==> !IsGoalAchieved(s[|s| - 1 - TrailingRun(s)])
    decreases |s|
  {
    if |s| > 0 && IsGoalAchieved(s[|s| - 1]) {
      var init := s[..|s| - 1];
      TrailingRunExact(init);
      assert forall k :: |s| - TrailingRun(s) <= k < |s| - 1 ==> s[k] == init[k];
    }
  }

  /** A run of goal-meeting days that reaches the end is no longer than the trailing run. */
  lemma {:induction false} TrailingRunLongest(s: seq<LoggedDay>, i: int)
    requires 0 <= i <= |s| && AllAchieved(s, i, |s|)
    ensures |s| - i <= TrailingRun(s)
    decreases |s|
  {
    if i < |s| {
      var init := s[..|s| - 1];
      assert AllAchieved(init, i, |init|) by {
        forall k | i <= k < |init| ensures IsGoalAchieved(init[k]) {
          assert init[k] == s[k];
        }
      }
      TrailingRunLongest(init, i);
    }
  }

  /** No run of consecutive goal-meeting days is longer than the best run. */
  lemma {:induction false} BestRunLongest(s: seq<LoggedDay>, i: int, j: int)
    requires 0 <= i <= j <= |s| && AllAchieved(s, i, j)
    ensures j - i <= BestRun(s)
    decreases |s|
  {
    if j == |s| {
      TrailingRunLongest(s, i);
    } else {
      var init := s[..|s| - 1];
      assert AllAchieved(init, i, j) by {
        forall k | i <= k < j ensures IsGoalAchieved(init[k]) {
          assert init[k] == s[k];
        }
      }
      BestRunLongest(init, i, j);
    }
  }

  /** The best run is attained: some run of consecutive goal-meeting days has exactly its length. */
  lemma {:induction false} BestRunAttained(s: seq<LoggedDay>) returns (i: int)
    ensures 0 <= i <= |s| - BestRun(s)
    ensures AllAchieved(s, i, i + BestRun(s))
    decreases |s|
  {
    if |s| == 0 {
      i := 0;
    } else {
      var init := s[..|s| - 1];
      if TrailingRun(s) > BestRun(init) {
        TrailingRunExact(s);
        i := |s| - TrailingRun(s);
      } else {
        i := BestRunAttained(init);
        StreakOrder(init);
        assert forall k :: i <= k < i + BestRun(s) ==> s[k] == init[k];
      }
    }
  }

  /** The current streak is zero unless the last day met its goal. */
  lemma CurrentStreakNeedsLastDay(s: seq<LoggedDay>)
    requires |s| > 0 && !IsGoalAchieved(s[|s| - 1])
    ensures TrailingRun(s) == 0
  {
  }

  /** The achievement rate is a percentage, 100 exactly when every day met its goal. */
  lemma RateIsPercentage(achieved: int, total: int)
    requires 0 <= achieved <= total
    ensures 0.0 <= Rate(achieved, total) <= 100.0
    ensures total > 0 ==> (Rate(achieved, total) == 100.0 <==> achieved == total)
  {
    if total > 0 {
      var a, t := achieved as real, total as real;
      var r := Rate(achieved, total);
      assert r * t == a * 100.0;
      assert (100.0 - r) * t == (t - a) * 100.0;
      SignOfProduct(r, t);
      SignOfProduct(100.0 - r, t);
    }
  }

  /** With a positive factor, a product has the sign of the other factor. */
  lemma SignOfProduct(x: real, t: real)
    requires t > 0.0
    ensures x * t >= 0.0 ==> x >= 0.0
    ensures x * t == 0.0 ==> x == 0.0
  {
    if x < 0.0 {
      assert x * t < 0.0;
    } else if x > 0.0 {
      assert x * t > 0.0;
    }
  }
}
