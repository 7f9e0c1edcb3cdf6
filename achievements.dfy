/**
 * Achievements: one per user and achievement type, each counting progress
 * towards the type's target and unlocking, for good, when the target is
 * reached.
 *
 * The store is keyed by (user id, type), which is the table's uniqueness
 * constraint. The clock is a parameter `now`; the id of a saved achievement
 * is the store's next id.
 */
module Achievements {
  import opened Wrappers

  datatype AchievementType =
    | Streak3 | Streak7 | Streak30 | Streak100
    | FirstLog | FirstGoal
    | WeightLogged | WeightMilestone
    | ConsistencyWeek | ConsistencyMonth
    | FirstRecipe | FirstTemplate | FirstRecommendation
  {
    /** The progress at which an achievement of this type unlocks. */
    function Target(): (t: int)
      ensures t >= 1
      ensures this.Streak3? ==> t == 3
      ensures this.Streak7? || this.ConsistencyWeek? ==> t == 7
      ensures this.Streak30? || this.ConsistencyMonth? ==> t == 30
      ensures this.Streak100? ==> t == 100
      ensures t == 1 <==>
        !(this.Streak3? || this.Streak7? || this.Streak30? || this.Streak100? || this.ConsistencyWeek? || this.ConsistencyMonth?)
    {
      match this
      case Streak3 => 3
      case Streak7 => 7
      case Streak30 => 30
      case Streak100 => 100
      case ConsistencyWeek => 7
      case ConsistencyMonth => 30
      case _ => 1
    }
  }

  /** Every type, in declaration order. */
  const AllTypes: seq<AchievementType> := [
    Streak3, Streak7, Streak30, Streak100, FirstLog, FirstGoal, WeightLogged, WeightMilestone,
    ConsistencyWeek, ConsistencyMonth, FirstRecipe, FirstTemplate, FirstRecommendation]

  lemma AllTypesListed(t: AchievementType)
    ensures t in AllTypes
  {
  }

  /** A stored achievement; `unlockedAt` is the unlock time, absent while locked. */
  datatype Achievement = Achievement(
    id: int, userId: int, kind: AchievementType, progress: int, target: int, unlockedAt: Option<int>)

  predicate IsUnlocked(a: Achievement)
  {
    a.unlockedAt.Some?
  }

  /** `(int) x`: truncation toward zero. */
  function Truncate(x: real): (n: int)
    ensures x >= 0.0 ==> n as real <= x < n as real + 1.0
    ensures x < 0.0 ==> n as real - 1.0 < x <= n as real
  {
    if x >= 0.0 then x.Floor else -((-x).Floor)
  }

  /** The percentage shown: 100 for a zero target, else the truncated share of the target, capped at 100. */
  function ProgressPercentage(a: Achievement): (p: int)
    ensures p <= 100
    ensures a.target == 0 ==> p == 100
  {
    if a.target == 0 then 100
    else
      var share := Truncate(a.progress as real / a.target as real * 100.0);
      if share < 100 then share else 100
  }

  /**
   * What the store keeps true of every achievement: the type's target, progress
   * never past it, and unlocked exactly when progress has reached it.
   */
  predicate WellFormed(a: Achievement)
  {
    a.target == a.kind.Target() && a.progress <= a.target && (IsUnlocked(a) <==> a.progress == a.target)
  }

  /** An achievement as first saved: progress 0 towards its type's target. */
  function Initial(id: int, userId: int, kind: AchievementType): (a: Achievement)
    ensures WellFormed(a) && !IsUnlocked(a)
    ensures a.userId == userId && a.kind == kind && a.progress == 0 && a.target == kind.Target()
  {
    Achievement(id, userId, kind, 0, kind.Target(), None)
  }

  /**
   * A locked achievement moved to `newProgress`, capped at its target; it
   * unlocks at `now` when the new progress reaches the target.
   */
  function Progressed(a: Achievement, newProgress: int, now: int): (b: Achievement)
    ensures b.progress == (if newProgress < a.target then newProgress else a.target)
    ensures IsUnlocked(b) <==> newProgress >= a.target || IsUnlocked(a)
    ensures newProgress >= a.target ==> b.unlockedAt == Some(now)
    ensures b.id == a.id && b.userId == a.userId && b.kind == a.kind && b.target == a.target
  {
    var p := if newProgress < a.target then newProgress else a.target;
    a.(progress := p, unlockedAt := if p >= a.target then Some(now) else a.unlockedAt)
  }

  /** One update: an unlocked achievement is left as it is, a locked one progresses. */
  function Step(a: Achievement, newProgress: int, now: int): (b: Achievement)
    ensures IsUnlocked(a) ==> b == a
    ensures !IsUnlocked(a) ==> b == Progressed(a, newProgress, now)
  {
    if IsUnlocked(a) then a else Progressed(a, newProgress, now)
  }

  /** Updating keeps an achievement well formed; it unlocks exactly when the new progress reaches the target. */
  lemma StepWellFormed(a: Achievement, newProgress: int, now: int)
    requires WellFormed(a)
    ensures WellFormed(Step(a, newProgress, now))
    ensures !IsUnlocked(a) ==> (IsUnlocked(Step(a, newProgress, now)) <==> newProgress >= a.target)
  {
  }

  /** An increment on a locked achievement adds exactly one, and unlocks on the last step to the target. */
  lemma IncrementAddsOne(a: Achievement, now: int)
    requires WellFormed(a) && !IsUnlocked(a)
    ensures Step(a, a.progress + 1, now).progress == a.progress + 1
    ensures IsUnlocked(Step(a, a.progress + 1, now)) <==> a.progress + 1 == a.target
  {
  }

  /** Locked achievements with non-negative progress show less than 100%; unlocked ones show exactly 100%. */
  lemma PercentageShowsUnlock(a: Achievement)
    requires WellFormed(a) && a.progress >= 0
    ensures 0 <= ProgressPercentage(a)
    ensures ProgressPercentage(a) == 100 <==> IsUnlocked(a)
  {
    var t := a.target as real;
    var x := a.progress as real / t * 100.0;
    assert x * t == a.progress as real * 100.0;
    if a.progress < a.target {
      assert x < 100.0;
    } else {
      assert x == 100.0;
    }
  }

  /** The types a streak of `streak` days updates, in the order they are updated. */
  function StreakTypes(streak: int): (ts: seq<AchievementType>)
  {
    (if streak >= 3 then [Streak3] else [])
    + (if streak >= 7 then [Streak7] else [])
    + (if streak >= 30 then [Streak30] else [])
    + (if streak >= 100 then [Streak100] else [])
    + (if streak >= 7 then [ConsistencyWeek] else [])
    + (if streak >= 30 then [ConsistencyMonth] else [])
  }

  predicate IsStreakType(t: AchievementType)
  {
    t.Streak3? || t.Streak7? || t.Streak30? || t.Streak100? || t.ConsistencyWeek? || t.ConsistencyMonth?
  }

  /** A streak updates exactly the streak types whose target it has reached, and only with its length. */
  lemma StreakTypesReached(streak: int, t: AchievementType)
    ensures t in StreakTypes(streak) <==> IsStreakType(t) && streak >= t.Target()
    ensures streak < 3 ==> StreakTypes(streak) == []
  {
  }

  /** Every streak type a streak updates ends up unlocked. */
  lemma StreakUnlocks(a: Achievement, streak: int, now: int)
    requires WellFormed(a) && a.kind in StreakTypes(streak)
    ensures IsUnlocked(Step(a, streak, now))
  {
    StreakTypesReached(streak, a.kind);
  }

  /** One update applied to a store's map: the achievement under `key`, if any, takes one step. */
  function UpdateIn(m: map<(int, AchievementType), Achievement>, key: (int, AchievementType), newProgress: int, now: int)
    : (r: map<(int, AchievementType), Achievement>)
    ensures r.Keys == m.Keys
  {
    if key in m then m[key := Step(m[key], newProgress, now)] else m
  }

  /** The updates a streak makes, one after the other, in the order of `StreakTypes`. */
  function StreakApplied(m: map<(int, AchievementType), Achievement>, userId: int, streak: int, now: int)
    : (r: map<(int, AchievementType), Achievement>)
  {
    var m1 := if streak >= 3 then UpdateIn(m, (userId, Streak3), streak, now) else m;
    var m2 := if streak >= 7 then UpdateIn(m1, (userId, Streak7), streak, now) else m1;
    var m3 := if streak >= 30 then UpdateIn(m2, (userId, Streak30), streak, now) else m2;
    var m4 := if streak >= 100 then UpdateIn(m3, (userId, Streak100), streak, now) else m3;
    var m5 := if streak >= 7 then UpdateIn(m4, (userId, ConsistencyWeek), streak, now) else m4;
    if streak >= 30 then UpdateIn(m5, (userId, ConsistencyMonth), streak, now) else m5
  }

  /**
   * After a streak, each of the user's streak types it reached has taken one
   * step with the streak's length; every other achievement is unchanged.
   */
  lemma StreakAppliedEach(m: map<(int, AchievementType), Achievement>, userId: int, streak: int, now: int,
                          k: (int, AchievementType))
    requires k in m
    ensures StreakApplied(m, userId, streak, now).Keys == m.Keys
    ensures StreakApplied(m, userId, streak, now)[k]
         == (if k.0 == userId && k.1 in StreakTypes(streak) then Step(m[k], streak, now) else m[k])
  {
    StreakTypesReached(streak, k.1);
  }

  class AchievementStore {
    var achievements: map<(int, AchievementType), Achievement>
    var nextId: int

    constructor ()
      ensures achievements == map[] && Valid()
    {
      achievements := map[];
      nextId := 1;
    }

    /** Each achievement sits under its own user and type, and is well formed. */
    predicate Valid()
      reads this
    {
      forall k :: k in achievements ==>
        achievements[k].userId == k.0 && achievements[k].kind == k.1 && WellFormed(achievements[k])
    }

    /**
     * `initializeAchievementsForUser`: saves a fresh achievement for every type
     * the user lacks and leaves every stored achievement as it was.
     */
    method InitializeAchievementsForUser(userId: int)
      requires Valid()
      modifies this
      ensures Valid()
      ensures achievements.Keys == old(achievements.Keys) + set t | t in AllTypes :: (userId, t)
      ensures forall k :: k in old(achievements) ==> achievements[k] == old(achievements)[k]
      ensures forall k :: k in achievements && k !in old(achievements) ==>
        achievements[k].progress == 0 && achievements[k].target == k.1.Target() && !IsUnlocked(achievements[k])
      ensures (forall t :: (userId, t) in old(achievements)) ==> achievements == old(achievements)
    {
      for i := 0 to |AllTypes|
        invariant Valid()
        invariant achievements.Keys == old(achievements.Keys) + set t | t in AllTypes[..i] :: (userId, t)
        invariant forall k :: k in old(achievements) ==> achievements[k] == old(achievements)[k]
        invariant forall k :: k in achievements && k !in old(achievements) ==>
          achievements[k].progress == 0 && achievements[k].target == k.1.Target() && !IsUnlocked(achievements[k])
      {
        var key := (userId, AllTypes[i]);
        assert AllTypes[..i + 1] == AllTypes[..i] + [AllTypes[i]];
        if key !in achievements {
          achievements := achievements[key := Initial(nextId, userId, AllTypes[i])];
          nextId := nextId + 1;
        }
      }
      assert AllTypes[..|AllTypes|] == AllTypes;
      if forall t :: (userId, t) in old(achievements) {
        assert achievements.Keys == old(achievements.Keys);
      }
    }

    /**
     * `updateProgress`: a locked achievement of the user and type moves to
     * `newProgress` (capped at its target) and unlocks when it reaches it; a
     * missing or unlocked one is left alone.
     */
    method UpdateProgress(userId: int, kind: AchievementType, newProgress: int, now: int)
      requires Valid()
      modifies this
      ensures Valid() && nextId == old(nextId)
      ensures achievements == UpdateIn(old(achievements), (userId, kind), newProgress, now)
    {
      var key := (userId, kind);
      if key in achievements {
        var a := achievements[key];
        if IsUnlocked(a) {
          return;
        }
        StepWellFormed(a, newProgress, now);
        achievements := achievements[key := Progressed(a, newProgress, now)];
      }
    }

    /** `incrementProgress`: an update to one more than the current progress. */
    method IncrementProgress(userId: int, kind: AchievementType, now: int)
      requires Valid()
      modifies this
      ensures Valid() && nextId == old(nextId)
      ensures (userId, kind) in old(achievements) ==>
        var a := old(achievements)[(userId, kind)];
        achievements == old(achievements)[(userId, kind) := Step(a, a.progress + 1, now)]
      ensures (userId, kind) !in old(achievements) ==> achievements == old(achievements)
    {
      var key := (userId, kind);
      if key in achievements {
        var a := achievements[key];
        if IsUnlocked(a) {
          return;
        }
        StepWellFormed(a, a.progress + 1, now);
        achievements := achievements[key := Progressed(a, a.progress + 1, now)];
      }
    }

    /**
     * `evaluateStreakAchievements`: updates each streak type whose threshold
     * the streak reaches to the streak's length; every other achievement is
     * left alone.
     */
    method EvaluateStreakAchievements(userId: int, currentStreak: int, now: int)
      requires Valid()
      modifies this
      ensures Valid() && nextId == old(nextId)
      ensures achievements == StreakApplied(old(achievements), userId, currentStreak, now)
    {
      if currentStreak >= 3 {
        UpdateProgress(userId, Streak3, currentStreak, now);
      }
      if currentStreak >= 7 {
        UpdateProgress(userId, Streak7, currentStreak, now);
      }
      if currentStreak >= 30 {
        UpdateProgress(userId, Streak30, currentStreak, now);
      }
      if currentStreak >= 100 {
        UpdateProgress(userId, Streak100, currentStreak, now);
      }
      if currentStreak >= 7 {
        UpdateProgress(userId, ConsistencyWeek, currentStreak, now);
      }
      if currentStreak >= 30 {
        UpdateProgress(userId, ConsistencyMonth, currentStreak, now);
      }
    }
  }
}
