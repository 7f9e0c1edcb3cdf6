/**
 * The monthly calendar: one entry per logged day of the month, with the day's
 * totals and whether its calories came within 100 kcal of the user's goal.
 *
 * The logs of the month (the repository query over the month's first and
 * last day) and the profile lookup are parameters.
 */
module Calendar {
  import opened Wrappers
  import opened Nutrition
  import opened DailyLogs

  /** One day of the calendar. */
  datatype CalendarDay = CalendarDay(
    date: int, totalCalories: real, totalProtein: real, totalCarbs: real, totalFats: real,
    calorieGoal: real, isGoalMet: bool)

  /** The goal used when the user has no profile or the profile has no calorie goal. */
  const DefaultCalorieGoal: real := 2000.0

  /** How far from the goal a day's calories may be and still meet it. */
  const Tolerance: real := 100.0

  /** The profile's daily calorie goal, or the default when there is none. */
  function CalorieGoal(profile: Option<UserProfile>): (g: real)
    ensures profile.Some? && profile.value.dailyCalorieGoal.Some? ==> g == profile.value.dailyCalorieGoal.value
    ensures profile.None? || profile.value.dailyCalorieGoal.None? ==> g == DefaultCalorieGoal
  {
    if profile.Some? && profile.value.dailyCalorieGoal.Some? then profile.value.dailyCalorieGoal.value
    else DefaultCalorieGoal
  }

  function Abs(x: real): real
  {
    if x < 0.0 then -x else x
  }

  /** A day meets its goal when its calories differ from the goal by at most the tolerance. */
  predicate IsGoalMet(total: real, goal: real)
  {
    Abs(total - goal) <= Tolerance
  }

  /** Meeting the goal means lying in the closed band of width 200 kcal centred on the goal. */
  lemma GoalMetBand(total: real, goal: real)
    ensures IsGoalMet(total, goal) <==> goal - 100.0 <= total <= goal + 100.0
  {
  }

  /** `mapToCalendarDayDto`: the log's date and totals, the goal and whether the goal was met. */
  function CalendarDayOf(log: DailyLog, goal: real): (d: CalendarDay)
    reads log
    ensures d.date == log.date && d.calorieGoal == goal
    ensures d.totalCalories == log.totalCalories && d.totalProtein == log.totalProtein
    ensures d.totalCarbs == log.totalCarbs && d.totalFats == log.totalFats
    ensures d.isGoalMet <==> goal - Tolerance <= log.totalCalories <= goal + Tolerance
  {
    CalendarDay(log.date, log.totalCalories, log.totalProtein, log.totalCarbs, log.totalFats,
                goal, IsGoalMet(log.totalCalories, goal))
  }

  /**
   * `getMonthlySummary`: one calendar day per log of the month, in the order
   * of the logs, all judged against the same goal.
   */
  function MonthlySummary(logs: seq<DailyLog>, profile: Option<UserProfile>): (days: seq<CalendarDay>)
    reads logs
    ensures |days| == |logs|
    ensures forall i :: 0 <= i < |logs| ==>
      days[i].date == logs[i].date && days[i].calorieGoal == CalorieGoal(profile)
      && days[i].totalCalories == logs[i].totalCalories
  {
    seq(|logs|, i reads logs requires 0 <= i < |logs| => CalendarDayOf(logs[i], CalorieGoal(profile)))
  }

  /** Each calendar day is exactly the mapped log of the same position. */
  lemma MonthlySummaryDays(logs: seq<DailyLog>, profile: Option<UserProfile>, i: int)
    requires 0 <= i < |logs|
    ensures MonthlySummary(logs, profile)[i] == CalendarDayOf(logs[i], CalorieGoal(profile))
  {
  }

  /** A user without a profile is judged against 2000 kcal: a day of 1900 to 2100 kcal meets it. */
  lemma DefaultGoalBand(logs: seq<DailyLog>, i: int)
    requires 0 <= i < |logs|
    ensures MonthlySummary(logs, None)[i].calorieGoal == 2000.0
    ensures MonthlySummary(logs, None)[i].isGoalMet <==> 1900.0 <= logs[i].totalCalories <= 2100.0
  {
  }
}
