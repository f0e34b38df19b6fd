/** The statistics page (src/pages/Analytics.tsx): derived figures computed
    from the user record and the task list. */
module Analytics {
  import opened TaskStore
  import Progression
  import TimerRules

  /** `Math.round`: the nearest integer, halves rounded up. */
  function Round(x: real): (n: int)
    ensures n as real - 0.5 <= x < n as real + 0.5
  {
    (x + 0.5).Floor
  }

  /** Rounding never leaves an interval with integer ends. */
  lemma RoundWithin(x: real, lo: int, hi: int)
    requires lo as real <= x <= hi as real
    ensures lo <= Round(x) <= hi
  {
  }

  lemma ShareBounds(part: int, whole: int)
    requires 0 <= part <= whole && whole > 0
    ensures 0.0 <= part as real / whole as real <= 1.0
    ensures part == whole ==> part as real / whole as real == 1.0
    ensures part == 0 ==> part as real / whole as real == 0.0
    ensures part < whole ==> part as real / whole as real < 1.0
  {
    var p, w := part as real, whole as real;
    assert w / w == 1.0;
    assert w / w - p / w == (w - p) / w;
    assert 0.0 <= (w - p) / w;
    assert part < whole ==> 0.0 < (w - p) / w;
  }

  /** `completionRate`: the rounded percentage of completed tasks, 0 without tasks. */
  function CompletionRate(tasks: seq<Task>): (rate: int)
    ensures 0 <= rate <= 100
    ensures tasks == [] ==> rate == 0
    ensures |ByStatus(tasks, Completed)| == 0 ==> rate == 0
    ensures tasks != [] && |ByStatus(tasks, Completed)| == |tasks| ==> rate == 100
  {
    var done := |ByStatus(tasks, Completed)|;
    if |tasks| > 0 then
      var share := done as real / |tasks| as real;
      ShareBounds(done, |tasks|);
      RoundWithin(share * 100.0, 0, 100);
      Round(share * 100.0)
    else 0
  }

  /** `streakDays`: whole hours of study, capped at 30. */
  function StreakDays(totalStudyTime: int): (days: int)
    ensures days <= 30
    ensures totalStudyTime >= 0 ==> days >= 0
    ensures days == 30 <==> totalStudyTime >= 30 * 60
    ensures days < 30 ==> 60 * days <= totalStudyTime < 60 * (days + 1)
  {
    var hours := totalStudyTime / 60;
    if hours <= 30 then hours else 30
  }

  /** `daysSinceJoin`, from the two instants in milliseconds: whole days elapsed, at least 1. */
  function DaysSinceJoin(nowMillis: int, joinedMillis: int): (days: int)
    ensures days >= 1
    ensures days > 1 ==> 86400000 * days <= nowMillis - joinedMillis < 86400000 * (days + 1)
  {
    var whole := (nowMillis - joinedMillis) / (1000 * 60 * 60 * 24);
    if whole >= 1 then whole else 1
  }

  /** `averageDailyTime`: the study minutes per day, rounded down. */
  function AverageDailyTime(totalStudyTime: int, days: int): (avg: int)
    requires days >= 1
    ensures avg * days <= totalStudyTime < (avg + 1) * days
  {
    totalStudyTime / days
  }

  /** `expProgress`: the rounded share of the current level's requirement. */
  function ExpProgress(u: Progression.User): (pct: int)
    requires u.level >= 1
    ensures 0 <= u.experience < Progression.RequiredExp(u.level) ==> 0 <= pct <= 100
  {
    var share := u.experience as real / Progression.RequiredExp(u.level) as real;
    if 0 <= u.experience < Progression.RequiredExp(u.level) then
      ShareBounds(u.experience, Progression.RequiredExp(u.level));
      RoundWithin(share * 100.0, 0, 100);
      Round(share * 100.0)
    else
      Round(share * 100.0)
  }

  /** The experience still needed for the next level. */
  function ExpStillNeeded(u: Progression.User): (need: int)
    requires u.level >= 1
    ensures need > 0 <==> u.experience < Progression.RequiredExp(u.level)
  {
    Progression.RequiredExp(u.level) - u.experience
  }

  /** After any study session the page shows a positive amount still needed
      and a progress bar within 0..100. */
  lemma StudyLeavesExpNeeded(u: Progression.User, minutes: int)
    requires u.level >= 1 && u.experience >= 0 && minutes >= 0
    ensures ExpStillNeeded(Progression.Study(u, minutes).0) > 0
    ensures 0 <= ExpProgress(Progression.Study(u, minutes).0) <= 100
  {
  }

  /** The completed, in-progress and pending counts never exceed the task
      count; what is missing is exactly the overdue tasks. */
  lemma ShownCountsBound(tasks: seq<Task>)
    ensures |ByStatus(tasks, Completed)| + |ByStatus(tasks, InProgress)| + |ByStatus(tasks, Pending)|
            == |tasks| - |ByStatus(tasks, Overdue)|
    ensures |ByStatus(tasks, Completed)| + |ByStatus(tasks, InProgress)| + |ByStatus(tasks, Pending)| <= |tasks|
  {
    StatusCounts(tasks);
  }

  /** The hours and minutes shown for the total study time: `Math.floor(t / 60)` and `t % 60`. */
  function HoursMinutes(totalStudyTime: int): (hm: (int, int))
    ensures totalStudyTime >= 0 ==> 60 * hm.0 + hm.1 == totalStudyTime && 0 <= hm.1 < 60
  {
    (totalStudyTime / 60, TimerRules.JsRem(totalStudyTime, 60))
  }

  /** For a negative total the two parts do not recombine: -1 shows as -1 hours and -1 minutes. */
  lemma HoursMinutesNegativeExample()
    ensures HoursMinutes(-1) == (-1, -1)
  {
    assert TimerRules.JsRem(-1, 60) == -1;
  }
}
