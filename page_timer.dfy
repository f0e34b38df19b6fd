/** The study timer page (src/pages/Timer.tsx): a focus/break session clock
    that, when a focus session ends, completes the attached task once 80% of
    its estimate is reached, records the study time and may award a card. */
module PageTimer {
  import opened Basics
  import opened TaskStore
  import opened TimerRules
  import Progression

  /** The first drop test: `dropChance` below 0.3, 0.6 or 0.8 by difficulty. */
  function DropThreshold(d: Difficulty): (t: real)
    ensures 0.0 < t < 1.0
  {
    match d
    case Easy => 0.3
    case Medium => 0.6
    case Hard => 0.8
  }

  function Min(a: real, b: real): (m: real)
    ensures m <= a && m <= b && (m == a || m == b)
  {
    if a <= b then a else b
  }

  /** `Math.min(timeSpent / (estimatedTime * 60), 1.5)`. A zero estimate makes the
      quotient infinite (capped at 1.5) for a positive time and `NaN` (`None`)
      for zero time; a `NaN` quality fails every comparison. A negative time
      with a zero estimate would give minus infinity, which fails the test as
      well and is also `None`. */
  function Quality(elapsed: int, estimatedMinutes: int): (q: Option<real>)
    ensures q.Some? ==> q.value <= 1.5
    ensures estimatedMinutes > 0 && elapsed >= 0 ==> q.Some? && 0.0 <= q.value
  {
    if estimatedMinutes == 0 then (if elapsed > 0 then Some(1.5) else None)
    else Some(Min(elapsed as real / (estimatedMinutes as real * 60.0), 1.5))
  }

  /** `qualityAdjustedChance`: the roll scaled by the completion quality. */
  function AdjustedChance(roll: real, quality: real): real {
    roll * quality
  }

  /** A card drops when the roll passes the difficulty threshold and the roll
      scaled by the completion quality exceeds 0.5; every inner branch of the
      quality test then calls `addCard`. */
  predicate AwardsCard(d: Difficulty, roll: real, elapsed: int, estimatedMinutes: int) {
    roll < DropThreshold(d) && Quality(elapsed, estimatedMinutes).Some?
    && AdjustedChance(roll, Quality(elapsed, estimatedMinutes).value) > 0.5
  }

  /** Since the quality is at most 1.5, an award needs a roll above 1/3 and below the threshold. */
  lemma AwardWindow(d: Difficulty, roll: real, elapsed: int, estimatedMinutes: int)
    requires 0.0 <= roll
    ensures AwardsCard(d, roll, elapsed, estimatedMinutes) ==> 1.0 / 3.0 < roll < DropThreshold(d)
  {
    var q := Quality(elapsed, estimatedMinutes);
    if q.Some? && AdjustedChance(roll, q.value) > 0.5 {
      ScaleMonotone(roll, q.value, 1.5);
    }
  }

  /** An easy task never drops a card: the roll would have to lie below 0.3 and above 1/3. */
  lemma EasyNeverAwards(roll: real, elapsed: int, estimatedMinutes: int)
    requires 0.0 <= roll
    ensures !AwardsCard(Easy, roll, elapsed, estimatedMinutes)
  {
    AwardWindow(Easy, roll, elapsed, estimatedMinutes);
  }

  lemma ScaleMonotone(a: real, b: real, c: real)
    requires 0.0 <= a && b <= c
    ensures AdjustedChance(a, b) <= AdjustedChance(a, c)
  {
    assert a * c - a * b == a * (c - b);
  }

  lemma QuotientMonotone(x: real, y: real, d: real)
    requires d > 0.0 && x <= y
    ensures x / d <= y / d
  {
    assert y / d - x / d == (y - x) / d;
  }

  /** Studying longer never loses a card that a shorter session would have won. */
  lemma AwardMonotoneInTime(d: Difficulty, roll: real, e1: int, e2: int, estimatedMinutes: int)
    requires 0.0 <= roll && estimatedMinutes > 0 && e1 <= e2
    requires AwardsCard(d, roll, e1, estimatedMinutes)
    ensures AwardsCard(d, roll, e2, estimatedMinutes)
  {
    var den := estimatedMinutes as real * 60.0;
    QuotientMonotone(e1 as real, e2 as real, den);
    var q1, q2 := Quality(e1, estimatedMinutes), Quality(e2, estimatedMinutes);
    assert q1.value <= q2.value;
    ScaleMonotone(roll, q1.value, q2.value);
  }

  /** At 150% of the estimate or more the quality is saturated and the drop
      depends on the roll alone: exactly the rolls between 1/3 and the threshold win. */
  lemma AwardWhenSaturated(d: Difficulty, roll: real, elapsed: int, estimatedMinutes: int)
    requires 0.0 <= roll && estimatedMinutes > 0 && 2 * elapsed >= 3 * estimatedMinutes * 60
    ensures AwardsCard(d, roll, elapsed, estimatedMinutes) <==> 1.0 / 3.0 < roll < DropThreshold(d)
  {
    var den := estimatedMinutes as real * 60.0;
    assert elapsed as real >= 1.5 * den;
    QuotientMonotone(1.5 * den, elapsed as real, den);
    assert 1.5 * den / den == 1.5;
    assert Quality(elapsed, estimatedMinutes) == Some(1.5);
  }

  /** What the end of a focus session hands to the stores: the attached task,
      once the elapsed seconds reach 80% of its estimate, is completed with
      the covering whole minutes, and the drop rule decides the card. */
  function FocusReward(task: Option<Task>, elapsed: int, roll: real): (r: Reward)
    ensures r.Reward? <==> task.Some? && ReachedEstimate(elapsed, task.value.estimatedTime)
    ensures r.Reward? ==> r.taskId == task.value.id && r.minutes == CeilMinutes(elapsed)
    ensures r.Reward? ==> (r.card <==> AwardsCard(task.value.difficulty, roll, elapsed, task.value.estimatedTime))
  {
    match task
    case None => NoReward
    case Some(t) =>
      if ReachedEstimate(elapsed, t.estimatedTime)
      then Reward(t.id, CeilMinutes(elapsed), AwardsCard(t.difficulty, roll, elapsed, t.estimatedTime))
      else NoReward
  }

  /** The reward of a session of the given kind: only a focus session pays out. */
  function SessionReward(kind: SessionKind, task: Option<Task>, elapsed: int, roll: real): Reward {
    if kind == Focus then FocusReward(task, elapsed, roll) else NoReward
  }

  /** The end of a break touches neither store. */
  lemma BreakEndPaysNothing(task: Option<Task>, elapsed: int, roll: real, tasks: seq<Task>,
                            user: Option<Progression.User>, now: int)
    requires user.Some? ==> user.value.level >= 1
    ensures SessionReward(Break, task, elapsed, roll) == NoReward
    ensures TasksAfter(tasks, SessionReward(Break, task, elapsed, roll), now) == tasks
    ensures UserAfter(user, SessionReward(Break, task, elapsed, roll)) == user
  {
  }

  /** The page's timer state, with the stores it calls into. */
  class Timer {
    var isRunning: bool
    var isBreak: bool
    /** Elapsed seconds of the current session. */
    var timeSpent: int
    /** Session length in seconds. */
    var targetTime: int
    var sessionType: SessionKind
    /** The `taskId` search parameter. */
    const taskId: Option<string>
    const tasks: TaskStore
    const auth: Progression.AuthStore

    predicate Valid()
      reads this, auth
    {
      0 <= timeSpent && AllowedTarget(targetTime) && isBreak == (sessionType == Break) && auth.LevelOk()
    }

    constructor (taskId: Option<string>, tasks: TaskStore, auth: Progression.AuthStore)
      requires auth.LevelOk()
      ensures Valid()
      ensures !isRunning && !isBreak && timeSpent == 0 && targetTime == FocusSeconds && sessionType == Focus
      ensures this.taskId == taskId && this.tasks == tasks && this.auth == auth
    {
      isRunning := false;
      isBreak := false;
      timeSpent := 0;
      targetTime := FocusSeconds;
      sessionType := Focus;
      this.taskId := taskId;
      this.tasks := tasks;
      this.auth := auth;
    }

    /** `currentTask`. */
    function Current(): Option<Task>
      reads this, tasks
    {
      CurrentTask(tasks.tasks, taskId)
    }

    /** `handleSessionComplete`, with the elapsed seconds and the drop roll passed in. */
    method HandleSessionComplete(elapsed: int, dropRoll: real, now: int)
      requires Valid()
      modifies this, tasks, auth
      ensures Valid()
      ensures !isRunning && timeSpent == old(timeSpent)
      ensures sessionType == NextKind(old(sessionType)) && targetTime == NextTarget(old(sessionType))
      ensures var r := SessionReward(old(sessionType), old(Current()), elapsed, dropRoll);
        tasks.tasks == TasksAfter(old(tasks.tasks), r, now) && auth.user == UserAfter(old(auth.user), r)
      ensures auth.isAuthenticated == old(auth.isAuthenticated) && auth.isLoading == old(auth.isLoading)
    {
      isRunning := false;
      if sessionType == Focus {
        sessionType := Break;
        targetTime := BreakSeconds;
        isBreak := true;
        var task := Current();
        if task.Some? && ReachedEstimate(elapsed, task.value.estimatedTime) {
          var t := task.value;
          var minutesSpent := CeilMinutes(elapsed);
          tasks.CompleteTask(t.id, minutesSpent, now);
          var _ := auth.AddStudyTime(minutesSpent);
          DropCard(t, elapsed, dropRoll);
        }
      } else {
        sessionType := Focus;
        targetTime := FocusSeconds;
        isBreak := false;
      }
    }

    /** The card drop at the end of a focus session (`addCard` on the
        authentication store, which only counts cards). */
    method DropCard(t: Task, elapsed: int, dropRoll: real)
      requires auth.LevelOk()
      modifies auth
      ensures auth.LevelOk()
      ensures auth.user == if AwardsCard(t.difficulty, dropRoll, elapsed, t.estimatedTime)
                           then Progression.AfterAddCard(old(auth.user), 1) else old(auth.user)
      ensures auth.isAuthenticated == old(auth.isAuthenticated) && auth.isLoading == old(auth.isLoading)
    {
      var shouldDropCard :=
        (t.difficulty == Easy && dropRoll < 0.3)
        || (t.difficulty == Difficulty.Medium && dropRoll < 0.6)
        || (t.difficulty == Hard && dropRoll < 0.8);
      assert shouldDropCard <==> dropRoll < DropThreshold(t.difficulty);
      if shouldDropCard {
        var quality := Quality(elapsed, t.estimatedTime);
        if quality.Some? && AdjustedChance(dropRoll, quality.value) > 0.5 {
          var adjusted := AdjustedChance(dropRoll, quality.value);
          if t.difficulty == Easy && adjusted > 0.8 {
            auth.AddCard();
          } else if t.difficulty == Difficulty.Medium && adjusted > 0.7 {
            auth.AddCard();
          } else if t.difficulty == Hard && adjusted > 0.6 {
            auth.AddCard();
          } else {
            auth.AddCard();
          }
        }
      }
    }

    /** One interval tick: while running, the clock advances, and reaching the
        target ends the session and resets the clock. */
    method Tick(dropRoll: real, now: int)
      requires Valid()
      modifies this, tasks, auth
      ensures Valid()
      ensures !old(isRunning) ==>
        unchanged(this) && tasks.tasks == old(tasks.tasks) && auth.user == old(auth.user)
      ensures old(isRunning) ==> timeSpent < targetTime
      ensures old(isRunning) && old(timeSpent) + 1 < old(targetTime) ==>
        timeSpent == old(timeSpent) + 1 && isRunning && targetTime == old(targetTime)
        && sessionType == old(sessionType) && isBreak == old(isBreak)
        && tasks.tasks == old(tasks.tasks) && auth.user == old(auth.user)
      ensures old(isRunning) && old(timeSpent) + 1 >= old(targetTime) ==>
        var r := SessionReward(old(sessionType), old(Current()), old(timeSpent), dropRoll);
        timeSpent == 0 && !isRunning
        && sessionType == NextKind(old(sessionType)) && targetTime == NextTarget(old(sessionType))
        && tasks.tasks == TasksAfter(old(tasks.tasks), r, now) && auth.user == UserAfter(old(auth.user), r)
      ensures auth.isAuthenticated == old(auth.isAuthenticated) && auth.isLoading == old(auth.isLoading)
    {
      if isRunning {
        var newTime := timeSpent + 1;
        if newTime >= targetTime {
          HandleSessionComplete(timeSpent, dropRoll, now);
          timeSpent := 0;
        } else {
          timeSpent := newTime;
        }
      }
    }

    /** `startTimer`: run, and move a pending current task to in-progress. */
    method StartTimer()
      requires Valid()
      modifies this, tasks
      ensures Valid()
      ensures isRunning && timeSpent == old(timeSpent) && targetTime == old(targetTime)
      ensures sessionType == old(sessionType) && isBreak == old(isBreak)
      ensures tasks.tasks == StartedOnTimer(old(tasks.tasks), taskId)
    {
      isRunning := true;
      var task := Current();
      if task.Some? && task.value.status == Pending {
        tasks.UpdateTask(task.value.id, StatusPatch(InProgress));
      }
    }

    /** `pauseTimer`: stop the clock and keep everything else. */
    method PauseTimer()
      requires Valid()
      modifies this
      ensures Valid()
      ensures !isRunning && timeSpent == old(timeSpent) && targetTime == old(targetTime)
      ensures sessionType == old(sessionType) && isBreak == old(isBreak)
    {
      isRunning := false;
    }

    /** `stopTimer`: back to a fresh 25-minute focus session. */
    method StopTimer()
      requires Valid()
      modifies this
      ensures Valid()
      ensures !isRunning && timeSpent == 0 && sessionType == Focus && targetTime == FocusSeconds && !isBreak
    {
      isRunning := false;
      timeSpent := 0;
      sessionType := Focus;
      targetTime := FocusSeconds;
      isBreak := false;
    }

    /** A duration button: only the target changes, whatever the session. */
    method SelectDuration(d: Duration)
      requires Valid()
      modifies this
      ensures Valid()
      ensures targetTime == d.Seconds()
      ensures isRunning == old(isRunning) && timeSpent == old(timeSpent)
      ensures sessionType == old(sessionType) && isBreak == old(isBreak)
    {
      targetTime := d.Seconds();
    }

    /** `remainingTime`. */
    function RemainingTime(): int
      reads this
    {
      Remaining(timeSpent, targetTime)
    }

    /** `progress`. */
    function ProgressShown(): real
      requires targetTime > 0
      reads this
    {
      Progress(timeSpent, targetTime)
    }
  }
}
