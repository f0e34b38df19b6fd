/** The embeddable timer widget (src/components/Timer.tsx): the same
    focus/break clock as the timer page, except that the attached task is
    completed when the BREAK ends, cards drop on a plain roll threshold, and
    the widget reports the recorded minutes through `onComplete`. */
module ComponentTimer {
  import opened Basics
  import opened TaskStore
  import opened TimerRules
  import Progression

  /** `cardDropChance` below 0.2, 0.6 or 0.9 by difficulty. */
  function DropThreshold(d: Difficulty): (t: real)
    ensures 0.0 < t < 1.0
  {
    match d
    case Easy => 0.2
    case Medium => 0.6
    case Hard => 0.9
  }

  predicate AwardsCard(d: Difficulty, roll: real) {
    roll < DropThreshold(d)
  }

  /** A harder task wins a card on every roll an easier one wins on. */
  lemma AwardMonotoneInDifficulty(roll: real)
    ensures AwardsCard(Easy, roll) ==> AwardsCard(Difficulty.Medium, roll)
    ensures AwardsCard(Difficulty.Medium, roll) ==> AwardsCard(Hard, roll)
    ensures roll < 0.2 ==> AwardsCard(Easy, roll) && AwardsCard(Difficulty.Medium, roll) && AwardsCard(Hard, roll)
    ensures roll >= 0.9 ==> !AwardsCard(Easy, roll) && !AwardsCard(Difficulty.Medium, roll) && !AwardsCard(Hard, roll)
  {
  }

  /** What the end of a break hands to the stores: the attached task, once the
      elapsed seconds reach 80% of its estimate, is completed with the covering
      whole minutes, and the roll decides the card. */
  function BreakReward(task: Option<Task>, elapsed: int, roll: real): (r: Reward)
    ensures r.Reward? <==> task.Some? && ReachedEstimate(elapsed, task.value.estimatedTime)
    ensures r.Reward? ==> r.taskId == task.value.id && r.minutes == CeilMinutes(elapsed)
    ensures r.Reward? ==> (r.card <==> AwardsCard(task.value.difficulty, roll))
  {
    match task
    case None => NoReward
    case Some(t) =>
      if ReachedEstimate(elapsed, t.estimatedTime)
      then Reward(t.id, CeilMinutes(elapsed), AwardsCard(t.difficulty, roll))
      else NoReward
  }

  /** The reward of a session of the given kind: only a break pays out. */
  function SessionReward(kind: SessionKind, task: Option<Task>, elapsed: int, roll: real): Reward {
    if kind == Break then BreakReward(task, elapsed, roll) else NoReward
  }

  /** The argument `onComplete` receives, if it is called at all. */
  function Reported(r: Reward): (m: Option<int>)
    ensures m.Some? <==> r.Reward?
    ensures m.Some? ==> m.value == r.minutes
  {
    if r.Reward? then Some(r.minutes) else None
  }

  /** A break ending reports exactly the minutes it records as study time, and
      a focus session never reports anything. */
  lemma ReportedMatchesStudyTime(kind: SessionKind, task: Option<Task>, elapsed: int, roll: real,
                                 user: Option<Progression.User>)
    requires user.Some? && user.value.level >= 1
    ensures var r := SessionReward(kind, task, elapsed, roll);
      Reported(r).Some? ==>
        UserAfter(user, r).value.totalStudyTime == user.value.totalStudyTime + Reported(r).value
    ensures kind == Focus ==> Reported(SessionReward(kind, task, elapsed, roll)).None?
  {
    var r := SessionReward(kind, task, elapsed, roll);
    if r.Reward? {
      UserAfterCounters(user, r);
    }
  }

  /** The end of a focus session touches neither store. */
  lemma FocusEndPaysNothing(task: Option<Task>, elapsed: int, roll: real, tasks: seq<Task>,
                            user: Option<Progression.User>, now: int)
    requires user.Some? ==> user.value.level >= 1
    ensures SessionReward(Focus, task, elapsed, roll) == NoReward
    ensures TasksAfter(tasks, SessionReward(Focus, task, elapsed, roll), now) == tasks
    ensures UserAfter(user, SessionReward(Focus, task, elapsed, roll)) == user
  {
  }

  /** A break that ends with fewer than 300 elapsed seconds completes only a
      task estimated at 6 minutes or less. */
  lemma BreakCompletesOnlyShortTasks(task: Option<Task>, elapsed: int, roll: real)
    requires elapsed < BreakSeconds
    ensures SessionReward(Break, task, elapsed, roll).Reward? ==> task.value.estimatedTime <= 6
  {
    if task.Some? {
      ReachedEstimateInIntegers(elapsed, task.value.estimatedTime);
    }
  }

  /** The widget's timer state, with the stores it calls into. */
  class Timer {
    var isRunning: bool
    var isBreak: bool
    /** Elapsed seconds of the current session. */
    var timeSpent: int
    /** Session length in seconds. */
    var targetTime: int
    var sessionType: SessionKind
    /** The `taskId` property. */
    const taskId: Option<string>
    const tasks: TaskStore
    const auth: Progression.AuthStore

    predicate Valid()
      reads this, auth
    {
      0 <= timeSpent && AllowedTarget(targetTime) && isBreak == (sessionType == Break) && auth.LevelOk()
    }

    constructor (taskId: Option<string>, tasks: TaskStore, auth: Progression.AuthStore)
      requires auth.LevelOk()
      ensures Valid()
      ensures !isRunning && !isBreak && timeSpent == 0 && targetTime == FocusSeconds && sessionType == Focus
      ensures this.taskId == taskId && this.tasks == tasks && this.auth == auth
    {
      isRunning := false;
      isBreak := false;
      timeSpent := 0;
      targetTime := FocusSeconds;
      sessionType := Focus;
      this.taskId := taskId;
      this.tasks := tasks;
      this.auth := auth;
    }

    /** `currentTask`. */
    function Current(): Option<Task>
      reads this, tasks
    {
      CurrentTask(tasks.tasks, taskId)
    }

    /** `handleSessionComplete`, with the elapsed seconds and the drop roll
        passed in; `completed` is the argument of the `onComplete` call. */
    method HandleSessionComplete(elapsed: int, dropRoll: real, now: int) returns (completed: Option<int>)
      requires Valid()
      modifies this, tasks, auth
      ensures Valid()
      ensures !isRunning && timeSpent == old(timeSpent)
      ensures sessionType == NextKind(old(sessionType)) && targetTime == NextTarget(old(sessionType))
      ensures var r := SessionReward(old(sessionType), old(Current()), elapsed, dropRoll);
        tasks.tasks == TasksAfter(old(tasks.tasks), r, now) && auth.user == UserAfter(old(auth.user), r)
        && completed == Reported(r)
      ensures auth.isAuthenticated == old(auth.isAuthenticated) && auth.isLoading == old(auth.isLoading)
    {
      completed := None;
      isRunning := false;
      if sessionType == Focus {
        sessionType := Break;
        targetTime := BreakSeconds;
        isBreak := true;
      } else {
        sessionType := Focus;
        targetTime := FocusSeconds;
        isBreak := false;
        var task := Current();
        if task.Some? && ReachedEstimate(elapsed, task.value.estimatedTime) {
          var t := task.value;
          var minutesSpent := CeilMinutes(elapsed);
          tasks.CompleteTask(t.id, minutesSpent, now);
          var _ := auth.AddStudyTime(minutesSpent);
          DropCard(t, dropRoll);
          completed := Some(minutesSpent);
        }
      }
    }

    /** The card drop at the end of a break: at most one `addCard` on the
        authentication store, which only counts cards. */
    method DropCard(t: Task, dropRoll: real)
      requires auth.LevelOk()
      modifies auth
      ensures auth.LevelOk()
      ensures auth.user == if AwardsCard(t.difficulty, dropRoll)
                           then Progression.AfterAddCard(old(auth.user), 1) else old(auth.user)
      ensures auth.isAuthenticated == old(auth.isAuthenticated) && auth.isLoading == old(auth.isLoading)
    {
      if t.difficulty == Easy && dropRoll < 0.2 {
        auth.AddCard();
      } else if t.difficulty == Difficulty.Medium && dropRoll < 0.6 {
        auth.AddCard();
      } else if t.difficulty == Hard && dropRoll < 0.9 {
        auth.AddCard();
      }
    }

    /** One interval tick: while running, the clock advances, and reaching the
        target ends the session and resets the clock. */
    method Tick(dropRoll: real, now: int) returns (completed: Option<int>)
      requires Valid()
      modifies this, tasks, auth
      ensures Valid()
      ensures !old(isRunning) ==>
        unchanged(this) && tasks.tasks == old(tasks.tasks) && auth.user == old(auth.user) && completed.None?
      ensures old(isRunning) ==> timeSpent < targetTime
      ensures old(isRunning) && old(timeSpent) + 1 < old(targetTime) ==>
        timeSpent == old(timeSpent) + 1 && isRunning && targetTime == old(targetTime)
        && sessionType == old(sessionType) && isBreak == old(isBreak)
        && tasks.tasks == old(tasks.tasks) && auth.user == old(auth.user) && completed.None?
      ensures old(isRunning) && old(timeSpent) + 1 >= old(targetTime) ==>
        var r := SessionReward(old(sessionType), old(Current()), old(timeSpent), dropRoll);
        timeSpent == 0 && !isRunning
        && sessionType == NextKind(old(sessionType)) && targetTime == NextTarget(old(sessionType))
        && tasks.tasks == TasksAfter(old(tasks.tasks), r, now) && auth.user == UserAfter(old(auth.user), r)
        && completed == Reported(r)
      ensures auth.isAuthenticated == old(auth.isAuthenticated) && auth.isLoading == old(auth.isLoading)
    {
      completed := None;
      if isRunning {
        var newTime := timeSpent + 1;
        if newTime >= targetTime {
          completed := HandleSessionComplete(timeSpent, dropRoll, now);
          timeSpent := 0;
        } else {
          timeSpent := newTime;
        }
      }
    }

    /** `startTimer`: run, and move a pending current task to in-progress. */
    method StartTimer()
      requires Valid()
      modifies this, tasks
      ensures Valid()
      ensures isRunning && timeSpent == old(timeSpent) && targetTime == old(targetTime)
      ensures sessionType == old(sessionType) && isBreak == old(isBreak)
      ensures tasks.tasks == StartedOnTimer(old(tasks.tasks), taskId)
    {
      isRunning := true;
      var task := Current();
      if task.Some? && task.value.status == Pending {
        tasks.UpdateTask(task.value.id, StatusPatch(InProgress));
      }
    }

    /** `pauseTimer`: stop the clock and keep everything else. */
    method PauseTimer()
      requires Valid()
      modifies this
      ensures Valid()
      ensures !isRunning && timeSpent == old(timeSpent) && targetTime == old(targetTime)
      ensures sessionType == old(sessionType) && isBreak == old(isBreak)
    {
      isRunning := false;
    }

    /** `stopTimer`: back to a fresh 25-minute focus session. */
    method StopTimer()
      requires Valid()
      modifies this
      ensures Valid()
      ensures !isRunning && timeSpent == 0 && sessionType == Focus && targetTime == FocusSeconds && !isBreak
    {
      isRunning := false;
      timeSpent := 0;
      sessionType := Focus;
      targetTime := FocusSeconds;
      isBreak := false;
    }

    /** A duration button: only the target changes, whatever the session. */
    method SelectDuration(d: Duration)
      requires Valid()
      modifies this
      ensures Valid()
      ensures targetTime == d.Seconds()
      ensures isRunning == old(isRunning) && timeSpent == old(timeSpent)
      ensures sessionType == old(sessionType) && isBreak == old(isBreak)
    {
      targetTime := d.Seconds();
    }

    /** `remainingTime`. */
    function RemainingTime(): int
      reads this
    {
      Remaining(timeSpent, targetTime)
    }

    /** `progress`. */
    function ProgressShown(): real
      requires targetTime > 0
      reads this
    {
      Progress(timeSpent, targetTime)
    }
  }
}
