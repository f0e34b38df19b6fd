/** The rules the two session timers share (src/pages/Timer.tsx and
    src/components/Timer.tsx): the clock display, the durations, the
    80%-of-estimate rule, the recorded minutes and the rewards a finished
    session hands to the task and authentication stores. */
module TimerRules {
  import opened Basics
  import opened Text
  import opened TaskStore
  import Progression

  datatype SessionKind = Focus | Break

  /** The default focus length (25 minutes) and the break length (5 minutes), in seconds. */
  const FocusSeconds: int := 25 * 60
  const BreakSeconds: int := 5 * 60

  /** The three duration buttons. */
  datatype Duration = Minutes25 | Minutes45 | Minutes60 {
    function Seconds(): (s: int)
      ensures s == 1500 || s == 2700 || s == 3600
    {
      match this
      case Minutes25 => 25 * 60
      case Minutes45 => 45 * 60
      case Minutes60 => 60 * 60
    }
  }

  /** The targets a timer can hold: a button's length or the break length. */
  predicate AllowedTarget(t: int) {
    t == BreakSeconds || t == Minutes25.Seconds() || t == Minutes45.Seconds() || t == Minutes60.Seconds()
  }

  /** The kind and target that follow the end of a session. */
  function NextKind(k: SessionKind): SessionKind {
    match k
    case Focus => Break
    case Break => Focus
  }

  function NextTarget(k: SessionKind): (t: int)
    ensures AllowedTarget(t)
  {
    match k
    case Focus => BreakSeconds
    case Break => FocusSeconds
  }

  /** JavaScript's truncating quotient for a positive divisor (rounds toward zero). */
  function JsQuot(a: int, b: int): int
    requires b > 0
  {
    if a >= 0 then a / b else -((-a) / b)
  }

  /** JavaScript's `%` for a positive divisor: the remainder of the truncating
      division, which takes the sign of the dividend, unlike Dafny's Euclidean `%`. */
  function JsRem(a: int, b: int): (r: int)
    requires b > 0
    ensures a == b * JsQuot(a, b) + r
    ensures -b < r < b
    ensures a >= 0 ==> 0 <= r
    ensures a <= 0 ==> r <= 0
  {
    if a >= 0 then a % b
    else
      var q, m := (-a) / b, (-a) % b;
      assert -a == b * q + m;
      assert b * -q == -(b * q);
      -m
  }

  /** `formatTime(seconds)`: the minutes `Math.floor(seconds / 60)` (Dafny's `/`
      by a positive divisor rounds down as well) and the seconds
      `seconds % 60`, each padded to two characters, joined by a colon. */
  function FormatTime(seconds: int): string {
    PadStart2(IntToString(seconds / 60)) + ":" + PadStart2(IntToString(JsRem(seconds, 60)))
  }

  /** Reads an `mm:ss` display (seconds below 60) back into seconds. */
  function ParseClock(r: string): (s: Option<int>)
    ensures s.Some? ==> 0 <= s.value < 6000
  {
    if |r| == 5 && IsDigit(r[0]) && IsDigit(r[1]) && r[2] == ':' && '0' <= r[3] <= '5' && IsDigit(r[4])
    then
      var m1, m0, s1, s0 := DigitValue(r[0]), DigitValue(r[1]), DigitValue(r[3]), DigitValue(r[4]);
      assert m1 * 600 <= 5400 && m0 * 60 <= 540 && s1 * 10 <= 50;
      Some(m1 * 600 + m0 * 60 + s1 * 10 + s0)
    else None
  }

  /** Two padded fields around a colon read back as minutes and seconds. */
  lemma ParseClockOfFields(left: string, right: string)
    requires |left| == 2 && IsDigit(left[0]) && IsDigit(left[1])
    requires |right| == 2 && '0' <= right[0] <= '5' && IsDigit(right[1])
    ensures ParseClock(left + ":" + right) ==
      Some((DigitValue(left[0]) * 10 + DigitValue(left[1])) * 60 + DigitValue(right[0]) * 10 + DigitValue(right[1]))
  {
    var r := left + ":" + right;
    assert r[0] == left[0] && r[1] == left[1] && r[2] == ':' && r[3] == right[0] && r[4] == right[1];
  }

  /** Below 100 minutes the display splits into the padded minutes and seconds. */
  lemma FormatTimeFields(seconds: int)
    requires 0 <= seconds < 6000
    ensures seconds / 60 < 100 && seconds / 60 * 60 + seconds % 60 == seconds
    ensures FormatTime(seconds) == PadStart2(IntToString(seconds / 60)) + ":" + PadStart2(IntToString(seconds % 60))
  {
    assert JsRem(seconds, 60) == seconds % 60;
  }

  /** Below 100 minutes the display is `mm:ss` and gives the seconds back. */
  lemma FormatTimeRoundTrip(seconds: int)
    requires 0 <= seconds < 6000
    ensures |FormatTime(seconds)| == 5 && FormatTime(seconds)[2] == ':'
    ensures ParseClock(FormatTime(seconds)) == Some(seconds)
  {
    FormatTimeFields(seconds);
    var m, s := seconds / 60, seconds % 60;
    var left, right := PadStart2(IntToString(m)), PadStart2(IntToString(s));
    PaddedTwoDigits(m);
    PaddedTwoDigits(s);
    ParseClockOfFields(left, right);
    var lv, rv := DigitValue(left[0]) * 10 + DigitValue(left[1]), DigitValue(right[0]) * 10 + DigitValue(right[1]);
    assert lv * 60 + rv == seconds;
  }

  /** A negative value (the remaining time once a shorter duration is chosen
      mid-session) is printed with JavaScript's signs: `-9:-20` for -500. */
  lemma FormatTimeNegativeExample()
    ensures FormatTime(-500) == "-9:-20"
  {
    assert JsRem(-500, 60) == -20;
    assert IntToString(-9) == "-9";
    assert IntToString(-20) == "-20";
  }

  /** `targetTime - timeSpent`. */
  function Remaining(timeSpent: int, target: int): (r: int)
    ensures r > 0 <==> timeSpent < target
    ensures timeSpent + r == target
  {
    target - timeSpent
  }

  /** `(timeSpent / targetTime) * 100`. */
  function Progress(timeSpent: int, target: int): (p: real)
    requires target > 0
    ensures 0 <= timeSpent < target ==> 0.0 <= p < 100.0
  {
    timeSpent as real / target as real * 100.0
  }

  /** Progress and remaining time add up: the displayed share plus the remaining share is 100%. */
  lemma ProgressPlusRemaining(timeSpent: int, target: int)
    requires target > 0
    ensures Progress(timeSpent, target) + Remaining(timeSpent, target) as real / target as real * 100.0 == 100.0
  {
    var t, T := timeSpent as real, target as real;
    assert (T - t) / T == T / T - t / T;
  }

  /** `Math.ceil(timeSpent / 60)`: the whole minutes that cover the seconds. */
  function CeilMinutes(seconds: int): (m: int)
    ensures 60 * (m - 1) < seconds <= 60 * m
    ensures seconds >= 0 ==> m >= 0
  {
    (seconds + 59) / 60
  }

  /** `timeSpent >= currentTask.estimatedTime * 60 * 0.8`, on exact reals. */
  predicate ReachedEstimate(elapsed: int, estimatedMinutes: int) {
    elapsed as real >= estimatedMinutes as real * 60.0 * 0.8
  }

  /** The 80% rule in integers. */
  lemma ReachedEstimateInIntegers(elapsed: int, estimatedMinutes: int)
    ensures ReachedEstimate(elapsed, estimatedMinutes) <==> 5 * elapsed >= 240 * estimatedMinutes
  {
  }

  /** `tasks.find(t => t.id === id)`: the first task carrying the id. */
  function FindTask(tasks: seq<Task>, id: string): (r: Option<Task>)
    ensures r.Some? ==> exists k :: 0 <= k < |tasks| && tasks[k] == r.value
                                     && forall j :: 0 <= j < k ==> tasks[j].id != id
    ensures r.Some? ==> r.value.id == id
    ensures r.None? <==> forall i :: 0 <= i < |tasks| ==> tasks[i].id != id
  {
    if tasks == [] then None
    else if tasks[0].id == id then Some(tasks[0])
    else FindTask(tasks[1..], id)
  }

  /** `taskId ? tasks.find(...) : null`: no task without an id or with the empty id. */
  function CurrentTask(tasks: seq<Task>, taskId: Option<string>): (r: Option<Task>)
    ensures r.Some? ==> taskId.Some? && taskId.value != "" && r.value.id == taskId.value
    ensures r.None? <==> taskId.None? || taskId.value == ""
                         || forall i :: 0 <= i < |tasks| ==> tasks[i].id != taskId.value
    ensures r.Some? ==> r == FindTask(tasks, taskId.value)
  {
    if taskId.None? || taskId.value == "" then None else FindTask(tasks, taskId.value)
  }

  /** `startTimer`'s task update: a pending current task becomes in-progress
      (through `updateTask`, so every task sharing its id); otherwise nothing changes. */
  function StartedOnTimer(tasks: seq<Task>, taskId: Option<string>): seq<Task> {
    match CurrentTask(tasks, taskId)
    case Some(t) => if t.status == Pending then Patched(tasks, t.id, StatusPatch(InProgress)) else tasks
    case None => tasks
  }

  /** Starting moves the current task from pending to in-progress, leaves a task
      of any other status and every other id alone, and starting again changes nothing. */
  lemma StartedOnTimerLaws(tasks: seq<Task>, taskId: Option<string>)
    ensures |StartedOnTimer(tasks, taskId)| == |tasks|
    ensures CurrentTask(tasks, taskId).Some? && CurrentTask(tasks, taskId).value.status == Pending ==>
      CurrentTask(StartedOnTimer(tasks, taskId), taskId) == Some(CurrentTask(tasks, taskId).value.(status := InProgress))
    ensures CurrentTask(tasks, taskId).None? || CurrentTask(tasks, taskId).value.status != Pending ==>
      StartedOnTimer(tasks, taskId) == tasks
    ensures forall i :: 0 <= i < |tasks| && (taskId.None? || tasks[i].id != taskId.value) ==>
      StartedOnTimer(tasks, taskId)[i] == tasks[i]
    ensures StartedOnTimer(StartedOnTimer(tasks, taskId), taskId) == StartedOnTimer(tasks, taskId)
  {
    match CurrentTask(tasks, taskId)
    case None =>
    case Some(t) =>
      if t.status == Pending {
        var s := Patched(tasks, t.id, StatusPatch(InProgress));
        PatchedKeepsFirst(tasks, t.id, StatusPatch(InProgress));
        assert FindTask(s, t.id) == Some(Apply(t, StatusPatch(InProgress)));
      }
  }

  /** Patching by id keeps the first task with that id first, patched. */
  lemma {:induction false} PatchedKeepsFirst(tasks: seq<Task>, id: string, p: TaskPatch)
    requires p.id.None?
    requires FindTask(tasks, id).Some?
    ensures FindTask(Patched(tasks, id, p), id) == Some(Apply(FindTask(tasks, id).value, p))
  {
    if tasks[0].id != id {
      PatchedKeepsFirst(tasks[1..], id, p);
      assert Patched(tasks, id, p)[1..] == Patched(tasks[1..], id, p);
    }
  }

  /** What the end of a session hands to the stores: nothing, or the task to
      complete with the recorded minutes and whether a card is awarded. */
  datatype Reward = NoReward | Reward(taskId: string, minutes: int, card: bool)

  /** The task list after the reward: the task is completed with the recorded minutes. */
  function TasksAfter(tasks: seq<Task>, r: Reward, now: int): (ts: seq<Task>)
    ensures |ts| == |tasks|
    ensures r.NoReward? ==> ts == tasks
    ensures r.Reward? ==> forall i :: 0 <= i < |tasks| ==>
      if tasks[i].id == r.taskId
      then ts[i].status == Completed && ts[i].actualTime == Some(r.minutes) && ts[i].completedAt == Some(now)
      else ts[i] == tasks[i]
  {
    match r
    case NoReward => tasks
    case Reward(id, minutes, _) => CompletedAll(tasks, id, minutes, now)
  }

  /** The user after the reward: `addStudyTime(minutes)`, then `addCard()` when a card is awarded. */
  function UserAfter(user: Option<Progression.User>, r: Reward): (u: Option<Progression.User>)
    requires user.Some? ==> user.value.level >= 1
    ensures u.Some? <==> user.Some?
    ensures u.Some? ==> u.value.level >= user.value.level
  {
    match r
    case NoReward => user
    case Reward(_, minutes, card) =>
      var studied := Progression.AfterStudy(user, minutes);
      if card then Progression.AfterAddCard(studied, 1) else studied
  }

  /** A reward records study time and at most one card: the user's study time
      grows by the recorded minutes and the card count by 0 or 1. */
  lemma UserAfterCounters(user: Option<Progression.User>, r: Reward)
    requires user.Some? && user.value.level >= 1
    requires r.Reward?
    ensures UserAfter(user, r).value.totalStudyTime == user.value.totalStudyTime + r.minutes
    ensures UserAfter(user, r).value.cardCount == user.value.cardCount + (if r.card then 1 else 0)
  {
  }
}
