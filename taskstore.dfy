/** Task records and the task store (src/stores/taskStore.ts). */
module TaskStore {
  import opened Basics
  import opened Seqs

  datatype Priority = Low | Medium | High

  datatype Status = Pending | InProgress | Completed | Overdue

  /** A task; estimates and actual times are minutes, dates opaque timestamps. */
  datatype Task = Task(
    id: string,
    title: string,
    estimatedTime: int,
    difficulty: Difficulty,
    priority: Priority,
    category: string,
    status: Status,
    createdAt: int,
    dueDate: Option<int>,
    actualTime: Option<int>,
    completedAt: Option<int>)

  /** `Omit<Task, 'id' | 'createdAt' | 'status'>`: what the caller of `addTask` supplies. */
  datatype TaskDraft = TaskDraft(
    title: string,
    estimatedTime: int,
    difficulty: Difficulty,
    priority: Priority,
    category: string,
    dueDate: Option<int>,
    actualTime: Option<int>,
    completedAt: Option<int>)

  /** `Partial<Task>`: a field that is `Some` overrides the stored one. */
  datatype TaskPatch = TaskPatch(
    id: Option<string>,
    title: Option<string>,
    estimatedTime: Option<int>,
    difficulty: Option<Difficulty>,
    priority: Option<Priority>,
    category: Option<string>,
    status: Option<Status>,
    createdAt: Option<int>,
    dueDate: Option<int>,
    actualTime: Option<int>,
    completedAt: Option<int>)

  /** The patch `{ status }` alone. */
  function StatusPatch(s: Status): TaskPatch {
    TaskPatch(None, None, None, None, None, None, Some(s), None, None, None, None)
  }

  /** The record `addTask` builds: a fresh id, the creation time, status pending. */
  function NewTask(d: TaskDraft, freshId: string, now: int): (t: Task)
    ensures t.status == Pending && t.id == freshId && t.createdAt == now
    ensures t.title == d.title && t.estimatedTime == d.estimatedTime && t.difficulty == d.difficulty
  {
    Task(freshId, d.title, d.estimatedTime, d.difficulty, d.priority, d.category,
         Pending, now, d.dueDate, d.actualTime, d.completedAt)
  }

  /** `{ ...task, ...updates }`. */
  function Apply(t: Task, p: TaskPatch): Task {
    Task(
      p.id.GetOr(t.id),
      p.title.GetOr(t.title),
      p.estimatedTime.GetOr(t.estimatedTime),
      p.difficulty.GetOr(t.difficulty),
      p.priority.GetOr(t.priority),
      p.category.GetOr(t.category),
      p.status.GetOr(t.status),
      p.createdAt.GetOr(t.createdAt),
      if p.dueDate.Some? then p.dueDate else t.dueDate,
      if p.actualTime.Some? then p.actualTime else t.actualTime,
      if p.completedAt.Some? then p.completedAt else t.completedAt)
  }

  /** `updateTask(id, updates)`: `tasks.map(t => t.id === id ? {...t, ...updates} : t)`. */
  function Patched(tasks: seq<Task>, id: string, p: TaskPatch): (r: seq<Task>)
    ensures |r| == |tasks|
    ensures forall i :: 0 <= i < |tasks| ==>
      r[i] == if tasks[i].id == id then Apply(tasks[i], p) else tasks[i]
  {
    if tasks == [] then []
    else [if tasks[0].id == id then Apply(tasks[0], p) else tasks[0]] + Patched(tasks[1..], id, p)
  }

  /** `startTask(id)`: the matching tasks become in-progress. */
  function Started(tasks: seq<Task>, id: string): (r: seq<Task>)
    ensures |r| == |tasks|
    ensures forall i :: 0 <= i < |tasks| ==>
      r[i] == if tasks[i].id == id then tasks[i].(status := InProgress) else tasks[i]
  {
    if tasks == [] then []
    else [if tasks[0].id == id then tasks[0].(status := InProgress) else tasks[0]] + Started(tasks[1..], id)
  }

  /** `completeTask(id, actualTime)`: the matching tasks become completed with
      the given actual minutes and completion time. */
  function CompletedAll(tasks: seq<Task>, id: string, actualTime: int, now: int): (r: seq<Task>)
    ensures |r| == |tasks|
    ensures forall i :: 0 <= i < |tasks| ==>
      r[i] == if tasks[i].id == id
              then tasks[i].(status := Completed, actualTime := Some(actualTime), completedAt := Some(now))
              else tasks[i]
  {
    if tasks == [] then []
    else [if tasks[0].id == id
          then tasks[0].(status := Completed, actualTime := Some(actualTime), completedAt := Some(now))
          else tasks[0]]
         + CompletedAll(tasks[1..], id, actualTime, now)
  }

  /** `deleteTask(id)`: the tasks whose id differs, in store order. */
  function Without(tasks: seq<Task>, id: string): (r: seq<Task>)
    ensures forall i :: 0 <= i < |r| ==> r[i].id != id && r[i] in tasks
    ensures forall i :: 0 <= i < |tasks| && tasks[i].id != id ==> tasks[i] in r
    ensures IsSubseq(r, tasks)
  {
    Filter(tasks, (t: Task) => t.id != id)
  }

  /** `getTasksByStatus(status)`: the tasks with that status, in store order. */
  function ByStatus(tasks: seq<Task>, s: Status): (r: seq<Task>)
    ensures forall i :: 0 <= i < |r| ==> r[i].status == s && r[i] in tasks
    ensures forall i :: 0 <= i < |tasks| && tasks[i].status == s ==> tasks[i] in r
    ensures IsSubseq(r, tasks)
  {
    Filter(tasks, (t: Task) => t.status == s)
  }

  /** An id that no task carries leaves every id-keyed operation without effect. */
  lemma UnknownIdNoOp(tasks: seq<Task>, id: string, p: TaskPatch, actualTime: int, now: int)
    requires forall i :: 0 <= i < |tasks| ==> tasks[i].id != id
    ensures Patched(tasks, id, p) == tasks
    ensures Started(tasks, id) == tasks
    ensures CompletedAll(tasks, id, actualTime, now) == tasks
    ensures Without(tasks, id) == tasks
  {
    FilterAll(tasks, (t: Task) => t.id != id);
  }

  /** Deleting removes exactly the tasks with that id: the count drops by their number. */
  lemma {:induction false} WithoutCount(tasks: seq<Task>, id: string)
    ensures |Without(tasks, id)| + |Filter(tasks, (t: Task) => t.id == id)| == |tasks|
  {
    if tasks != [] {
      WithoutCount(tasks[1..], id);
    }
  }

  /** Starting a task only changes its status, whatever the status was, and
      starting twice is starting once. */
  lemma StartedLaws(tasks: seq<Task>, id: string)
    ensures Started(Started(tasks, id), id) == Started(tasks, id)
    ensures Started(tasks, id) == Patched(tasks, id, StatusPatch(InProgress))
    ensures forall i :: 0 <= i < |tasks| && tasks[i].id == id ==>
      Started(tasks, id)[i].status == InProgress
  {
    var s := Started(tasks, id);
    assert forall i :: 0 <= i < |tasks| ==> Started(s, id)[i] == s[i];
    assert forall i :: 0 <= i < |tasks| ==> Patched(tasks, id, StatusPatch(InProgress))[i] == s[i];
  }

  /** Every task falls under exactly one status filter. */
  lemma {:induction false} StatusCounts(tasks: seq<Task>)
    ensures |ByStatus(tasks, Pending)| + |ByStatus(tasks, InProgress)|
          + |ByStatus(tasks, Completed)| + |ByStatus(tasks, Overdue)| == |tasks|
  {
    if tasks != [] {
      StatusCounts(tasks[1..]);
    }
  }

  /** A newly added task is pending: it joins the end of the pending list and
      no other status list changes. */
  lemma AddedTaskIsPending(tasks: seq<Task>, d: TaskDraft, freshId: string, now: int, s: Status)
    ensures ByStatus(tasks + [NewTask(d, freshId, now)], s)
         == if s == Pending then ByStatus(tasks, s) + [NewTask(d, freshId, now)] else ByStatus(tasks, s)
  {
    FilterAppend(tasks, [NewTask(d, freshId, now)], (t: Task) => t.status == s);
  }

  /** The task list, rewritten whole by every operation. */
  class TaskStore {
    var tasks: seq<Task>

    constructor ()
      ensures tasks == []
    {
      tasks := [];
    }

    method AddTask(draft: TaskDraft, freshId: string, now: int)
      modifies this
      ensures tasks == old(tasks) + [NewTask(draft, freshId, now)]
    {
      tasks := tasks + [NewTask(draft, freshId, now)];
    }

    method UpdateTask(id: string, updates: TaskPatch)
      modifies this
      ensures tasks == Patched(old(tasks), id, updates)
    {
      tasks := Patched(tasks, id, updates);
    }

    method DeleteTask(id: string)
      modifies this
      ensures tasks == Without(old(tasks), id)
    {
      tasks := Without(tasks, id);
    }

    method StartTask(id: string)
      modifies this
      ensures tasks == Started(old(tasks), id)
    {
      tasks := Started(tasks, id);
    }

    method CompleteTask(id: string, actualTime: int, now: int)
      modifies this
      ensures tasks == CompletedAll(old(tasks), id, actualTime, now)
    {
      tasks := CompletedAll(tasks, id, actualTime, now);
    }

    function TasksByStatus(s: Status): seq<Task>
      reads this
    {
      ByStatus(tasks, s)
    }
  }
}
