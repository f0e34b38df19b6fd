/** The task management page (src/pages/Tasks.tsx): the add-task form and
    the pending / in-progress / completed columns. */
module TasksPage {
  import opened Basics
  import opened Seqs
  import opened Text
  import opened TaskStore

  /** The form fields of `newTask`. */
  datatype Form = Form(title: string, estimatedTime: int, difficulty: Difficulty, priority: Priority, category: string)

  /** The state the form starts in and returns to after adding a task. */
  const EmptyForm: Form := Form("", 30, Difficulty.Medium, Priority.Medium, "学习")

  /** What `addTask(newTask)` receives: the form fields, no due date, actual time or completion. */
  function Draft(f: Form): TaskDraft {
    TaskDraft(f.title, f.estimatedTime, f.difficulty, f.priority, f.category, None, None, None)
  }

  /** The estimate input: `parseInt(value) || 30`, so `NaN` and 0 fall back to 30. */
  function EstimateInput(value: string): (minutes: int)
    ensures minutes != 0
    ensures ParseInt(value).None? || ParseInt(value) == Some(0) ==> minutes == 30
    ensures ParseInt(value).Some? && ParseInt(value) != Some(0) ==> minutes == ParseInt(value).value
  {
    match ParseInt(value)
    case None => 30
    case Some(v) => if v == 0 then 30 else v
  }

  /** A positive number typed into the field is taken as it is. */
  lemma EstimateInputOfNumber(n: nat)
    requires n > 0
    ensures EstimateInput(NatToString(n)) == n
  {
    ParseIntOfNatToString(n);
  }

  /** The three columns: each holds exactly the tasks of its status, in store
      order; no task sits in two columns; overdue tasks sit in none; and the
      columns with the overdue tasks account for every task. */
  lemma ColumnsPartition(tasks: seq<Task>)
    ensures forall i :: 0 <= i < |tasks| ==>
      (tasks[i] in ByStatus(tasks, Pending) <==> tasks[i].status == Pending)
      && (tasks[i] in ByStatus(tasks, InProgress) <==> tasks[i].status == InProgress)
      && (tasks[i] in ByStatus(tasks, Completed) <==> tasks[i].status == Completed)
    ensures forall t :: t in ByStatus(tasks, Pending) ==> t !in ByStatus(tasks, InProgress) && t !in ByStatus(tasks, Completed)
    ensures forall t :: t in ByStatus(tasks, InProgress) ==> t !in ByStatus(tasks, Completed)
    ensures |ByStatus(tasks, Pending)| + |ByStatus(tasks, InProgress)| + |ByStatus(tasks, Completed)|
            + |ByStatus(tasks, Overdue)| == |tasks|
  {
    StatusCounts(tasks);
    forall i | 0 <= i < |tasks|
      ensures tasks[i] in ByStatus(tasks, Pending) ==> tasks[i].status == Pending
      ensures tasks[i] in ByStatus(tasks, InProgress) ==> tasks[i].status == InProgress
      ensures tasks[i] in ByStatus(tasks, Completed) ==> tasks[i].status == Completed
    {
      InByStatus(tasks, Pending, tasks[i]);
      InByStatus(tasks, InProgress, tasks[i]);
      InByStatus(tasks, Completed, tasks[i]);
    }
    forall t | t in ByStatus(tasks, Pending)
      ensures t !in ByStatus(tasks, InProgress) && t !in ByStatus(tasks, Completed)
    {
      InByStatus(tasks, Pending, t);
      InByStatus(tasks, InProgress, t);
      InByStatus(tasks, Completed, t);
    }
    forall t | t in ByStatus(tasks, InProgress)
      ensures t !in ByStatus(tasks, Completed)
    {
      InByStatus(tasks, InProgress, t);
      InByStatus(tasks, Completed, t);
    }
  }

  /** Whatever sits in a status column has that status. */
  lemma InByStatus(tasks: seq<Task>, s: Status, t: Task)
    ensures t in ByStatus(tasks, s) ==> t.status == s
  {
    if t in ByStatus(tasks, s) {
      var r := ByStatus(tasks, s);
      var i :| 0 <= i < |r| && r[i] == t;
    }
  }

  /** The add-task form, holding the task store it adds to. */
  class TaskForm {
    var form: Form
    var isAddingTask: bool
    const store: TaskStore

    constructor (store: TaskStore)
      ensures form == EmptyForm && !isAddingTask && this.store == store
    {
      form := EmptyForm;
      isAddingTask := false;
      this.store := store;
    }

    /** The "add task" button opens the form. */
    method Open()
      modifies this
      ensures isAddingTask && form == old(form)
    {
      isAddingTask := true;
    }

    /** The estimate field's `onChange`. */
    method SetEstimate(value: string)
      modifies this
      ensures form == old(form).(estimatedTime := EstimateInput(value)) && isAddingTask == old(isAddingTask)
    {
      form := form.(estimatedTime := EstimateInput(value));
    }

    /** `handleAddTask`: a title that trims to nothing changes nothing; otherwise
        the task is added with the title as typed, the form is reset and closed. */
    method HandleAddTask(freshId: string, now: int)
      modifies this, store
      ensures Trim(old(form.title)) == [] ==>
        form == old(form) && isAddingTask == old(isAddingTask) && store.tasks == old(store.tasks)
      ensures Trim(old(form.title)) != [] ==>
        store.tasks == old(store.tasks) + [NewTask(Draft(old(form)), freshId, now)]
        && form == EmptyForm && !isAddingTask
    {
      if Trim(form.title) != [] {
        store.AddTask(Draft(form), freshId, now);
        form := EmptyForm;
        isAddingTask := false;
      }
    }
  }
}
