/** The portfolio TaskManagerController, written against the week-7 TaskList interface it
    calls. Display numbers are 1-based; every operation reports `(success, message)` and
    catches its own errors. `datetime.now()` is a `now` parameter and the files the DAOs
    read and write are a Storage object. */
module TaskController {
  import opened Outcomes
  import opened PyText
  import opened PyLists
  import opened Calendar
  import opened Tasks
  import opened TaskViews
  import opened TaskFactory
  import opened TaskListWeek7
  import opened TaskDao

  /** The `(bool, str)` pair the operations return. */
  datatype Outcome = Outcome(success: bool, message: string)

  const InvalidNumber: string := "Invalid task number. Please try again."
  const NoDao: string := "No DAO configured for saving. Please load tasks first or specify DAO type."

  /** The DAO a type name selects: "test" in any case is the fixture, anything else CSV. */
  function DaoFor(path: string, daoType: string): (d: Dao)
    ensures d.storagePath == path
    ensures d.TestDao? <==> Lower(daoType) == "test"
  {
    if Lower(daoType) == "test" then TestDao(path) else CsvDao(path)
  }

  /** What a DAO's `get_all_tasks()` yields on these files: the fixture (which can overflow),
      or the rows of the CSV file, none if it is missing. */
  function DaoTasks(d: Dao, files: map<string, seq<Row>>, now: Instant): (r: Result<seq<TaskValue>>)
    ensures d.CsvDao? ==> r.Ok?
    ensures d.CsvDao? && d.storagePath !in files ==> r == Ok([])
  {
    match d
    case TestDao(_) => TestTasks(now)
    case CsvDao(path) => Ok(if path in files then LoadValues(files[path]) else [])
  }

  /** `dao.get_all_tasks()` for either DAO: new task objects holding DaoTasks. */
  method GetAllTasks(d: Dao, storage: Storage, now: Instant) returns (r: Result<seq<Task>>)
    ensures r.Ok? <==> DaoTasks(d, storage.files, now).Ok?
    ensures r.Err? ==> r.message == DaoTasks(d, storage.files, now).message
    ensures r.Ok? ==> Values(r.value) == DaoTasks(d, storage.files, now).value
    ensures r.Ok? ==> forall i :: 0 <= i < |r.value| ==> fresh(r.value[i])
  {
    if d.TestDao? {
      r := TestGetAllTasks(now);
    } else {
      var tasks := CsvGetAllTasks(d.storagePath, storage);
      r := Ok(tasks);
    }
  }

  /** The "(r regular, c recurring, p priority)" summary of some tasks. */
  function TypeSummary(ts: seq<Task>): string
    reads set t | t in ts
  {
    "(" + IntToString(Count(ts, OfType("Task"))) + " regular, "
    + IntToString(Count(ts, OfType("RecurringTask"))) + " recurring, "
    + IntToString(Count(ts, OfType("PriorityTask"))) + " priority)"
  }

  /** The message after a task is marked completed, from its new attributes. */
  function CompletionMessage(v: TaskValue): string {
    match v.variant
    case Priority(level) => Capitalize(PriorityString(level)) + " priority task '" + v.title + "' marked as completed."
    case Recurring(_, _) => "Recurring task '" + v.title + "' completed. Next due: " + FormatDate(v.dateDue)
    case Regular => "Task '" + v.title + "' marked as completed."
  }

  /** The priority names read capitalised in the completion message. */
  lemma CapitalizedLevels()
    ensures Capitalize(PriorityString(1)) == "Low"
    ensures Capitalize(PriorityString(2)) == "Medium"
    ensures Capitalize(PriorityString(3)) == "High"
  {
    PriorityMappingShape();
  }

  /** The message after a load: how many tasks, through which DAO, and of which classes. */
  function LoadedMessage(count: nat, daoType: string, summary: string): string {
    "Successfully loaded " + IntToString(count) + " tasks using " + Upper(daoType) + " DAO. " + summary
  }

  /** The message after a title change; it quotes the new title as given, not stripped. */
  function TitleUpdated(oldTitle: string, newTitle: string): string {
    "Task title updated from '" + oldTitle + "' to '" + newTitle + "'."
  }

  /** `after` is `before` with one more task at the end, holding `v`. */
  predicate AppendedOne(before: seq<Task>, after: seq<Task>, v: TaskValue)
    reads set t | t in after
  {
    |after| == |before| + 1 && after[..|before|] == before && after[|before|].Value() == v
  }

  class TaskManagerController {
    var taskList: TaskList
    var dao: Option<Dao>

    constructor (owner: string)
      ensures fresh(taskList) && taskList.owner == Title(owner) && taskList.tasks == []
      ensures dao == None
    {
      taskList := new TaskList(owner);
      dao := None;
    }

    /** Whether a display number names a task. */
    predicate ValidNumber(n: int)
      reads this, taskList
    {
      1 <= n <= |taskList.tasks|
    }

    /** `create_regular_task(title, due_date, description)`: always adds a plain task. */
    method CreateRegularTask(title: string, dueDate: Instant, description: string, now: Instant)
      returns (ok: bool)
      modifies taskList
      ensures ok && taskList.owner == old(taskList.owner)
      ensures AppendedOne(old(taskList.tasks), taskList.tasks, InitTask(title, dueDate, description, now))
      ensures fresh(taskList.tasks[|taskList.tasks| - 1])
    {
      var v := CreateTask(title, dueDate, Kwargs(Some(description), None, None), now);
      var task := new Task(v.value);
      taskList.AddTask(task);
      return true;
    }

    /** `create_recurring_task(title, due_date, interval_days, description)`: a day count
        `timedelta` refuses is the caught OverflowError, and nothing is added. */
    method CreateRecurringTask(title: string, dueDate: Instant, intervalDays: int, description: string,
                               now: Instant) returns (ok: bool)
      modifies taskList
      ensures taskList.owner == old(taskList.owner)
      ensures ok <==> FromDays(intervalDays).Some?
      ensures !ok ==> taskList.tasks == old(taskList.tasks)
      ensures ok ==> AppendedOne(old(taskList.tasks), taskList.tasks,
                                 InitRecurringTask(title, dueDate, FromDays(intervalDays).value, description, now))
      ensures ok ==> fresh(taskList.tasks[|taskList.tasks| - 1])
    {
      var interval := FromDays(intervalDays);
      if interval.None? {
        return false;
      }
      var v := CreateTask(title, dueDate, Kwargs(Some(description), Some(interval.value), None), now);
      var task := new Task(v.value);
      taskList.AddTask(task);
      return true;
    }

    /** `create_priority_task(title, due_date, priority_level, description)`: a level outside
        1..3 is the caught ValueError, and nothing is added. */
    method CreatePriorityTask(title: string, dueDate: Instant, level: int, description: string, now: Instant)
      returns (ok: bool)
      modifies taskList
      ensures taskList.owner == old(taskList.owner)
      ensures ok <==> IsValidLevel(level)
      ensures !ok ==> taskList.tasks == old(taskList.tasks)
      ensures ok ==> AppendedOne(old(taskList.tasks), taskList.tasks,
                                 InitPriorityTask(title, dueDate, level, description, now).value)
      ensures ok ==> fresh(taskList.tasks[|taskList.tasks| - 1])
    {
      var v := CreateTask(title, dueDate, Kwargs(Some(description), None, Some(level)), now);
      if v.Err? {
        return false;
      }
      var task := new Task(v.value);
      taskList.AddTask(task);
      return true;
    }

    /** `get_overdue_tasks()`: the tasks due before `now` and not completed, in list order. */
    method GetOverdueTasks(now: Instant) returns (overdue: seq<Task>)
      ensures overdue == Filter(taskList.tasks, OverdueAt(now))
    {
      overdue := [];
      var tasks := taskList.tasks;
      var i := 0;
      while i < |tasks|
        invariant 0 <= i <= |tasks|
        invariant overdue == Filter(tasks[..i], OverdueAt(now))
      {
        assert tasks[..i + 1] == tasks[..i] + [tasks[i]];
        FilterAppend(tasks[..i], [tasks[i]], OverdueAt(now));
        FilterSingleton(tasks[i], OverdueAt(now));
        if tasks[i].dateDue < now && !tasks[i].completed {
          overdue := overdue + [tasks[i]];
        }
        i := i + 1;
      }
      assert tasks[..i] == tasks;
    }

    /** `get_task_by_number(n)`: task `n - 1`, or None out of range. */
    function GetTaskByNumber(n: int): (r: Option<Task>)
      reads this, taskList
      ensures r.Some? <==> ValidNumber(n)
      ensures r.Some? ==> r.value == taskList.tasks[n - 1]
    {
      if taskList.CheckTaskIndex(n - 1) then Some(taskList.GetTask(n - 1).value) else None
    }

    /** `mark_task_completed(n)`: the task's `mark_as_completed()`, reported by its class; a
        recurring task whose next due date overflows keeps the appended date and reports the
        error. */
    method MarkTaskCompleted(n: int, now: Instant) returns (r: Outcome)
      modifies if 1 <= n <= |taskList.tasks| then {taskList.tasks[n - 1]} else {}
      ensures taskList.tasks == old(taskList.tasks)
      ensures !ValidNumber(n) ==> r == Outcome(false, InvalidNumber)
      ensures ValidNumber(n) ==>
        var c := Complete(old(taskList.tasks[n - 1].Value()), now);
        && taskList.tasks[n - 1].Value() == c.task
        && (c.error.Some? ==> r == Outcome(false, "Error marking task as completed: " + c.error.value))
        && (c.error.None? ==> r == Outcome(true, CompletionMessage(c.task)))
    {
      if !taskList.CheckTaskIndex(n - 1) {
        return Outcome(false, InvalidNumber);
      }
      var task := taskList.tasks[n - 1];
      var err := task.MarkAsCompleted(now);
      if err.Some? {
        return Outcome(false, "Error marking task as completed: " + err.value);
      }
      if task.variant.Priority? {
        return Outcome(true, Capitalize(task.GetPriorityString()) + " priority task '" + task.title
                             + "' marked as completed.");
      } else if task.variant.Recurring? {
        return Outcome(true, "Recurring task '" + task.title + "' completed. Next due: " + FormatDate(task.dateDue));
      }
      return Outcome(true, "Task '" + task.title + "' marked as completed.");
    }

    /** `remove_task(n)`: deletes exactly task `n - 1`, keeping the others in order. */
    method RemoveTask(n: int) returns (r: Outcome)
      modifies taskList
      ensures taskList.owner == old(taskList.owner)
      ensures !old(ValidNumber(n)) ==> r == Outcome(false, InvalidNumber) && taskList.tasks == old(taskList.tasks)
      ensures old(ValidNumber(n)) ==>
        && taskList.tasks == Delete(old(taskList.tasks), n - 1)
        && r == Outcome(true, TaskType(old(taskList.tasks[n - 1].variant)) + " '" + old(taskList.tasks[n - 1].title)
                              + "' removed successfully.")
    {
      if !taskList.CheckTaskIndex(n - 1) {
        return Outcome(false, InvalidNumber);
      }
      var task := taskList.tasks[n - 1];
      var title, taskType := task.title, task.GetTaskType();
      var _ := taskList.RemoveTask(n - 1);
      return Outcome(true, taskType + " '" + title + "' removed successfully.");
    }

    /** `edit_task_title(n, new_title)`: the message quotes the title as given, while the
        task stores it stripped; a blank title is the caught ValueError. */
    method EditTaskTitle(n: int, newTitle: string) returns (r: Outcome)
      modifies if 1 <= n <= |taskList.tasks| then {taskList.tasks[n - 1]} else {}
      ensures taskList.tasks == old(taskList.tasks)
      ensures !ValidNumber(n) ==> r == Outcome(false, InvalidNumber)
      ensures ValidNumber(n) && AllSpace(newTitle) ==>
        && r == Outcome(false, "Error editing task title: " + EmptyTitle)
        && taskList.tasks[n - 1].Value() == old(taskList.tasks[n - 1].Value())
      ensures ValidNumber(n) && !AllSpace(newTitle) ==>
        && r == Outcome(true, TitleUpdated(old(taskList.tasks[n - 1].title), newTitle))
        && taskList.tasks[n - 1].Value() == old(taskList.tasks[n - 1].Value()).(title := Strip(newTitle))
    {
      if !taskList.CheckTaskIndex(n - 1) {
        return Outcome(false, InvalidNumber);
      }
      var task := taskList.tasks[n - 1];
      var oldTitle := task.title;
      var err := task.ChangeTitle(newTitle);
      if err.Some? {
        return Outcome(false, "Error editing task title: " + err.value);
      }
      return Outcome(true, TitleUpdated(oldTitle, newTitle));
    }

    /** `edit_task_date(n, new_date)`: always stores the date, past or not. */
    method EditTaskDate(n: int, newDate: Instant, now: Instant) returns (r: Outcome)
      modifies if 1 <= n <= |taskList.tasks| then {taskList.tasks[n - 1]} else {}
      ensures taskList.tasks == old(taskList.tasks)
      ensures !ValidNumber(n) ==> r == Outcome(false, InvalidNumber)
      ensures ValidNumber(n) ==>
        && taskList.tasks[n - 1].Value() == old(taskList.tasks[n - 1].Value()).(dateDue := newDate)
        && r == Outcome(true, "Task due date updated from " + FormatDate(old(taskList.tasks[n - 1].dateDue))
                              + " to " + FormatDate(newDate) + ".")
    {
      if !taskList.CheckTaskIndex(n - 1) {
        return Outcome(false, InvalidNumber);
      }
      var task := taskList.tasks[n - 1];
      var oldDate := task.dateDue;
      var _ := task.ChangeDate(newDate, now);
      return Outcome(true, "Task due date updated from " + FormatDate(oldDate) + " to " + FormatDate(newDate) + ".");
    }

    /** `edit_task_description(n, new_description)`. */
    method EditTaskDescription(n: int, newDescription: string) returns (r: Outcome)
      modifies if 1 <= n <= |taskList.tasks| then {taskList.tasks[n - 1]} else {}
      ensures taskList.tasks == old(taskList.tasks)
      ensures !ValidNumber(n) ==> r == Outcome(false, InvalidNumber)
      ensures ValidNumber(n) ==>
        && taskList.tasks[n - 1].Value() == old(taskList.tasks[n - 1].Value()).(description := newDescription)
        && r == Outcome(true, "Task description updated.")
    {
      if !taskList.CheckTaskIndex(n - 1) {
        return Outcome(false, InvalidNumber);
      }
      var task := taskList.tasks[n - 1];
      task.ChangeDescription(newDescription);
      return Outcome(true, "Task description updated.");
    }

    /** `edit_task_priority(n, new_priority)`: only for a priority task, and only to a level
        in 1..3; otherwise the task keeps its level. */
    method EditTaskPriority(n: int, newPriority: int) returns (r: Outcome)
      modifies if 1 <= n <= |taskList.tasks| then {taskList.tasks[n - 1]} else {}
      ensures taskList.tasks == old(taskList.tasks)
      ensures !ValidNumber(n) ==> r == Outcome(false, InvalidNumber)
      ensures ValidNumber(n) && !old(taskList.tasks[n - 1].variant).Priority? ==>
        && r == Outcome(false, "Selected task is not a priority task.")
        && taskList.tasks[n - 1].Value() == old(taskList.tasks[n - 1].Value())
      ensures ValidNumber(n) && old(taskList.tasks[n - 1].variant).Priority? && !IsValidLevel(newPriority) ==>
        && r == Outcome(false, "Error editing task priority: " + PriorityError(newPriority))
        && taskList.tasks[n - 1].Value() == old(taskList.tasks[n - 1].Value())
      ensures ValidNumber(n) && old(taskList.tasks[n - 1].variant).Priority? && IsValidLevel(newPriority) ==>
        && r == Outcome(true, "Task priority updated from " + PriorityString(old(taskList.tasks[n - 1].variant).level)
                              + " to " + PriorityString(newPriority) + ".")
        && taskList.tasks[n - 1].Value() == old(taskList.tasks[n - 1].Value()).(variant := Priority(newPriority))
    {
      if !taskList.CheckTaskIndex(n - 1) {
        return Outcome(false, InvalidNumber);
      }
      var task := taskList.tasks[n - 1];
      if !task.variant.Priority? {
        return Outcome(false, "Selected task is not a priority task.");
      }
      var oldPriority := task.GetPriorityString();
      var err := task.SetPriorityLevel(newPriority);
      if err.Some? {
        return Outcome(false, "Error editing task priority: " + err.value);
      }
      return Outcome(true, "Task priority updated from " + oldPriority + " to " + task.GetPriorityString() + ".");
    }

    /** `load_tasks_from_dao(file_path, dao_type)`: remembers the DAO, then appends what it
        loads after the tasks already in the list, in loaded order. Only the fixture can
        fail, with its OverflowError; the CSV DAO swallows its own errors. */
    method LoadTasksFromDao(filePath: string, daoType: string, storage: Storage, now: Instant)
      returns (r: Outcome, ghost added: seq<Task>)
      modifies this, taskList
      ensures taskList == old(taskList) && taskList.owner == old(taskList.owner)
      ensures dao == Some(DaoFor(filePath, daoType))
      ensures var loaded := DaoTasks(DaoFor(filePath, daoType), storage.files, now);
        && (r.success <==> loaded.Ok?)
        && (loaded.Err? ==> r.message == "Error loading tasks: " + loaded.message && taskList.tasks == old(taskList.tasks))
        && (loaded.Ok? ==>
              && taskList.tasks == old(taskList.tasks) + added
              && Values(added) == loaded.value
              && r.message == LoadedMessage(|added|, daoType, TypeSummary(added)))
      ensures forall t :: t in added ==> fresh(t)
    {
      added := [];
      var d := DaoFor(filePath, daoType);
      dao := Some(d);
      var fetched := GetAllTasks(d, storage, now);
      if fetched.Err? {
        return Outcome(false, "Error loading tasks: " + fetched.message), added;
      }
      var loaded := fetched.value;
      AddAll(loaded);
      added := loaded;
      return Outcome(true, LoadedMessage(|loaded|, daoType, TypeSummary(loaded))), added;
    }

    /** The loop of `load_tasks_from_dao` that adds each loaded task in turn. */
    method AddAll(loaded: seq<Task>)
      modifies taskList
      ensures taskList.tasks == old(taskList.tasks) + loaded && taskList.owner == old(taskList.owner)
      ensures Values(loaded) == old(Values(loaded))
    {
      var i := 0;
      while i < |loaded|
        invariant 0 <= i <= |loaded|
        invariant taskList.tasks == old(taskList.tasks) + loaded[..i]
        invariant taskList.owner == old(taskList.owner)
      {
        assert loaded[..i + 1] == loaded[..i] + [loaded[i]];
        taskList.AddTask(loaded[i]);
        i := i + 1;
      }
      assert loaded[..i] == loaded;
    }

    /** `save_tasks_to_dao(file_path, dao_type)`: with no DAO yet, a non-empty path and type
        choose one (an omitted argument is the empty text); with still none it fails.
        The CSV DAO rewrites its file; the fixture writes nothing. */
    method SaveTasksToDao(filePath: string, daoType: string, storage: Storage) returns (r: Outcome)
      modifies this, storage
      ensures taskList == old(taskList)
      ensures dao == if old(dao).None? && filePath != "" && daoType != "" then Some(DaoFor(filePath, daoType))
                     else old(dao)
      ensures dao.None? ==> r == Outcome(false, NoDao) && storage.files == old(storage.files)
      ensures dao.Some? ==> r == Outcome(true, "Tasks saved successfully. " + TypeSummary(taskList.tasks))
      ensures dao.Some? && dao.value.CsvDao? ==>
        storage.files == old(storage.files)[dao.value.storagePath := EncodeRows(Values(taskList.tasks))]
      ensures dao.Some? && dao.value.TestDao? ==> storage.files == old(storage.files)
    {
      if dao.None? && filePath != "" && daoType != "" {
        dao := Some(DaoFor(filePath, daoType));
      }
      if dao.None? {
        return Outcome(false, NoDao);
      }
      if dao.value.CsvDao? {
        CsvSaveAllTasks(dao.value.storagePath, taskList.tasks, storage);
      }
      return Outcome(true, "Tasks saved successfully. " + TypeSummary(taskList.tasks));
    }

    /** `get_task_count()`. */
    function GetTaskCount(now: Instant): (c: TaskCounts)
      reads this, taskList, set t | t in taskList.tasks
      ensures c.total == |taskList.tasks| && c.uncompleted == |taskList.UncompletedTasks()|
      ensures c.overdue == |Filter(taskList.tasks, OverdueAt(now))|
      ensures c.completed == c.total - c.uncompleted
      ensures c.regular + c.recurring + c.priority == c.total
      ensures c.highPriority + c.mediumPriority + c.lowPriority == c.priority
      ensures c.overdue <= c.uncompleted
    {
      CountTasks(taskList.tasks, now)
    }
  }

  /** Loading the CSV file a save just wrote appends the saved tasks, truncated to whole days. */
  lemma SaveThenLoad(files: map<string, seq<Row>>, path: string, vs: seq<TaskValue>, now: Instant)
    ensures DaoTasks(CsvDao(path), files[path := EncodeRows(vs)], now) == Ok(TruncateAll(vs))
  {
    SaveLoadRoundTrip(vs);
  }
}
