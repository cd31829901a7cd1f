/** The week-8 abstract-class version of the to-do model: a plain Task and a RecurringTask
    with no description, no title validation and no priority, and a DAO that keeps the
    tasks in memory. `datetime.now()` is a `now` parameter. */
module Week8Tasks {
  import opened Outcomes
  import opened Calendar

  /** Which concrete class a task object is, with RecurringTask's own attributes. */
  datatype Kind =
    | Plain
    | Repeating(interval: Duration, completedDates: seq<Instant>)

  /** The attributes of one task object at one moment. */
  datatype TaskState = TaskState(
    title: string,
    dateDue: Instant,
    completed: bool,
    dateCreated: Instant,
    kind: Kind)

  /** What every object of these classes satisfies: no method ever sets `completed` on a
      recurring task. */
  predicate Valid(v: TaskState) {
    v.kind.Repeating? ==> !v.completed
  }

  /** `is_overdue()`: past due and not completed. */
  predicate Overdue(v: TaskState, now: Instant) {
    now > v.dateDue && !v.completed
  }

  /** The attributes after `mark_as_completed()`, and the OverflowError it may raise. */
  datatype Marked = Marked(state: TaskState, error: Option<string>)

  /** `mark_as_completed()`. Task sets `completed`. RecurringTask appends `now` to its
      completion dates and then moves the due date on by its interval; when that addition
      overflows, the date has already been appended. */
  function Mark(v: TaskState, now: Instant): (r: Marked)
    ensures r.state.title == v.title && r.state.dateCreated == v.dateCreated
    ensures r.state.kind.Repeating? == v.kind.Repeating?
    ensures r.error.Some? ==> v.kind.Repeating?
  {
    match v.kind
    case Plain => Marked(v.(completed := true), None)
    case Repeating(interval, dates) =>
      var appended := v.(kind := Repeating(interval, dates + [now]));
      (match Add(v.dateDue, interval)
       case Ok(next) => Marked(appended.(dateDue := next), None)
       case Err(e) => Marked(appended, Some(e)))
  }

  /** Marking a plain task latches `completed`; doing it again changes nothing, and a
      completed task is never overdue. */
  lemma MarkPlain(v: TaskState, now: Instant, later: Instant)
    requires v.kind.Plain?
    ensures Mark(v, now) == Marked(v.(completed := true), None)
    ensures Mark(Mark(v, now).state, later).state == Mark(v, now).state
    ensures !Overdue(Mark(v, now).state, later)
  {
  }

  /** Marking a recurring task records exactly one more date and moves the due date on by
      the interval; `completed` stays as it was. */
  lemma MarkRepeating(v: TaskState, now: Instant)
    requires v.kind.Repeating?
    ensures var r := Mark(v, now);
      && r.state.completed == v.completed
      && r.state.kind == Repeating(v.kind.interval, v.kind.completedDates + [now])
      && (r.error.None? <==> 0 <= v.dateDue + v.kind.interval < MaxOrdinal * SecondsPerDay)
      && r.state.dateDue == (if r.error.None? then v.dateDue + v.kind.interval else v.dateDue)
  {
  }

  /** Marking keeps the invariant, so a recurring task is overdue exactly when its (moved)
      due date has passed, however often it has been marked. */
  lemma MarkKeepsValid(v: TaskState, now: Instant, later: Instant)
    requires Valid(v)
    ensures Valid(Mark(v, now).state)
    ensures v.kind.Repeating? ==> (Overdue(Mark(v, now).state, later) <==> later > Mark(v, now).state.dateDue)
  {
  }

  /** A task object; `kind` is its class. */
  class Task {
    var title: string
    var dateDue: Instant
    var completed: bool
    var dateCreated: Instant
    var kind: Kind

    function Value(): TaskState
      reads this
    {
      TaskState(title, dateDue, completed, dateCreated, kind)
    }

    /** `Task(title, date_due)`: uncompleted, created now. */
    constructor (title: string, dateDue: Instant, now: Instant)
      ensures Value() == TaskState(title, dateDue, false, now, Plain) && Valid(Value())
    {
      this.title, this.dateDue, completed, dateCreated, kind := title, dateDue, false, now, Plain;
    }

    /** `RecurringTask(title, date_due, interval)`: no completion dates yet. */
    constructor Recurring(title: string, dateDue: Instant, interval: Duration, now: Instant)
      ensures Value() == TaskState(title, dateDue, false, now, Repeating(interval, [])) && Valid(Value())
    {
      this.title, this.dateDue, completed, dateCreated := title, dateDue, false, now;
      kind := Repeating(interval, []);
    }

    /** `get_task_type()`. */
    function GetTaskType(): (s: string)
      reads this
      ensures s == "Task" <==> kind.Plain?
      ensures s == "RecurringTask" <==> kind.Repeating?
    {
      if kind.Plain? then "Task" else "RecurringTask"
    }

    /** `change_title(new_title)`: stored as given, blank or not. */
    method ChangeTitle(newTitle: string)
      modifies this
      ensures Value() == old(Value()).(title := newTitle)
      ensures Valid(old(Value())) ==> Valid(Value())
    {
      title := newTitle;
    }

    /** `change_date(new_date)`: stored as given, past or not. */
    method ChangeDate(newDate: Instant)
      modifies this
      ensures Value() == old(Value()).(dateDue := newDate)
      ensures Valid(old(Value())) ==> Valid(Value())
    {
      dateDue := newDate;
    }

    /** `is_overdue()`. */
    function IsOverdue(now: Instant): (r: bool)
      reads this
      ensures r <==> Overdue(Value(), now)
    {
      now > dateDue && !completed
    }

    /** `mark_as_completed()`; `err` is the OverflowError a recurring task can raise. */
    method MarkAsCompleted(now: Instant) returns (err: Option<string>)
      modifies this
      ensures Marked(Value(), err) == Mark(old(Value()), now)
      ensures Valid(old(Value())) ==> Valid(Value())
    {
      match kind {
        case Plain =>
          completed := true;
          return None;
        case Repeating(interval, dates) =>
          kind := Repeating(interval, dates + [now]);
          var next := Add(dateDue, interval);
          if next.Err? {
            return Some(next.message);
          }
          dateDue := next.value;
          return None;
      }
    }
  }

  /** A Python list of tasks: an object that whoever holds it can go on changing. */
  class TaskListObject {
    var items: seq<Task>

    constructor (items: seq<Task>)
      ensures this.items == items
    {
      this.items := items;
    }

    /** `list.append(task)`. */
    method Append(task: Task)
      modifies this
      ensures items == old(items) + [task]
    {
      items := items + [task];
    }
  }

  /** TaskMemoryDAO: the tasks are kept in memory, in a list no caller holds. */
  class TaskMemoryDao {
    var storagePath: string
    var memoryStorage: seq<Task>

    /** `TaskMemoryDAO(storage_path="memory")`: nothing stored yet. */
    constructor (storagePath: string)
      ensures this.storagePath == storagePath && memoryStorage == []
    {
      this.storagePath := storagePath;
      memoryStorage := [];
    }

    /** `get_storage_info()`. */
    function GetStorageInfo(): string
      reads this
    {
      "TaskMemoryDAO using: " + storagePath
    }

    /** `get_all_tasks()`: a new list holding the stored tasks (the task objects themselves
        are shared, the copy is shallow). */
    method GetAllTasks() returns (r: TaskListObject)
      ensures fresh(r) && r.items == memoryStorage
    {
      r := new TaskListObject(memoryStorage);
    }

    /** `save_all_tasks(tasks)`: stores what the list holds now, not the list itself. */
    method SaveAllTasks(tasks: TaskListObject)
      modifies this
      ensures memoryStorage == tasks.items && storagePath == old(storagePath)
    {
      memoryStorage := tasks.items;
    }
  }

  /** The copies at both ends: after a save, appending to the caller's list or to a list
      returned by `get_all_tasks()` leaves what the DAO returns next unchanged. */
  method CopiesIsolate(dao: TaskMemoryDao, caller: TaskListObject, extra: Task)
    returns (first: TaskListObject, second: TaskListObject)
    modifies dao, caller
    ensures caller.items == old(caller.items) + [extra]
    ensures first.items == old(caller.items) + [extra] && first != caller
    ensures second.items == old(caller.items) && dao.memoryStorage == old(caller.items)
  {
    dao.SaveAllTasks(caller);
    caller.Append(extra);
    first := dao.GetAllTasks();
    first.Append(extra);
    second := dao.GetAllTasks();
  }
}
