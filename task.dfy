/** The portfolio task hierarchy (AbstractTask, Task, RecurringTask, PriorityTask).

    The three Python classes become one class whose `variant` field records which class
    the object is and holds that class's own attributes; every method keeps the variant's
    constructor, so an object never changes class. `datetime.now()` is a `now` parameter. */
module Tasks {
  import opened Outcomes
  import opened PyText
  import opened Calendar

  /** A key of PRIORITY_MAPPING. */
  type Level = n: int | 1 <= n <= 3 witness 1

  /** PriorityTask.PRIORITY_MAPPING. */
  const PriorityMapping: map<int, string> := map[1 := "low", 2 := "medium", 3 := "high"]

  /** `PriorityTask.get_valid_priority_levels()`. */
  const ValidPriorityLevels: seq<int> := [1, 2, 3]

  /** What `priority_level not in self.PRIORITY_MAPPING` refuses. */
  predicate IsValidLevel(n: int) {
    n in PriorityMapping
  }

  /** The ValueError raised for a priority level outside the mapping. */
  function PriorityError(n: int): string {
    "Priority level must be one of [1, 2, 3], got " + IntToString(n)
  }

  /** `get_priority_string()`: the mapping's name for a level. */
  function PriorityString(level: Level): (s: string)
    ensures s == PriorityMapping[level]
  {
    if level == 1 then "low" else if level == 2 then "medium" else "high"
  }

  /** The valid levels are exactly 1, 2 and 3, each with its own name. */
  lemma PriorityMappingShape()
    ensures forall n :: IsValidLevel(n) <==> n in ValidPriorityLevels
    ensures forall n :: IsValidLevel(n) <==> 1 <= n <= 3
    ensures PriorityString(1) == "low" && PriorityString(2) == "medium" && PriorityString(3) == "high"
    ensures forall a: Level, b: Level :: PriorityString(a) == PriorityString(b) ==> a == b
  {
  }

  /** Which class a task object is, with the attributes only that class has. */
  datatype Variant =
    | Regular
    | Recurring(interval: Duration, completedDates: seq<Instant>)
    | Priority(level: Level)

  /** `get_task_type()`. */
  function TaskType(v: Variant): (s: string)
    ensures s in ["Task", "RecurringTask", "PriorityTask"]
  {
    match v
    case Regular => "Task"
    case Recurring(_, _) => "RecurringTask"
    case Priority(_) => "PriorityTask"
  }

  /** The type tag tells the variants apart. */
  lemma TaskTypeInjective(a: Variant, b: Variant)
    ensures TaskType(a) == TaskType(b) <==> a.Regular? == b.Regular? && a.Recurring? == b.Recurring?
  {
  }

  /** The ValueError `change_title` raises for a blank title. */
  const EmptyTitle: string := "Task title cannot be empty"

  /** The attributes of one task object at one moment. */
  datatype TaskValue = TaskValue(
    title: string,
    dateDue: Instant,
    completed: bool,
    dateCreated: Instant,
    description: string,
    variant: Variant)

  /** `Task(title, date_due, description)`: a regular task created at `now`. */
  function InitTask(title: string, dateDue: Instant, description: string, now: Instant): (v: TaskValue)
    ensures v.variant.Regular?
    ensures v.title == title && v.dateDue == dateDue && v.description == description
    ensures !v.completed && v.dateCreated == now
  {
    TaskValue(title, dateDue, false, now, description, Regular)
  }

  /** `RecurringTask(title, date_due, interval, description)`: no completion dates yet. */
  function InitRecurringTask(title: string, dateDue: Instant, interval: Duration, description: string,
                             now: Instant): (v: TaskValue)
    ensures v.variant.Recurring? && v.variant.completedDates == []
  {
    TaskValue(title, dateDue, false, now, description, Recurring(interval, []))
  }

  /** `PriorityTask(title, date_due, priority_level, description)`; the ValueError for a level
      outside the mapping is returned instead of raised. */
  function InitPriorityTask(title: string, dateDue: Instant, level: int, description: string,
                            now: Instant): (r: Result<TaskValue>)
    ensures r.Ok? <==> IsValidLevel(level)
    ensures r.Ok? ==> r.value.variant == Priority(level)
  {
    if IsValidLevel(level) then Ok(TaskValue(title, dateDue, false, now, description, Priority(level)))
    else Err(PriorityError(level))
  }

  /** Every constructor starts a task uncompleted, created now, with the given fields. */
  lemma InitStartsOpen(title: string, dateDue: Instant, interval: Duration, level: int,
                       description: string, now: Instant)
    ensures forall v :: v in InitValues(title, dateDue, interval, level, description, now) ==>
      !v.completed && v.dateCreated == now && v.title == title && v.dateDue == dateDue
      && v.description == description
  {
  }

  /** The tasks the three constructors can build from the same arguments. */
  function InitValues(title: string, dateDue: Instant, interval: Duration, level: int,
                      description: string, now: Instant): set<TaskValue>
  {
    var p := InitPriorityTask(title, dateDue, level, description, now);
    {InitTask(title, dateDue, description, now), InitRecurringTask(title, dateDue, interval, description, now)}
    + (if p.Ok? then {p.value} else {})
  }

  /** The result of `mark_as_completed()`: the new attributes, and the exception, if any. */
  datatype Completion = Completion(task: TaskValue, error: Option<string>)

  /** `mark_as_completed()`. Task and PriorityTask set `completed`. RecurringTask appends `now`
      to its completion dates and then moves the due date on by its interval, leaving
      `completed` alone; when that addition overflows, the date has already been appended. */
  function Complete(v: TaskValue, now: Instant): (r: Completion)
    ensures r.task.title == v.title && r.task.dateCreated == v.dateCreated
    ensures r.task.description == v.description
    ensures r.error.Some? ==> v.variant.Recurring?
  {
    match v.variant
    case Recurring(interval, dates) =>
      var appended := v.(variant := Recurring(interval, dates + [now]));
      (match Add(v.dateDue, interval)
       case Ok(next) => Completion(appended.(dateDue := next), None)
       case Err(e) => Completion(appended, Some(e)))
    case _ => Completion(v.(completed := true), None)
  }

  /** Completing a plain or priority task latches `completed`, and doing it again changes nothing. */
  lemma CompleteLatches(v: TaskValue, now: Instant, later: Instant)
    requires !v.variant.Recurring?
    ensures Complete(v, now).task.completed && Complete(v, now).error.None?
    ensures Complete(v, now).task == v.(completed := true)
    ensures Complete(Complete(v, now).task, later).task == Complete(v, now).task
  {
  }

  /** Completing a recurring task records exactly one more date, moves the due date on by the
      interval, and never touches `completed`. */
  lemma CompleteRecurring(v: TaskValue, now: Instant)
    requires v.variant.Recurring?
    ensures var r := Complete(v, now);
      && r.task.completed == v.completed
      && r.task.variant.Recurring? && r.task.variant.interval == v.variant.interval
      && r.task.variant.completedDates == v.variant.completedDates + [now]
      && (r.error.None? <==> Add(v.dateDue, v.variant.interval).Ok?)
      && r.task.dateDue == (if r.error.None? then v.dateDue + v.variant.interval else v.dateDue)
  {
  }

  /** Completing twice is not idempotent for a recurring task: two dates, two intervals. */
  lemma CompleteRecurringTwice(v: TaskValue, now1: Instant, now2: Instant)
    requires v.variant.Recurring?
    requires 0 <= v.dateDue + 2 * v.variant.interval < MaxOrdinal * SecondsPerDay
    requires 0 <= v.dateDue + v.variant.interval < MaxOrdinal * SecondsPerDay
    ensures var r := Complete(Complete(v, now1).task, now2);
      && r.error.None?
      && r.task.dateDue == v.dateDue + 2 * v.variant.interval
      && r.task.variant.completedDates == v.variant.completedDates + [now1, now2]
  {
    var once := Complete(v, now1);
    CompleteRecurring(v, now1);
    CompleteRecurring(once.task, now2);
    assert v.variant.completedDates + [now1] + [now2] == v.variant.completedDates + [now1, now2];
  }

  /** `is_overdue()`: past due and not completed. */
  function Overdue(v: TaskValue, now: Instant): bool {
    now > v.dateDue && !v.completed
  }

  /** A task object; its fields are the Python attributes, `variant` is its class. */
  class Task {
    var title: string
    var dateDue: Instant
    var completed: bool
    var dateCreated: Instant
    var description: string
    var variant: Variant

    function Value(): TaskValue
      reads this
    {
      TaskValue(title, dateDue, completed, dateCreated, description, variant)
    }

    /** Allocates the object the Python constructors build (see InitTask and its siblings). */
    constructor (v: TaskValue)
      ensures Value() == v
    {
      title, dateDue, completed := v.title, v.dateDue, v.completed;
      dateCreated, description, variant := v.dateCreated, v.description, v.variant;
    }

    /** `get_task_type()`. */
    function GetTaskType(): string
      reads this
    {
      TaskType(variant)
    }

    /** `change_title(new_title)`: refuses a title that is empty after stripping (the
        ValueError is returned) and otherwise stores the stripped title. */
    method ChangeTitle(newTitle: string) returns (err: Option<string>)
      modifies this
      ensures err.Some? <==> AllSpace(newTitle)
      ensures err.Some? ==> err.value == EmptyTitle && Value() == old(Value())
      ensures err.None? ==> Value() == old(Value()).(title := Strip(newTitle)) && title != []
    {
      var stripped := Strip(newTitle);
      if stripped == [] {
        return Some(EmptyTitle);
      }
      title := stripped;
      return None;
    }

    /** `change_date(new_date)`: always stores the date; `pastWarning` is the warning printed
        when the new date lies before `now`. */
    method ChangeDate(newDate: Instant, now: Instant) returns (pastWarning: bool)
      modifies this
      ensures Value() == old(Value()).(dateDue := newDate)
      ensures pastWarning <==> newDate < now
    {
      pastWarning := newDate < now;
      dateDue := newDate;
    }

    /** `change_description(new_description)`: always stores it. */
    method ChangeDescription(newDescription: string)
      modifies this
      ensures Value() == old(Value()).(description := newDescription)
    {
      description := newDescription;
    }

    /** `is_overdue()`. */
    function IsOverdue(now: Instant): (r: bool)
      reads this
      ensures r <==> Overdue(Value(), now)
    {
      now > dateDue && !completed
    }

    /** `days_until_due()`: `(date_due - now).days`, rounded towards minus infinity. */
    function DaysUntilDue(now: Instant): (n: int)
      reads this
      ensures n * SecondsPerDay <= dateDue - now < (n + 1) * SecondsPerDay
    {
      (dateDue - now) / SecondsPerDay
    }

    /** `mark_as_completed()`; `err` is the OverflowError a recurring task can raise. */
    method MarkAsCompleted(now: Instant) returns (err: Option<string>)
      modifies this
      ensures Completion(Value(), err) == Complete(old(Value()), now)
    {
      match variant {
        case Recurring(interval, dates) =>
          variant := Recurring(interval, dates + [now]);
          var next := Add(dateDue, interval);
          if next.Err? {
            return Some(next.message);
          }
          dateDue := next.value;
          return None;
        case _ =>
          completed := true;
          return None;
      }
    }

    /** `get_priority_string()` of a PriorityTask. */
    function GetPriorityString(): string
      reads this
      requires variant.Priority?
    {
      PriorityString(variant.level)
    }

    /** The `priority_level` setter of a PriorityTask: a level outside the mapping is
        refused with the ValueError and the old level kept. */
    method SetPriorityLevel(value: int) returns (err: Option<string>)
      requires variant.Priority?
      modifies this
      ensures err.None? <==> IsValidLevel(value)
      ensures err.Some? ==> err.value == PriorityError(value) && Value() == old(Value())
      ensures err.None? ==> Value() == old(Value()).(variant := Priority(value))
    {
      if !IsValidLevel(value) {
        return Some(PriorityError(value));
      }
      variant := Priority(value);
      return None;
    }
  }

  /** The attributes of every task in a list, in order. */
  function Values(ts: seq<Task>): (vs: seq<TaskValue>)
    reads set t | t in ts
    ensures |vs| == |ts| && forall i :: 0 <= i < |ts| ==> vs[i] == ts[i].Value()
  {
    seq(|ts|, i reads set t | t in ts requires 0 <= i < |ts| => ts[i].Value())
  }
}
