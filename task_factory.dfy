/** TaskFactory: builds the right kind of task from keyword arguments or an explicit type
    name, and describes and validates the parameters each type needs. */
module TaskFactory {
  import opened Outcomes
  import opened PyText
  import opened Calendar
  import opened Tasks

  /** The keyword arguments the factory looks at; a keyword not passed is None. */
  datatype Kwargs = Kwargs(description: Option<string>, interval: Option<Duration>, priorityLevel: Option<int>)

  /** The keys of the `**kwargs` dictionary. */
  function Names(kw: Kwargs): (names: set<string>)
    ensures "description" in names <==> kw.description.Some?
    ensures "interval" in names <==> kw.interval.Some?
    ensures "priority_level" in names <==> kw.priorityLevel.Some?
    ensures names <= {"description", "interval", "priority_level"}
  {
    (if kw.description.Some? then {"description"} else {})
    + (if kw.interval.Some? then {"interval"} else {})
    + (if kw.priorityLevel.Some? then {"priority_level"} else {})
  }

  /** `kwargs.get("description", "")`. */
  function DescriptionOf(kw: Kwargs): string {
    if kw.description.Some? then kw.description.value else ""
  }

  /** `get_supported_task_types()`. */
  const SupportedTaskTypes: seq<string> := ["Task", "RecurringTask", "PriorityTask"]

  /** Python's `repr` of a list of strings, as an f-string prints it. */
  function ReprList(xs: seq<string>): (s: string)
    ensures |s| >= 2 && s[0] == '[' && s[|s| - 1] == ']'
  {
    "[" + ReprItems(xs) + "]"
  }

  /** The list of valid types in the unknown-type message reads exactly as Python prints it. */
  lemma SupportedTypesRepr()
    ensures ReprList(SupportedTaskTypes) == "['Task', 'RecurringTask', 'PriorityTask']"
  {
    ReprThree("Task", "RecurringTask", "PriorityTask");
    assert "['" + "Task" + "', '" == "['Task', '";
    assert "['Task', '" + "RecurringTask" + "', '" == "['Task', 'RecurringTask', '";
    assert "['Task', 'RecurringTask', '" + "PriorityTask" + "']" == "['Task', 'RecurringTask', 'PriorityTask']";
  }

  /** The printed form of a three-item list. */
  lemma ReprThree(a: string, b: string, c: string)
    ensures ReprList([a, b, c]) == "['" + a + "', '" + b + "', '" + c + "']"
  {
    assert [a, b, c][1..] == [b, c];
    assert [b, c][1..] == [c];
    var q := "'";
    var sep := "', ";
    assert ReprItems([c]) == q + c + q;
    assert ReprItems([b, c]) == q + b + sep + (q + c + q);
    assert ReprItems([a, b, c]) == q + a + sep + (q + b + sep + (q + c + q));
    assert "[" + (q + a + sep + (q + b + sep + (q + c + q))) + "]"
        == "['" + a + "', '" + b + "', '" + c + "']";
  }

  /** The quoted items of a list, separated by ", ". */
  function ReprItems(xs: seq<string>): string {
    if xs == [] then ""
    else if |xs| == 1 then "'" + xs[0] + "'"
    else "'" + xs[0] + "', " + ReprItems(xs[1..])
  }

  /** `create_task(title, date_due, **kwargs)`: `priority_level` wins over `interval`; with
      neither it is a plain task. Only a bad priority level makes it fail. */
  function CreateTask(title: string, dateDue: Instant, kw: Kwargs, now: Instant): (r: Result<TaskValue>)
    ensures r.Ok? <==> kw.priorityLevel.None? || IsValidLevel(kw.priorityLevel.value)
    ensures r.Ok? && kw.priorityLevel.Some? ==> r.value.variant == Priority(kw.priorityLevel.value)
    ensures r.Ok? && kw.priorityLevel.None? && kw.interval.Some? ==>
              r.value.variant == Recurring(kw.interval.value, [])
    ensures r.Ok? && kw.priorityLevel.None? && kw.interval.None? ==> r.value.variant == Regular
    ensures r.Ok? ==> r.value.title == title && r.value.dateDue == dateDue && !r.value.completed
                      && r.value.description == DescriptionOf(kw) && r.value.dateCreated == now
  {
    var description := DescriptionOf(kw);
    if kw.priorityLevel.Some? then InitPriorityTask(title, dateDue, kw.priorityLevel.value, description, now)
    else if kw.interval.Some? then Ok(InitRecurringTask(title, dateDue, kw.interval.value, description, now))
    else Ok(InitTask(title, dateDue, description, now))
  }

  /** The error for a recurring task requested without an interval. */
  const MissingIntervalMessage := "RecurringTask requires 'interval' parameter"

  /** The error for a priority task requested without a level. */
  const MissingLevelMessage := "PriorityTask requires 'priority_level' parameter"

  /** The error for a type name the factory does not know. */
  function UnknownTypeMessage(taskType: string): string {
    "Unknown task type '" + taskType + "'. Valid types: " + ReprList(SupportedTaskTypes)
  }

  /** `create_task_by_type(task_type, title, date_due, **kwargs)`. */
  function CreateTaskByType(taskType: string, title: string, dateDue: Instant, kw: Kwargs, now: Instant)
    : (r: Result<TaskValue>)
    ensures r.Ok? <==> taskType in SupportedTaskTypes && RequiredPresent(taskType, kw) && LevelAcceptable(taskType, kw)
    ensures r.Ok? ==> TaskType(r.value.variant) == taskType
    ensures r.Ok? ==> r.value.title == title && r.value.dateDue == dateDue && !r.value.completed
                      && r.value.description == DescriptionOf(kw) && r.value.dateCreated == now
    ensures r.Ok? && taskType == "RecurringTask" ==> r.value.variant == Recurring(kw.interval.value, [])
    ensures r.Ok? && taskType == "PriorityTask" ==> r.value.variant == Priority(kw.priorityLevel.value)
    ensures taskType == "RecurringTask" && kw.interval.None? ==> r == Err(MissingIntervalMessage)
    ensures taskType == "PriorityTask" && kw.priorityLevel.None? ==> r == Err(MissingLevelMessage)
    ensures taskType == "PriorityTask" && kw.priorityLevel.Some? && !IsValidLevel(kw.priorityLevel.value) ==>
              r == Err(PriorityError(kw.priorityLevel.value))
    ensures taskType !in SupportedTaskTypes ==> r == Err(UnknownTypeMessage(taskType))
  {
    var description := DescriptionOf(kw);
    if taskType == "Task" then
      Ok(InitTask(title, dateDue, description, now))
    else if taskType == "RecurringTask" then
      if kw.interval.None? then Err(MissingIntervalMessage)
      else Ok(InitRecurringTask(title, dateDue, kw.interval.value, description, now))
    else if taskType == "PriorityTask" then
      if kw.priorityLevel.None? then Err(MissingLevelMessage)
      else InitPriorityTask(title, dateDue, kw.priorityLevel.value, description, now)
    else
      Err(UnknownTypeMessage(taskType))
  }

  /** A type's extra required parameter, if it has one, is among the keywords. */
  predicate RequiredPresent(taskType: string, kw: Kwargs) {
    (taskType == "RecurringTask" ==> kw.interval.Some?) && (taskType == "PriorityTask" ==> kw.priorityLevel.Some?)
  }

  /** A priority level passed for a priority task is a valid one. */
  predicate LevelAcceptable(taskType: string, kw: Kwargs) {
    taskType == "PriorityTask" && kw.priorityLevel.Some? ==> kw.priorityLevel.value in ValidPriorityLevels
  }

  /** Naming the type explicitly builds the same task as the keywords would, whenever the
      keywords carry no parameter of another type. */
  lemma ByTypeAgreesWithKeywords(taskType: string, title: string, dateDue: Instant, kw: Kwargs, now: Instant)
    requires taskType in SupportedTaskTypes && RequiredPresent(taskType, kw)
    requires taskType != "PriorityTask" ==> kw.priorityLevel.None?
    requires taskType == "Task" ==> kw.interval.None?
    ensures CreateTaskByType(taskType, title, dateDue, kw, now) == CreateTask(title, dateDue, kw, now)
  {
  }

  /** `create_priority_task(title, date_due, priority_level, description)`. */
  function CreatePriorityTask(title: string, dateDue: Instant, level: int, description: string, now: Instant)
    : (r: Result<TaskValue>)
    ensures r == CreateTask(title, dateDue, Kwargs(Some(description), None, Some(level)), now)
    ensures r == CreateTaskByType("PriorityTask", title, dateDue, Kwargs(Some(description), None, Some(level)), now)
  {
    InitPriorityTask(title, dateDue, level, description, now)
  }

  /** `create_recurring_task(title, date_due, interval, description)`. */
  function CreateRecurringTask(title: string, dateDue: Instant, interval: Duration, description: string,
                               now: Instant): (v: TaskValue)
    ensures Ok(v) == CreateTask(title, dateDue, Kwargs(Some(description), Some(interval), None), now)
    ensures Ok(v) == CreateTaskByType("RecurringTask", title, dateDue, Kwargs(Some(description), Some(interval), None), now)
  {
    InitRecurringTask(title, dateDue, interval, description, now)
  }

  /** One entry of `get_task_type_info()`; `priorityLevels` is present for PriorityTask only. */
  datatype TypeInfo = TypeInfo(
    description: string,
    requiredParams: seq<string>,
    optionalParams: seq<string>,
    priorityLevels: Option<map<int, string>>)

  /** `get_task_type_info()`. */
  function TaskTypeInfo(): map<string, TypeInfo> {
    map[
      "Task" := TypeInfo("Basic task with title, due date, and optional description",
                         ["title", "date_due"], ["description"], None),
      "RecurringTask" := TypeInfo("Task that repeats at specified intervals",
                                  ["title", "date_due", "interval"], ["description"], None),
      "PriorityTask" := TypeInfo("Task with priority levels (1=low, 2=medium, 3=high)",
                                 ["title", "date_due", "priority_level"], ["description"], Some(PriorityMapping))]
  }

  /** The described types are the supported ones, and each requires a title and a due date
      plus at most the one keyword its constructor takes. */
  lemma TaskTypeInfoShape()
    ensures TaskTypeInfo().Keys == set t | t in SupportedTaskTypes
    ensures forall t :: t in TaskTypeInfo() ==> TaskTypeInfo()[t].requiredParams[..2] == ["title", "date_due"]
    ensures TaskTypeInfo()["RecurringTask"].requiredParams[2..] == ["interval"]
    ensures TaskTypeInfo()["PriorityTask"].requiredParams[2..] == ["priority_level"]
  {
  }

  /** A required parameter is satisfied by a positional argument or a keyword. */
  predicate Supplied(param: string, kw: Kwargs) {
    param in ["title", "date_due"] || param in Names(kw)
  }

  /** What `validate_task_parameters(task_type, **kwargs)` returns: every required parameter
      supplied, and a priority level, when passed for a priority task, valid. An unknown type
      is the ValueError. */
  function ParametersValid(taskType: string, kw: Kwargs): Result<bool> {
    var info := TaskTypeInfo();
    if taskType !in info then Err("Unknown task type '" + taskType + "'")
    else Ok((forall p :: p in info[taskType].requiredParams ==> Supplied(p, kw)) && LevelAcceptable(taskType, kw))
  }

  /** `validate_task_parameters(task_type, **kwargs)`, loop and all. */
  method ValidateTaskParameters(taskType: string, kw: Kwargs) returns (r: Result<bool>)
    ensures r == ParametersValid(taskType, kw)
  {
    var info := TaskTypeInfo();
    if taskType !in info {
      return Err("Unknown task type '" + taskType + "'");
    }
    var required := info[taskType].requiredParams;
    var i := 0;
    while i < |required|
      invariant 0 <= i <= |required|
      invariant forall j :: 0 <= j < i ==> Supplied(required[j], kw)
    {
      if !Supplied(required[i], kw) {
        return Ok(false);
      }
      i := i + 1;
    }
    if taskType == "PriorityTask" && kw.priorityLevel.Some? {
      if kw.priorityLevel.value !in ValidPriorityLevels {
        return Ok(false);
      }
    }
    return Ok(true);
  }

  /** Validation accepts exactly the parameters with which naming the type builds a task, and
      rejects an unknown type, as building does. */
  lemma ValidationMatchesCreation(taskType: string, title: string, dateDue: Instant, kw: Kwargs, now: Instant)
    ensures ParametersValid(taskType, kw).Err? <==> CreateTaskByType(taskType, title, dateDue, kw, now).Err?
                                                    && taskType !in SupportedTaskTypes
    ensures ParametersValid(taskType, kw) == Ok(true) <==> CreateTaskByType(taskType, title, dateDue, kw, now).Ok?
  {
    var info := TaskTypeInfo();
    if taskType == "RecurringTask" {
      var required := info[taskType].requiredParams;
      assert required == ["title", "date_due", "interval"];
      assert required[2] in required;
      assert (forall p :: p in required ==> Supplied(p, kw)) <==> kw.interval.Some?;
    } else if taskType == "PriorityTask" {
      var required := info[taskType].requiredParams;
      assert required == ["title", "date_due", "priority_level"];
      assert required[2] in required;
      assert (forall p :: p in required ==> Supplied(p, kw)) <==> kw.priorityLevel.Some?;
      PriorityMappingShape();
      assert LevelAcceptable(taskType, kw) <==> kw.priorityLevel.None? || IsValidLevel(kw.priorityLevel.value);
    }
  }
}
