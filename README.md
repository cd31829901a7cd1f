# To-do list coursework apps — Dafny model

This project models the domain core of a series of Python to-do list apps.

- **Portfolio app**:
  - the task hierarchy: Task, RecurringTask and PriorityTask;
  - the task factory and the task list;
  - the users: User and Owner;
  - the controller, which turns display numbers into indices and reports every failure as a `(success, message)` pair;
  - the CSV and test data-access objects (DAOs).
- **Smaller iterations**:
  - the week-7 task list that the controller is written against;
  - the week-7 console app's own task list;
  - the week-5 list of strings;
  - the week-8 abstract-class tasks and the in-memory DAO.
- **Labs**:
  - the week-8 data-structure lab: tuple swap, common names and histogram;
  - the week-6 Car.

The time is never read from a clock: every operation that calls `datetime.now()` takes a `now` parameter instead.

- **Timestamps**: an `Instant` counts whole seconds from 0001-01-01 00:00:00 up to the end of year 9999.
- **Intervals**: a `Duration` is a `timedelta` in whole seconds, within `timedelta`'s bounds.
- **Exceptions**: a Python exception becomes a `Result`, `Option` or `Parsed` value, or an error field next to the new state.

Where the Python objects are updated in place, the model uses Dafny classes:
- task objects;
- task lists;
- owners;
- the controller;
- the file store;
- the memory DAO;
- the car.

Each method's postcondition relates the new state to a specification function of the old state. Pure parts are functions, with lemmas that prove what the code promises.

Modules, one per file:

- `outcomes.dfy` — `Outcomes`: `Option` and `Result`.
- `python_text.dfy` — `PyText`: the `str` methods the core relies on:
  - `strip`, `split(',')`, `','.join`, the first whitespace token;
  - `lower`, `upper`, `title`, `capitalize`;
  - `str(int)` and `int(str)`.
- `python_lists.dfy` — `PyLists`: Python indexing with negative indices, `del xs[i]` and `list.remove`.
- `calendar.dfy` — `Calendar`:
  - `timedelta.days`, `timedelta(days=n)` and `datetime + timedelta` with its OverflowError;
  - the proleptic Gregorian calendar;
  - `strftime`/`strptime` with the `"%Y-%m-%d"` format.
- `task.py` → `task.dfy` (`Tasks`): the portfolio task classes as one class whose `variant` records the Python class.
- `task_factory.py` → `task_factory.dfy` (`TaskFactory`).
- `tasklist.py` files:
  - `tasklist_week7.dfy` — `TaskListWeek7`, from `week_7/ToDoApp_Week7`;
  - `tasklist_portfolio.dfy` — `TaskListPortfolio`;
  - `tasklist_simple.dfy` — `TaskListSimple`, from `week_7/ToDoApp`.
- `week_5/ToDoApp/task_list.py` → `tasklist_strings.dfy` (`TaskListStrings`).
- `users.py` → `users.dfy` (`Users`).
- `task_views.dfy` — `TaskViews`: the read-only views the controller computes, which are filters, counts and the sorted list of priority tasks.
- `task_manager_controller.py` → `controller.dfy` (`TaskController`). It is modelled over the week-7 TaskList interface, because that is the interface it calls:
  - `check_task_index` and `uncompleted_tasks`;
  - a string owner.
- `abstract_dao.py` → `task_dao.dfy` (`TaskDao`):
  - The CSV file is a sequence of rows. Each row maps the nine columns to strings.
  - The file system is a `Storage` object mapping paths to files.
- `week_8/todo_abstract_classes.py` → `week8_tasks.dfy` (`Week8Tasks`).
- `week_8/lab_week_8.py` → `lab_week_8.dfy` (`LabWeek8`).
- `week_6/lab_week_6_debugging.py` → `car.dfy` (`CarLab`).

The code and its docstrings disagree in a few places; the model follows the code:
- The task constructors do not reject an empty title. Only `change_title` does.
- The controller's overdue view excludes completed tasks. The task lists' `view_overdue_tasks` does not.

## Model

| member | source | states |
|---|---|---|
| `Tasks.InitTask` | ToDoAppPortfolio/task.py:22-28 | a plain task starts uncompleted, created at `now`, with the given title, due date and description |
| `Tasks.InitRecurringTask` | ToDoAppPortfolio/task.py:145-157 | a recurring task starts with no completion dates |
| `Tasks.InitPriorityTask` | ToDoAppPortfolio/task.py:239-276 | the constructor succeeds iff the level is a key of the mapping; otherwise it fails with the ValueError |
| `Tasks.InitStartsOpen` | ToDoAppPortfolio/task.py:22-28 | every constructor starts a task uncompleted, created now, with the given title, due date and description |
| `Tasks.PriorityString` | ToDoAppPortfolio/task.py:302-316 | the level's name is PRIORITY_MAPPING's entry for it |
| `Tasks.PriorityMappingShape` | ToDoAppPortfolio/task.py:233-237 | the valid levels are exactly 1, 2 and 3, which is `get_valid_priority_levels`; their names are low/medium/high and distinct |
| `Tasks.TaskType` | ToDoAppPortfolio/task.py:123-130 | the type tag is one of "Task", "RecurringTask", "PriorityTask" |
| `Tasks.TaskTypeInjective` | ToDoAppPortfolio/task.py:190-197 | two tasks have the same tag iff they are of the same class |
| `Tasks.Complete` | ToDoAppPortfolio/task.py:113-121 | completing keeps title, creation date and description; only a recurring task can fail |
| `Tasks.CompleteLatches` | ToDoAppPortfolio/task.py:318-327 | completing a plain or priority task sets `completed`, and completing again changes nothing |
| `Tasks.CompleteRecurring` | ToDoAppPortfolio/task.py:159-188 | a recurring completion adds exactly `now` to the dates; it moves the due date by the interval unless that overflows; `completed` is untouched |
| `Tasks.CompleteRecurringTwice` | ToDoAppPortfolio/task.py:168-188 | completing a recurring task twice adds two dates and two intervals |
| `Tasks.Task.constructor` | ToDoAppPortfolio/task.py:98-99 | the new object holds exactly the given attributes |
| `Tasks.Task.ChangeTitle` | ToDoAppPortfolio/task.py:50-55 | fails iff the new title is all whitespace, and then changes nothing; otherwise stores the stripped title and nothing else |
| `Tasks.Task.ChangeDate` | ToDoAppPortfolio/task.py:57-62 | always stores the date; the past-date warning is raised iff the date is before `now` |
| `Tasks.Task.ChangeDescription` | ToDoAppPortfolio/task.py:64-67 | always stores the description and nothing else |
| `Tasks.Task.IsOverdue` | ToDoAppPortfolio/task.py:69-71 | overdue iff `now` is past the due date and the task is not completed |
| `Tasks.Task.DaysUntilDue` | ToDoAppPortfolio/task.py:73-76 | the whole days to the due date, rounded towards minus infinity |
| `Tasks.Task.MarkAsCompleted` | ToDoAppPortfolio/task.py:168-188 | the object's new attributes and error are those of `Complete` |
| `Tasks.Task.SetPriorityLevel` | ToDoAppPortfolio/task.py:288-300 | succeeds iff the level is valid; otherwise fails with the ValueError and keeps the old level |
| `Tasks.Values` | ToDoAppPortfolio/task.py:19-28 | the attributes of a list of task objects, element by element |
| `TaskFactory.Names` | ToDoAppPortfolio/task_factory.py:84-99 | which keyword arguments were passed |
| `TaskFactory.CreateTask` | ToDoAppPortfolio/task_factory.py:84-99 | a priority level wins over an interval; an interval alone gives a recurring task; neither gives a plain task; fails only on an invalid level; title and due date are kept |
| `TaskFactory.CreateTaskByType` | ToDoAppPortfolio/task_factory.py:129-148 | succeeds iff the type is supported, its required argument is present and any level is valid; a recurring task without an interval, a priority task without a level, a bad level and an unknown type each give their own error; the task built has the requested type, the given interval or level, title, due date and description, is uncompleted and was created now |
| `TaskFactory.ByTypeAgreesWithKeywords` | ToDoAppPortfolio/task_factory.py:129-148 | with consistent arguments, creating by type and creating from the keywords give the same task |
| `TaskFactory.CreatePriorityTask` | ToDoAppPortfolio/task_factory.py:151-168 | is `create_task` with a priority level, and also `create_task_by_type("PriorityTask")` |
| `TaskFactory.CreateRecurringTask` | ToDoAppPortfolio/task_factory.py:171-185 | is `create_task` with an interval, and also `create_task_by_type("RecurringTask")`; it never fails |
| `TaskFactory.ReprList` | ToDoAppPortfolio/task_factory.py:146-148 | the printed list of supported types is bracketed |
| `TaskFactory.SupportedTypesRepr` | ToDoAppPortfolio/task_factory.py:146-148 | the unknown-type error lists the valid types as `['Task', 'RecurringTask', 'PriorityTask']` |
| `TaskFactory.TaskTypeInfoShape` | ToDoAppPortfolio/task_factory.py:201-225 | the described types are the supported ones; each requires title and due date, plus its own argument |
| `TaskFactory.ValidateTaskParameters` | ToDoAppPortfolio/task_factory.py:242-261 | the loop with early returns computes `ParametersValid`: an error for an unknown type, False for a missing argument or an invalid level |
| `TaskFactory.ValidationMatchesCreation` | ToDoAppPortfolio/task_factory.py:228-261 | validation fails exactly when creation by type fails, and answers True exactly when creation succeeds |
| `PyLists.PyIndex` | week_7/ToDoApp_Week7/tasklist.py:81-86 | a Python index is valid iff it lies in `-n..n-1`, and it names position `ix` or `n+ix` |
| `PyLists.Delete` | ToDoAppPortfolio/tasklist.py:102-107 | `del xs[k]` keeps the elements before `k` and shifts the later ones down by one |
| `PyLists.DeleteMultiset` | ToDoAppPortfolio/tasklist.py:102-107 | deleting removes exactly one occurrence of the deleted element |
| `PyLists.DeleteAt` | ToDoAppPortfolio/tasklist.py:100-107 | deletes the element a Python index names; an index out of range changes nothing |
| `PyLists.RemoveFirstDeletesFirst` | week_5/ToDoApp/task_list.py:13-15 | `list.remove(x)` deletes the first occurrence of `x` |
| `TaskListWeek7.TaskList.constructor` | week_7/ToDoApp_Week7/tasklist.py:44-47 | the owner is stored title-cased, and the list starts empty |
| `TaskListWeek7.TaskList.AddTask` | week_7/ToDoApp_Week7/tasklist.py:49-64 | appends at the end |
| `TaskListWeek7.TaskList.RemoveTask` | week_7/ToDoApp_Week7/tasklist.py:67-86 | deletes the element a Python index names, negatives included; otherwise the list is unchanged |
| `TaskListWeek7.TaskList.UncompletedTasks` | week_7/ToDoApp_Week7/tasklist.py:88-105 | the uncompleted tasks, each of them, in list order |
| `TaskListWeek7.TaskList.GetTask` | week_7/ToDoApp_Week7/tasklist.py:173-178 | returns `tasks[index]` iff `0 <= index < len`, otherwise an IndexError (negative indices included) |
| `TaskListWeek7.NegativeIndexFromEnd` | week_7/ToDoApp_Week7/tasklist.py:81-84 | a negative index deletes element `len+ix` |
| `TaskListPortfolio.TaskList.constructor` | ToDoAppPortfolio/tasklist.py:64-68 | the list starts empty, and the owner's task-list counter goes up by exactly one with nothing else changed |
| `TaskListPortfolio.TaskList.AddTask` | ToDoAppPortfolio/tasklist.py:84-86 | appends at the end |
| `TaskListPortfolio.TaskList.RemoveTask` | ToDoAppPortfolio/tasklist.py:100-107 | deletes the element a Python index names, negatives included; otherwise the list is unchanged |
| `TaskListPortfolio.TaskList.GetTask` | ToDoAppPortfolio/tasklist.py:184-189 | returns `tasks[index]` iff `0 <= index < len`, otherwise an IndexError |
| `TaskListSimple.Task.constructor` | week_7/ToDoApp/tasklist.py:3-6 | title and flag as given; `completed` defaults to false at the call sites |
| `TaskListSimple.UncompletedMembers` | week_7/ToDoApp/tasklist.py:37-39 | the filter holds exactly the uncompleted tasks |
| `TaskListSimple.UncompletedAppend` | week_7/ToDoApp/tasklist.py:37-39 | the filter preserves order, because it distributes over concatenation |
| `TaskListSimple.TaskList.AddTask` | week_7/ToDoApp/tasklist.py:23-24 | appends at the end |
| `TaskListSimple.TaskList.RemoveTask` | week_7/ToDoApp/tasklist.py:26-28 | deletes element `i` iff `0 <= i < len`; otherwise silently does nothing |
| `TaskListSimple.TaskList.CompleteTask` | week_7/ToDoApp/tasklist.py:30-32 | sets `completed` on element `i` only, when it is in range; no other task changes |
| `TaskListSimple.TaskList.UncompletedTasks` | week_7/ToDoApp/tasklist.py:37-39 | the uncompleted tasks, each of them |
| `TaskListSimple.UncompletedPositions` | week_7/ToDoApp/tasklist.py:37-39 | position by position, the filter's elements are uncompleted list members, and every uncompleted member appears |
| `TaskListStrings.TaskList.constructor` | week_5/ToDoApp/task_list.py:6-8 | the list starts empty |
| `TaskListStrings.TaskList.AddTask` | week_5/ToDoApp/task_list.py:10-11 | appends the string at the end |
| `TaskListStrings.TaskList.RemoveTask` | week_5/ToDoApp/task_list.py:13-15 | removes the first occurrence when present; otherwise the list is unchanged |
| `TaskListStrings.TaskList.GetTask` | week_5/ToDoApp/task_list.py:17-20 | `tasks[i]` iff `0 <= i < len`, otherwise None |
| `TaskListStrings.NumberedLines` | week_5/ToDoApp/task_list.py:22-24 | line `i` is `"k. task"`, numbered from 1 |
| `TaskListStrings.RenderList` | week_5/ToDoApp/task_list.py:22-24 | the header, then "No tasks yet." or the numbered lines joined by newlines |
| `TaskListStrings.RenderedLines` | week_5/ToDoApp/task_list.py:22-24 | a non-empty list's text splits back into the header line and one numbered line per task |
| `Users.User.constructor` | ToDoAppPortfolio/users.py:18-22 | the name is stored title-cased, the email lower-cased, and the join time is `now` |
| `Users.Owner.constructor` | ToDoAppPortfolio/users.py:53-70 | as a User, with exactly the four permissions and a counter of 0 |
| `Users.Owner.CreateTaskList` | ToDoAppPortfolio/users.py:91-101 | the counter goes up by exactly one, and nothing else changes |
| `Users.NormalisedContact` | ToDoAppPortfolio/users.py:20-21 | normalising again changes nothing, and keeps the length |
| `TaskViews.Filter` | ToDoAppPortfolio/task_manager_controller.py:152-159 | a filter is no longer than the list |
| `TaskViews.FilterMembers` | ToDoAppPortfolio/task_manager_controller.py:152-159 | the filter holds exactly the selected tasks |
| `TaskViews.FilterIndices` | week_7/ToDoApp_Week7/tasklist.py:88-105 | position by position, the filter's elements are selected list members, and every selected member appears |
| `TaskViews.FilterAppend` | ToDoAppPortfolio/task_manager_controller.py:152-159 | filtering keeps list order, because it distributes over concatenation |
| `TaskViews.FilterSingleton` | ToDoAppPortfolio/task_manager_controller.py:156-158 | one task is kept iff it is selected |
| `TaskViews.FilterNone` | ToDoAppPortfolio/task_manager_controller.py:168-171 | nothing selected gives an empty filter |
| `TaskViews.FilterAll` | ToDoAppPortfolio/task_manager_controller.py:168-171 | everything selected gives the list itself |
| `TaskViews.FilterFilter` | ToDoAppPortfolio/task_manager_controller.py:168-171 | filtering by a weaker and then a stronger condition is filtering by the stronger one |
| `TaskViews.CountMonotonic` | ToDoAppPortfolio/task_manager_controller.py:455-471 | a stronger condition counts no more tasks |
| `TaskViews.TypeCountsPartition` | ToDoAppPortfolio/task_manager_controller.py:462-464 | regular + recurring + priority = total |
| `TaskViews.LevelCountsPartition` | ToDoAppPortfolio/task_manager_controller.py:465-471 | high + medium + low = priority |
| `TaskViews.CompletedSplit` | ToDoAppPortfolio/task_manager_controller.py:455-461 | uncompleted + completed = total |
| `TaskViews.SortByLevelDescending` | ToDoAppPortfolio/task_manager_controller.py:168-171 | the stable sort by level, descending: sorted, only priority tasks, and each level's tasks in their original order |
| `TaskViews.SortUnique` | ToDoAppPortfolio/task_manager_controller.py:168-171 | any arrangement that is sorted and keeps each level's order is this one, so the result is the stable sort |
| `TaskViews.SortPermutes` | ToDoAppPortfolio/task_manager_controller.py:168-171 | the sort is a permutation of its input |
| `TaskViews.PriorityTasks` | ToDoAppPortfolio/task_manager_controller.py:161-171 | only priority tasks, sorted by level descending, equal levels in list order, and a permutation of the priority tasks |
| `TaskViews.CountTasks` | ToDoAppPortfolio/task_manager_controller.py:448-484 | completed = total − uncompleted; regular + recurring + priority = total; high + medium + low = priority; overdue ≤ uncompleted |
| `TaskController.DaoFor` | ToDoAppPortfolio/task_manager_controller.py:384-388 | "test" in any case selects the test DAO, anything else the CSV DAO, on the given path |
| `TaskController.DaoTasks` | ToDoAppPortfolio/abstract_dao.py:132-205 | the CSV DAO never fails, and a missing file gives no tasks |
| `TaskController.GetAllTasks` | ToDoAppPortfolio/task_manager_controller.py:389-397 | new task objects holding what the selected DAO yields, or its error |
| `TaskController.CapitalizedLevels` | ToDoAppPortfolio/task_manager_controller.py:209-214 | the completion message names the levels Low, Medium and High |
| `TaskController.TaskManagerController.constructor` | ToDoAppPortfolio/task_manager_controller.py:52-60 | an empty list for the title-cased owner, and no DAO |
| `TaskController.TaskManagerController.CreateRegularTask` | ToDoAppPortfolio/task_manager_controller.py:62-80 | always appends a new plain task |
| `TaskController.TaskManagerController.CreateRecurringTask` | ToDoAppPortfolio/task_manager_controller.py:82-103 | appends a new recurring task iff the day count is accepted by `timedelta`; otherwise changes nothing |
| `TaskController.TaskManagerController.CreatePriorityTask` | ToDoAppPortfolio/task_manager_controller.py:105-125 | appends a new priority task iff the level is valid; otherwise changes nothing |
| `TaskController.TaskManagerController.GetOverdueTasks` | ToDoAppPortfolio/task_manager_controller.py:145-159 | exactly the tasks due before `now` and not completed, in list order |
| `TaskController.TaskManagerController.GetTaskByNumber` | ToDoAppPortfolio/task_manager_controller.py:173-189 | None iff the number is out of range, otherwise task `n-1` |
| `TaskController.TaskManagerController.MarkTaskCompleted` | ToDoAppPortfolio/task_manager_controller.py:191-223 | an invalid number is refused and changes nothing; otherwise the task is completed as `Complete` says, and the message depends on its class or is the caught error |
| `TaskController.TaskManagerController.RemoveTask` | ToDoAppPortfolio/task_manager_controller.py:225-253 | an invalid number is refused and changes nothing; otherwise exactly task `n-1` is removed, the rest keep their order, and the message names its type and title |
| `TaskController.TaskManagerController.EditTaskTitle` | ToDoAppPortfolio/task_manager_controller.py:255-282 | an invalid number is refused; a blank title fails and leaves the task unchanged; otherwise the stripped title is stored, and the message quotes the title as given |
| `TaskController.TaskManagerController.EditTaskDate` | ToDoAppPortfolio/task_manager_controller.py:284-311 | an invalid number is refused; otherwise the date is stored, past or not, and both dates are reported |
| `TaskController.TaskManagerController.EditTaskDescription` | ToDoAppPortfolio/task_manager_controller.py:313-340 | an invalid number is refused; otherwise the description is stored |
| `TaskController.TaskManagerController.EditTaskPriority` | ToDoAppPortfolio/task_manager_controller.py:342-374 | an invalid number is refused; a task of another class gives "Selected task is not a priority task."; an invalid level fails and keeps the level; otherwise the level is stored and both names are reported |
| `TaskController.TaskManagerController.LoadTasksFromDao` | ToDoAppPortfolio/task_manager_controller.py:376-410 | remembers the DAO; on success appends exactly the loaded tasks after the existing ones, in loaded order, and reports their number and classes; on failure reports the error and changes no task |
| `TaskController.TaskManagerController.AddAll` | ToDoAppPortfolio/task_manager_controller.py:398-399 | the loop appends the loaded tasks in order, and the tasks' own attributes are unchanged |
| `TaskController.TaskManagerController.SaveTasksToDao` | ToDoAppPortfolio/task_manager_controller.py:412-446 | with no DAO and no path/type, fails with the fixed message and writes nothing; otherwise the CSV DAO rewrites its file with the encoded tasks, while the test DAO writes nothing |
| `TaskController.TaskManagerController.GetTaskCount` | ToDoAppPortfolio/task_manager_controller.py:448-484 | the count identities, with total and uncompleted taken from the list and overdue from the overdue view |
| `TaskController.SaveThenLoad` | ToDoAppPortfolio/task_manager_controller.py:376-446 | loading the CSV file that a save just wrote yields the saved tasks, truncated to whole days |
| `TaskDao.HeaderColumns` | ToDoAppPortfolio/abstract_dao.py:127-130 | the nine column names are distinct, and they are exactly the header's field names |
| `TaskDao.ColumnsComplete` | ToDoAppPortfolio/abstract_dao.py:216-217 | every row is written with all nine columns |
| `TaskDao.FormatDates` | ToDoAppPortfolio/abstract_dao.py:239-241 | each completion date is written as `YYYY-MM-DD` |
| `TaskDao.EncodeRow` | ToDoAppPortfolio/abstract_dao.py:219-246 | the row has every column, each holding its cell |
| `TaskDao.CellTexts` | ToDoAppPortfolio/abstract_dao.py:223-228 | title, type tag, description and the `str(bool)` completed flag are written as they are |
| `TaskDao.CellDue` | ToDoAppPortfolio/abstract_dao.py:225 | the due date is written as `YYYY-MM-DD` |
| `TaskDao.CellCreated` | ToDoAppPortfolio/abstract_dao.py:227 | the creation date is written as `YYYY-MM-DD` |
| `TaskDao.CellVariant` | ToDoAppPortfolio/abstract_dao.py:231-246 | priority rows carry the level; recurring rows carry `interval.days` and the comma-joined dates |
| `TaskDao.CompletedCell` | ToDoAppPortfolio/abstract_dao.py:158 | the flag reads back as true iff it was true |
| `TaskDao.IntervalOf` | ToDoAppPortfolio/abstract_dao.py:171-172 | an empty interval is 7 days; the load ends on a blank interval or a day count `timedelta` refuses; a token `int()` refuses (a bad integer, or more than 4300 digits) skips the row |
| `TaskDao.DatesOf` | ToDoAppPortfolio/abstract_dao.py:177-183 | parsing the completion dates never ends the load |
| `TaskDao.DecodeRowFields` | ToDoAppPortfolio/abstract_dao.py:145-196 | the cases in which a row decodes, is skipped or ends the load, and the fields of a decoded task |
| `TaskDao.Truncate` | ToDoAppPortfolio/abstract_dao.py:156-157 | truncation to days keeps the text fields, the flag and the class |
| `TaskDao.StartOfDays` | ToDoAppPortfolio/abstract_dao.py:182 | each date is cut to its midnight |
| `TaskDao.TruncateIdempotent` | ToDoAppPortfolio/abstract_dao.py:156-157 | a second truncation changes nothing |
| `TaskDao.DatesRoundTrip` | ToDoAppPortfolio/abstract_dao.py:177-183 | the joined completion dates parse back to the dates cut to days |
| `TaskDao.ParsedTexts` | ToDoAppPortfolio/abstract_dao.py:180-183 | parsing the written dates gives their midnights |
| `TaskDao.IntervalRoundTrip` | ToDoAppPortfolio/abstract_dao.py:171-172 | a written day count reads back as that many whole days |
| `TaskDao.DecodeRegular` | ToDoAppPortfolio/abstract_dao.py:184-190 | a row of any tag other than the two subclasses, with good common columns, decodes to a plain task |
| `TaskDao.DecodePriority` | ToDoAppPortfolio/abstract_dao.py:161-164 | a "PriorityTask" row decodes to a priority task with its level |
| `TaskDao.DecodeRecurring` | ToDoAppPortfolio/abstract_dao.py:166-183 | a "RecurringTask" row decodes to a recurring task with its interval and dates |
| `TaskDao.WrittenCommon` | ToDoAppPortfolio/abstract_dao.py:223-228 | a written row has the common columns the decoder expects |
| `TaskDao.RecurringCells` | ToDoAppPortfolio/abstract_dao.py:238-241 | a recurring task's written interval and dates read back |
| `TaskDao.RowRoundTrip` | ToDoAppPortfolio/abstract_dao.py:145-246 | a written row reads back as the task with its dates cut to days |
| `TaskDao.JoinLength` | ToDoAppPortfolio/abstract_dao.py:239-241 | the joined text is at least as long as its first piece |
| `TaskDao.EncodeRows` | ToDoAppPortfolio/abstract_dao.py:219-248 | one row per task, in order |
| `TaskDao.TruncateAll` | ToDoAppPortfolio/abstract_dao.py:156-157 | every task is cut to days, in order |
| `TaskDao.SaveLoadRoundTrip` | ToDoAppPortfolio/abstract_dao.py:132-253 | loading what a save wrote gives the saved tasks, cut to days |
| `TaskDao.LoadAppend` | ToDoAppPortfolio/abstract_dao.py:145-196 | rows that do not end the load load independently of what follows |
| `TaskDao.SkippedRow` | ToDoAppPortfolio/abstract_dao.py:194-196 | a skipped row (bad date, integer, key or level) drops only itself, and later rows still load |
| `TaskDao.AbortingRow` | ToDoAppPortfolio/abstract_dao.py:202-205 | a row raising outside the per-row handler ends the load with the tasks read so far |
| `TaskDao.Storage.constructor` | ToDoAppPortfolio/abstract_dao.py:141-143 | the files as given |
| `TaskDao.CsvGetAllTasks` | ToDoAppPortfolio/abstract_dao.py:132-205 | a missing file gives no tasks; otherwise new task objects holding `LoadValues` of the rows |
| `TaskDao.ValuesAppend` | ToDoAppPortfolio/abstract_dao.py:192 | appending a task appends its attributes |
| `TaskDao.LoadStep` | ToDoAppPortfolio/abstract_dao.py:145-196 | one row of the loop: it is appended, skipped, or ends the load |
| `TaskDao.CsvSaveAllTasks` | ToDoAppPortfolio/abstract_dao.py:207-253 | the file at the path is replaced by the encoded tasks; no other file changes |
| `TaskDao.EncodeRowsAppend` | ToDoAppPortfolio/abstract_dao.py:219-248 | encoding one more task adds one more row |
| `TaskDao.TestTasks` | ToDoAppPortfolio/abstract_dao.py:76-89 | the fixture has six tasks; it fails only when a due date overflows |
| `TaskDao.TestTasksMix` | ToDoAppPortfolio/abstract_dao.py:76-89 | two plain tasks, one recurring task and priority levels 3, 2 and 1, all uncompleted |
| `TaskDao.TestGetAllTasks` | ToDoAppPortfolio/abstract_dao.py:68-92 | new task objects holding the fixture, or its OverflowError |
| `Calendar.Days` | ToDoAppPortfolio/abstract_dao.py:238 | `timedelta.days` is the floor of seconds over 86400 |
| `Calendar.FromDays` | ToDoAppPortfolio/abstract_dao.py:172 | `timedelta(days=n)` exists iff `n` is within ±999999999 |
| `Calendar.Add` | ToDoAppPortfolio/task.py:159-166 | `date + interval` fails iff it leaves years 1..9999 |
| `Calendar.StartOfDay` | ToDoAppPortfolio/abstract_dao.py:156-157 | a day's midnight, no later than the time |
| `Calendar.ParseFormatDate` | ToDoAppPortfolio/abstract_dao.py:225-227 | writing then reading a date keeps the day and drops the time of day |
| `Calendar.FormatParseDate` | ToDoAppPortfolio/abstract_dao.py:156-157 | a date text that parses is written back the same |
| `PyText.Strip` | ToDoAppPortfolio/task.py:52-54 | the stripped text has no whitespace at either end, and is empty iff the text is all whitespace |
| `PyText.StripIdempotent` | ToDoAppPortfolio/task.py:52-54 | stripping twice is stripping once |
| `PyText.SplitJoin` | ToDoAppPortfolio/abstract_dao.py:178 | splitting the comma-joined pieces gives the pieces back, when none contains a comma |
| `PyText.ParseIntToString` | ToDoAppPortfolio/abstract_dao.py:163 | `int(str(n)) == n` for every `n` whose `str()` stays within the 4300-digit limit |
| `PyText.ParseIntTooLong` | ToDoAppPortfolio/abstract_dao.py:163 | `int()` refuses a run of more than 4300 digits, whatever its value |
| `TaskDao.OverlongIntervalSkips` | ToDoAppPortfolio/abstract_dao.py:171-172 | an interval of more than 4300 digits is a ValueError that skips the row |
| `TaskDao.OverlongLevelSkips` | ToDoAppPortfolio/abstract_dao.py:161-163 | a priority level of more than 4300 digits skips the row, even when its value is a valid level |
| `PyText.FirstTokenOfWord` | ToDoAppPortfolio/abstract_dao.py:171 | the first token of a word without whitespace is the word |
| `PyText.LowerIdempotent` | ToDoAppPortfolio/users.py:21 | lower-casing twice is lower-casing once |
| `PyText.TitleIdempotent` | ToDoAppPortfolio/users.py:20 | title-casing twice is title-casing once |
| `Week8Tasks.Mark` | week_8/todo_abstract_classes.py:66-68 | marking keeps the title, creation date and class; only a recurring task can fail |
| `Week8Tasks.MarkPlain` | week_8/todo_abstract_classes.py:66-68 | a plain task becomes completed, marking again changes nothing, and it is then never overdue |
| `Week8Tasks.MarkRepeating` | week_8/todo_abstract_classes.py:104-106 | a recurring task gets exactly one more date; its due date moves by the interval unless that overflows; `completed` is unchanged |
| `Week8Tasks.MarkKeepsValid` | week_8/todo_abstract_classes.py:97-106 | a recurring task is never completed, so it is overdue exactly when its due date has passed |
| `Week8Tasks.Task.constructor` | week_8/todo_abstract_classes.py:23-28 | a plain task starts uncompleted, created at `now` |
| `Week8Tasks.Task.Recurring` | week_8/todo_abstract_classes.py:83-95 | a recurring task starts uncompleted, with no completion dates |
| `Week8Tasks.Task.GetTaskType` | week_8/todo_abstract_classes.py:70-72 | "Task" iff plain, "RecurringTask" iff recurring |
| `Week8Tasks.Task.ChangeTitle` | week_8/todo_abstract_classes.py:40-42 | stores the title as given, with no check |
| `Week8Tasks.Task.ChangeDate` | week_8/todo_abstract_classes.py:44-46 | stores the date as given, with no check |
| `Week8Tasks.Task.IsOverdue` | week_8/todo_abstract_classes.py:48-50 | overdue iff `now` is past the due date and the task is not completed |
| `Week8Tasks.Task.MarkAsCompleted` | week_8/todo_abstract_classes.py:97-106 | the object's new attributes and error are those of `Mark` |
| `Week8Tasks.TaskListObject.Append` | week_8/todo_abstract_classes.py:233 | appends at the end |
| `Week8Tasks.TaskMemoryDao.constructor` | week_8/todo_abstract_classes.py:211-214 | starts with nothing stored |
| `Week8Tasks.TaskMemoryDao.GetAllTasks` | week_8/todo_abstract_classes.py:216-224 | a new list holding what is stored |
| `Week8Tasks.TaskMemoryDao.SaveAllTasks` | week_8/todo_abstract_classes.py:226-234 | stores what the list holds now, not the list object |
| `Week8Tasks.CopiesIsolate` | week_8/todo_abstract_classes.py:224-233 | after a save, appending to the caller's list or to a returned list does not change what the DAO returns next |
| `LabWeek8.TupleSwap` | week_8/lab_week_8.py:20-25 | the pair comes back swapped |
| `LabWeek8.SwapTwice` | week_8/lab_week_8.py:20-25 | swapping twice restores the pair |
| `LabWeek8.CommonNames` | week_8/lab_week_8.py:49-51 | a name is common iff it is in both sets |
| `LabWeek8.CommonNamesSymmetric` | week_8/lab_week_8.py:49-51 | the order of the sets does not matter, and the result lies in both |
| `LabWeek8.Histogram` | week_8/lab_week_8.py:75-80 | the loop computes `HistogramOf` of the list |
| `LabWeek8.HistogramCounts` | week_8/lab_week_8.py:75-80 | the keys are exactly the distinct elements, and each count is the element's number of occurrences |
| `LabWeek8.SumOverRemove` | week_8/lab_week_8.py:75-80 | a sum of counts can take any key out first |
| `LabWeek8.SumOverAgree` | week_8/lab_week_8.py:75-80 | a sum of counts depends only on the counts it adds |
| `LabWeek8.HistogramTotal` | week_8/lab_week_8.py:75-80 | the counts add up to the length of the list |
| `LabWeek8.HistogramExample` | week_8/lab_week_8.py:87-96 | `[1,2,3,1,2,3,4]` gives `{1:2, 2:2, 3:2, 4:1}` |
| `CarLab.Stepped` | week_6/lab_week_6_debugging.py:31-33 | a step adds the speed to the odometer and 1 to the time, keeping the speed |
| `CarLab.Average` | week_6/lab_week_6_debugging.py:35-36 | the average exists iff time is not 0, and then times the time it gives the odometer |
| `CarLab.ParseCommand` | week_6/lab_week_6_debugging.py:43-47 | a command is a single character that upper-cases to its letter |
| `CarLab.ParseLetters` | week_6/lab_week_6_debugging.py:43-47 | each letter is read as its command in either case, and no line of another length is a command |
| `CarLab.RespondSteps` | week_6/lab_week_6_debugging.py:45-59 | each recognised command, the read-only O and S included, is followed by exactly one step; unrecognised input changes nothing; only S at time 0 crashes; the speed moves only for A and B |
| `CarLab.Commands` | week_6/lab_week_6_debugging.py:45-47 | counts the lines that are commands: every line iff all of them are commands, none iff none is |
| `CarLab.RunCounts` | week_6/lab_week_6_debugging.py:42-59 | once the car has stepped, the loop never crashes; the time counts the commands; the speed is 5 up per A and 5 down per B, with no lower bound |
| `CarLab.SpeedFirstCrashes` | week_6/lab_week_6_debugging.py:56-58 | asking for the average speed first ends the program at once, with nothing changed |
| `CarLab.Car.constructor` | week_6/lab_week_6_debugging.py:20-23 | speed as given (0 by default), odometer and time 0 |
| `CarLab.Car.Accelerate` | week_6/lab_week_6_debugging.py:25-26 | speed + 5, nothing else |
| `CarLab.Car.Brake` | week_6/lab_week_6_debugging.py:28-29 | speed − 5, nothing else, even below zero |
| `CarLab.Car.Step` | week_6/lab_week_6_debugging.py:31-33 | the step of `Stepped` |
| `CarLab.Car.AverageSpeed` | week_6/lab_week_6_debugging.py:35-36 | the average of `Average`, None where Python divides by zero |
| `CarLab.Car.Handle` | week_6/lab_week_6_debugging.py:43-59 | one pass of the loop, as `Respond` says |
| `CarLab.Car.Drive` | week_6/lab_week_6_debugging.py:42-59 | the whole loop over the typed lines, as `Run` says, ending at a crash |

## Left out

- Console UIs, menus, `main.py` files and every `print`: the output is a side effect. Only the controller's returned `(success, message)` pairs and the car loop's replies are modelled.
- `datetime.now()`: it is a `now` parameter everywhere. Sub-second precision is dropped, because Instants are whole seconds.
- Time zones are not modelled; datetimes are naive.
- `strptime` is modelled on the strict `YYYY-MM-DD` shape only. Python also accepts one-digit months and days, which the model treats as a bad date.
- `strftime("%Y")` is written with four digits. The C library leaves years below 1000 unpadded; the model assumes years 1000–9999 for written dates.
- Text handling covers ASCII letters for casing and ASCII digits for `int()`. Unicode case mappings such as `"ß".upper() == "SS"` and non-ASCII digits are not modelled.
- File I/O and the `csv` module's quoting are not modelled. A file is a sequence of rows, and each row maps the nine columns to strings. A short CSV row whose missing cells `DictReader` fills with `None` is not modelled; missing columns are absent keys.
- I/O errors in `save_all_tasks` are swallowed by its `except Exception`, so a save always replaces the file.
- The pickle DAO is opaque serialization.
- `AbstractDAO.get_storage_info` of the portfolio and `TaskTestDAO.save_all_tasks` only format or print text.
- The week-8 `TaskTestDAO` is a printing fixture of three tasks whose dates depend on the clock.
- `PriorityTask.get_priority_descriptions` returns the fixed mapping, which is the constant `Tasks.PriorityMapping`.
- `get_uncompleted_tasks` and `get_all_tasks` of the controller only return the list's own views, which `TaskListWeek7.TaskList.UncompletedTasks` models.
- `TaskController.TaskManagerController.SaveTasksToDao`: an omitted `file_path` or `dao_type` (Python `None`) is modelled as the empty text, which the code treats the same way because both are falsy.
- `CarLab.Car.AverageSpeed`: the Python result is a float. The model gives the exact rational `odometer / time`, so float rounding is not modelled.
- `PyText.IntToString`: CPython's `str()` of an integer with more than 4300 digits raises ValueError; the model prints any integer. Every integer the core prints is a count, a priority level or a day count, far below that length. `int()` uses the same limit as `PyText.MaxStrDigits`, the interpreter's default; a limit changed with `sys.set_int_max_str_digits` or an interpreter older than the limit is not modelled.
- `Tasks.Task.constructor`: the three Python constructors are one constructor over the value that `InitTask`, `InitRecurringTask` or `InitPriorityTask` builds, and those functions carry the constructors' contracts.
- The `__str__` methods that embed `datetime` reprs are not modelled. The week-5 list's `__str__` is modelled, because it contains no dates.
