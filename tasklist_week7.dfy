/** The week-7 TaskList (the interface the controller is written against): a title-cased
    owner name and an ordered list of task objects. Printed confirmations are left out. */
module TaskListWeek7 {
  import opened Outcomes
  import opened PyText
  import opened PyLists
  import opened Tasks
  import opened TaskViews

  class TaskList {
    var owner: string
    var tasks: seq<Task>

    constructor (owner: string)
      ensures this.owner == Title(owner) && tasks == []
    {
      this.owner := Title(owner);
      tasks := [];
    }

    /** `add_task(task)`: appended at the end; earlier tasks keep their places. */
    method AddTask(task: Task)
      modifies this
      ensures tasks == old(tasks) + [task] && owner == old(owner)
    {
      tasks := tasks + [task];
    }

    /** `remove_task(ix)`: `del self.tasks[ix]` with Python's index rules, negatives counting
        from the end; an IndexError is caught and the list kept. `removed` is the task
        deleted, if any. */
    method RemoveTask(ix: int) returns (removed: Option<Task>)
      modifies this
      ensures tasks == DeleteAt(old(tasks), ix) && owner == old(owner)
      ensures removed.Some? <==> -|old(tasks)| <= ix < |old(tasks)|
      ensures removed.Some? ==> removed.value == old(tasks)[PyIndex(ix, |old(tasks)|).value]
    {
      var k := PyIndex(ix, |tasks|);
      if k.None? {
        return None;
      }
      removed := Some(tasks[k.value]);
      tasks := Delete(tasks, k.value);
    }

    /** The `uncompleted_tasks` property: the tasks not completed, in list order. */
    function UncompletedTasks(): (r: seq<Task>)
      reads this, set t | t in tasks
      ensures forall i :: 0 <= i < |r| ==> r[i] in tasks && !r[i].completed
      ensures forall i :: 0 <= i < |tasks| && !tasks[i].completed ==> tasks[i] in r
      ensures r == Filter(tasks, Uncompleted)
    {
      FilterIndices(tasks, Uncompleted);
      Filter(tasks, Uncompleted)
    }

    /** `check_task_index(ix)`. */
    predicate CheckTaskIndex(ix: int)
      reads this
    {
      0 <= ix < |tasks|
    }

    /** `get_task(index)`: only non-negative indices below the length; anything else is the
        IndexError, negatives included. */
    function GetTask(index: int): (r: Result<Task>)
      reads this
      ensures r.Ok? <==> 0 <= index < |tasks|
      ensures r.Ok? ==> r.value == tasks[index]
      ensures r.Err? ==> r.message == "Task index out of range"
    {
      if CheckTaskIndex(index) then Ok(tasks[index]) else Err("Task index out of range")
    }
  }

  /** Removing by an index from the end is removing by its positive counterpart. */
  lemma NegativeIndexFromEnd<T>(xs: seq<T>, ix: int)
    requires -|xs| <= ix < 0
    ensures DeleteAt(xs, ix) == DeleteAt(xs, |xs| + ix)
    ensures DeleteAt(xs, ix) == xs[..|xs| + ix] + xs[|xs| + ix + 1..]
  {
  }
}
