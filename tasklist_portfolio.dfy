/** The portfolio TaskList: owned by an Owner object whose task-list counter it bumps when
    created. Printed confirmations are left out. */
module TaskListPortfolio {
  import opened Outcomes
  import opened PyLists
  import opened Tasks
  import opened Users

  class TaskList {
    var owner: Owner
    var tasks: seq<Task>

    /** `TaskList(owner)`: empty, and the owner has created one more task list. */
    constructor (owner: Owner)
      modifies owner
      ensures this.owner == owner && tasks == []
      ensures owner.tasksCreated == old(owner.tasksCreated) + 1
      ensures owner.name == old(owner.name) && owner.email == old(owner.email)
      ensures owner.dateJoined == old(owner.dateJoined) && owner.permissions == old(owner.permissions)
    {
      this.owner := owner;
      tasks := [];
      new;
      owner.CreateTaskList();
    }

    /** `add_task(task)`: appended at the end. */
    method AddTask(task: Task)
      modifies this
      ensures tasks == old(tasks) + [task] && owner == old(owner)
    {
      tasks := tasks + [task];
    }

    /** `remove_task(ix)`: `del self.tasks[ix]` with Python's index rules; an IndexError is
        caught and the list kept. `removed` is the task deleted, if any. */
    method RemoveTask(ix: int) returns (removed: Option<Task>)
      modifies this
      ensures tasks == DeleteAt(old(tasks), ix) && owner == old(owner)
      ensures removed.Some? <==> -|old(tasks)| <= ix < |old(tasks)|
      ensures removed.Some? ==> removed.value == old(tasks)[PyIndex(ix, |old(tasks)|).value]
    {
      var k := PyIndex(ix, |tasks|);
      if k.None? {
        return None;
      }
      removed := Some(tasks[k.value]);
      tasks := Delete(tasks, k.value);
    }

    /** `get_task(index)`: the IndexError for anything outside `0 <= index < len`. */
    function GetTask(index: int): (r: Result<Task>)
      reads this
      ensures r.Ok? <==> 0 <= index < |tasks|
      ensures r.Ok? ==> r.value == tasks[index]
      ensures r.Err? ==> r.message == "Task index out of range"
    {
      if 0 <= index < |tasks| then Ok(tasks[index]) else Err("Task index out of range")
    }
  }
}
