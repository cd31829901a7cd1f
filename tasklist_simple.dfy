/** The week-7 console app's own Task and TaskList: a task is a title and a completed flag,
    and the list ignores indices out of range. */
module TaskListSimple {
  class Task {
    var title: string
    var completed: bool

    /** `Task(title, completed=False)`. */
    constructor (title: string, completed: bool)
      ensures this.title == title && this.completed == completed
    {
      this.title := title;
      this.completed := completed;
    }
  }

  /** `[task for task in ts if not task.completed]`. */
  function Uncompleted(ts: seq<Task>): (r: seq<Task>)
    reads set t | t in ts
    ensures |r| <= |ts|
  {
    if ts == [] then [] else (if ts[0].completed then [] else [ts[0]]) + Uncompleted(ts[1..])
  }

  /** The uncompleted view holds exactly the tasks not completed. */
  lemma {:induction false} UncompletedMembers(ts: seq<Task>)
    ensures forall t :: t in Uncompleted(ts) <==> t in ts && !t.completed
  {
    if ts != [] {
      UncompletedMembers(ts[1..]);
      assert ts == [ts[0]] + ts[1..];
    }
  }

  /** The uncompleted view keeps list order: it distributes over concatenation. */
  lemma {:induction false} UncompletedAppend(a: seq<Task>, b: seq<Task>)
    ensures Uncompleted(a + b) == Uncompleted(a) + Uncompleted(b)
  {
    if a == [] {
      assert a + b == b;
    } else {
      assert (a + b)[1..] == a[1..] + b;
      UncompletedAppend(a[1..], b);
    }
  }

  class TaskList {
    var tasks: seq<Task>

    constructor ()
      ensures tasks == []
    {
      tasks := [];
    }

    /** `add_task(task)`: appended at the end. */
    method AddTask(task: Task)
      modifies this
      ensures tasks == old(tasks) + [task]
    {
      tasks := tasks + [task];
    }

    /** `remove_task(index)`: deletes position `index` when `0 <= index < len`, otherwise
        does nothing (a negative index is never used). */
    method RemoveTask(index: int)
      modifies this
      ensures 0 <= index < |old(tasks)| ==> tasks == old(tasks)[..index] + old(tasks)[index + 1..]
      ensures !(0 <= index < |old(tasks)|) ==> tasks == old(tasks)
    {
      if 0 <= index < |tasks| {
        tasks := tasks[..index] + tasks[index + 1..];
      }
    }

    /** `complete_task(index)`: marks that task, when in range; no other task changes. */
    method CompleteTask(index: int)
      modifies if 0 <= index < |tasks| then {tasks[index]} else {}
      ensures 0 <= index < |tasks| ==> tasks[index].completed
      ensures forall t :: t in tasks && !(0 <= index < |tasks| && t == tasks[index]) ==>
                t.completed == old(t.completed)
      ensures forall t :: t in tasks ==> t.title == old(t.title)
    {
      if 0 <= index < |tasks| {
        tasks[index].completed := true;
      }
    }

    /** `check_task_index(index)`. */
    predicate CheckTaskIndex(index: int)
      reads this
    {
      0 <= index < |tasks|
    }

    /** The `uncompleted_tasks` property. */
    function UncompletedTasks(): (r: seq<Task>)
      reads this, set t | t in tasks
      ensures forall i :: 0 <= i < |r| ==> r[i] in tasks && !r[i].completed
      ensures forall i :: 0 <= i < |tasks| && !tasks[i].completed ==> tasks[i] in r
    {
      UncompletedMembers(tasks);
      UncompletedPositions(tasks);
      Uncompleted(tasks)
    }
  }

  /** UncompletedMembers by position. */
  lemma UncompletedPositions(ts: seq<Task>)
    ensures forall i :: 0 <= i < |Uncompleted(ts)| ==> Uncompleted(ts)[i] in ts && !Uncompleted(ts)[i].completed
    ensures forall i :: 0 <= i < |ts| && !ts[i].completed ==> ts[i] in Uncompleted(ts)
  {
    var r := Uncompleted(ts);
    UncompletedMembers(ts);
    forall i | 0 <= i < |r| ensures r[i] in ts && !r[i].completed {
      assert r[i] in r;
    }
    forall i | 0 <= i < |ts| && !ts[i].completed ensures ts[i] in r {
      assert ts[i] in ts;
    }
  }
}
