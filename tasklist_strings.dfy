/** The week-5 TaskList: a list of task strings with its owner's name and email. */
module TaskListStrings {
  import opened Outcomes
  import opened PyText
  import opened PyLists

  class TaskList {
    var tasks: seq<string>
    var ownerName: string
    var ownerEmail: string

    /** `TaskList(owner)`; the owner is kept as its name and email, as given. */
    constructor (ownerName: string, ownerEmail: string)
      ensures tasks == [] && this.ownerName == ownerName && this.ownerEmail == ownerEmail
    {
      tasks := [];
      this.ownerName := ownerName;
      this.ownerEmail := ownerEmail;
    }

    /** `add_task(task)`: appended at the end. */
    method AddTask(task: string)
      modifies this
      ensures tasks == old(tasks) + [task]
      ensures ownerName == old(ownerName) && ownerEmail == old(ownerEmail)
    {
      tasks := tasks + [task];
    }

    /** `remove_task(task)`: the first occurrence goes when there is one; otherwise nothing
        changes. */
    method RemoveTask(task: string)
      modifies this
      ensures task in old(tasks) ==> tasks == Delete(old(tasks), IndexOf(old(tasks), task))
      ensures task !in old(tasks) ==> tasks == old(tasks)
      ensures ownerName == old(ownerName) && ownerEmail == old(ownerEmail)
    {
      if task in tasks {
        RemoveFirstDeletesFirst(tasks, task);
        tasks := RemoveFirst(tasks, task);
      }
    }

    /** `get_task(index)`: None outside `0 <= index < len`. */
    function GetTask(index: int): (r: Option<string>)
      reads this
      ensures r.Some? <==> 0 <= index < |tasks|
      ensures r.Some? ==> r.value == tasks[index]
    {
      if 0 <= index < |tasks| then Some(tasks[index]) else None
    }

    /** `__str__`. */
    function Render(): string
      reads this
    {
      RenderList(ownerName, ownerEmail, tasks)
    }
  }

  /** The line `"k. task"` for each task, numbered from `start`. */
  function NumberedLines(tasks: seq<string>, start: nat): (lines: seq<string>)
    ensures |lines| == |tasks|
    ensures forall i :: 0 <= i < |tasks| ==> lines[i] == NatToString(start + i) + ". " + tasks[i]
  {
    if tasks == [] then [] else [NatToString(start) + ". " + tasks[0]] + NumberedLines(tasks[1..], start + 1)
  }

  /** The header line of the rendering. */
  function Header(ownerName: string, ownerEmail: string): string {
    "TaskList owned by " + ownerName + " (" + ownerEmail + "):\n"
  }

  /** The header, then the numbered lines joined by newlines, or "No tasks yet." when the
      joined text is empty. */
  function RenderList(ownerName: string, ownerEmail: string, tasks: seq<string>): (s: string)
    ensures tasks == [] ==> s == Header(ownerName, ownerEmail) + "No tasks yet."
    ensures tasks != [] ==> s == Header(ownerName, ownerEmail) + Join(NumberedLines(tasks, 1), '\n')
  {
    var body := Join(NumberedLines(tasks, 1), '\n');
    JoinStartsWithFirst(NumberedLines(tasks, 1), '\n');
    Header(ownerName, ownerEmail) + (if body == "" then "No tasks yet." else body)
  }

  /** A join of pieces starts with the first piece. */
  lemma JoinStartsWithFirst(parts: seq<string>, sep: char)
    ensures parts != [] ==> |Join(parts, sep)| >= |parts[0]| && Join(parts, sep)[..|parts[0]|] == parts[0]
  {
    if |parts| > 1 {
      assert Join(parts, sep) == parts[0] + ([sep] + Join(parts[1..], sep));
    }
  }

  /** The body of the rendering splits back into one numbered line per task, in order,
      when no task contains a newline. */
  lemma RenderedLines(ownerName: string, ownerEmail: string, tasks: seq<string>)
    requires tasks != []
    requires forall i :: 0 <= i < |tasks| ==> '\n' !in tasks[i]
    ensures var s := RenderList(ownerName, ownerEmail, tasks);
      var h := Header(ownerName, ownerEmail);
      s[..|h|] == h && SplitOn(s[|h|..], '\n') == NumberedLines(tasks, 1)
  {
    var lines := NumberedLines(tasks, 1);
    var h := Header(ownerName, ownerEmail);
    var body := Join(lines, '\n');
    assert RenderList(ownerName, ownerEmail, tasks) == h + body;
    assert (h + body)[..|h|] == h && (h + body)[|h|..] == body;
    LinesHaveNoNewline(tasks, 1);
    SplitJoin(lines, '\n');
  }

  /** A numbered line holds a newline only if its task does. */
  lemma LinesHaveNoNewline(tasks: seq<string>, start: nat)
    requires forall i :: 0 <= i < |tasks| ==> '\n' !in tasks[i]
    ensures forall i :: 0 <= i < |tasks| ==> '\n' !in NumberedLines(tasks, start)[i]
  {
    var lines := NumberedLines(tasks, start);
    forall i | 0 <= i < |tasks| ensures '\n' !in lines[i] {
      var n := NatToString(start + i);
      assert lines[i] == n + ". " + tasks[i];
      assert forall j :: 0 <= j < |n| ==> IsDigit(n[j]);
    }
  }
}
