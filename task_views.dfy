/** Derived views of a list of task objects: the list comprehensions and `sum(1 for ...)`
    counts of the task list and the controller, and the controller's stable sort of the
    priority tasks by level. Views keep the objects themselves, in list order. */
module TaskViews {
  import opened Calendar
  import opened Tasks

  /** The condition of one comprehension. */
  datatype Selector =
    | Uncompleted              // not task.completed
    | Completed                // task.completed
    | OverdueAt(now: Instant)  // task.date_due < now and not task.completed
    | OfType(name: string)     // task.get_task_type() == name
    | AtLevel(level: Level)    // isinstance(task, PriorityTask) and task.priority_level == level

  predicate Selects(sel: Selector, t: Task)
    reads t
  {
    match sel
    case Uncompleted => !t.completed
    case Completed => t.completed
    case OverdueAt(now) => t.dateDue < now && !t.completed
    case OfType(name) => t.GetTaskType() == name
    case AtLevel(level) => t.variant.Priority? && t.variant.level == level
  }

  /** `[t for t in ts if <sel>]`. */
  function Filter(ts: seq<Task>, sel: Selector): (r: seq<Task>)
    reads set t | t in ts
    ensures |r| <= |ts|
  {
    if ts == [] then []
    else (if Selects(sel, ts[0]) then [ts[0]] else []) + Filter(ts[1..], sel)
  }

  /** The filter holds exactly the selected tasks of the list. */
  lemma {:induction false} FilterMembers(ts: seq<Task>, sel: Selector)
    ensures forall t :: t in Filter(ts, sel) <==> t in ts && Selects(sel, t)
  {
    if ts != [] {
      FilterMembers(ts[1..], sel);
      assert ts == [ts[0]] + ts[1..];
    }
  }

  /** FilterMembers by position. */
  lemma FilterIndices(ts: seq<Task>, sel: Selector)
    ensures forall i :: 0 <= i < |Filter(ts, sel)| ==> Filter(ts, sel)[i] in ts && Selects(sel, Filter(ts, sel)[i])
    ensures forall i :: 0 <= i < |ts| && Selects(sel, ts[i]) ==> ts[i] in Filter(ts, sel)
  {
    var r := Filter(ts, sel);
    FilterMembers(ts, sel);
    forall i | 0 <= i < |r| ensures r[i] in ts && Selects(sel, r[i]) {
      assert r[i] in r;
    }
    forall i | 0 <= i < |ts| && Selects(sel, ts[i]) ensures ts[i] in r {
      assert ts[i] in ts;
    }
  }

  /** A one-task list filters to itself or to nothing. */
  lemma FilterSingleton(t: Task, sel: Selector)
    ensures Filter([t], sel) == if Selects(sel, t) then [t] else []
  {
    assert [t][1..] == [];
  }

  /** A list none of whose tasks is selected filters to nothing. */
  lemma {:induction false} FilterNone(ts: seq<Task>, sel: Selector)
    requires forall t :: t in ts ==> !Selects(sel, t)
    ensures Filter(ts, sel) == []
  {
    if ts != [] {
      FilterNone(ts[1..], sel);
    }
  }

  /** `sum(1 for t in ts if <sel>)`. */
  function Count(ts: seq<Task>, sel: Selector): nat
    reads set t | t in ts
  {
    |Filter(ts, sel)|
  }

  /** Filtering keeps list order: it distributes over concatenation. */
  lemma {:induction false} FilterAppend(a: seq<Task>, b: seq<Task>, sel: Selector)
    ensures Filter(a + b, sel) == Filter(a, sel) + Filter(b, sel)
  {
    if a == [] {
      assert a + b == b;
    } else {
      assert (a + b)[0] == a[0];
      assert (a + b)[1..] == a[1..] + b;
      FilterAppend(a[1..], b, sel);
    }
  }

  /** A list whose every task is selected is its own filter. */
  lemma {:induction false} FilterAll(ts: seq<Task>, sel: Selector)
    requires forall t :: t in ts ==> Selects(sel, t)
    ensures Filter(ts, sel) == ts
  {
    if ts != [] {
      FilterAll(ts[1..], sel);
    }
  }

  /** Filtering by a condition implied by a second one, then by the second, is filtering by
      the second alone. */
  lemma {:induction false} FilterFilter(ts: seq<Task>, outer: Selector, inner: Selector)
    requires forall t :: t in ts && Selects(inner, t) ==> Selects(outer, t)
    ensures Filter(Filter(ts, outer), inner) == Filter(ts, inner)
  {
    if ts != [] {
      FilterFilter(ts[1..], outer, inner);
      assert ts[0] in ts;
      if Selects(outer, ts[0]) {
        assert Filter(ts, outer) == [ts[0]] + Filter(ts[1..], outer);
        FilterAppend([ts[0]], Filter(ts[1..], outer), inner);
        FilterSingleton(ts[0], inner);
        assert Filter(Filter(ts, outer), inner) == Filter([ts[0]], inner) + Filter(ts[1..], inner);
      } else {
        assert !Selects(inner, ts[0]);
        assert Filter(ts, outer) == Filter(ts[1..], outer);
      }
      assert Filter(ts, inner) == (if Selects(inner, ts[0]) then [ts[0]] else []) + Filter(ts[1..], inner);
    }
  }

  /** A condition implied by another selects at least as many tasks. */
  lemma {:induction false} CountMonotonic(ts: seq<Task>, weaker: Selector, stronger: Selector)
    requires forall t :: t in ts && Selects(stronger, t) ==> Selects(weaker, t)
    ensures Count(ts, stronger) <= Count(ts, weaker)
  {
    if ts != [] {
      CountMonotonic(ts[1..], weaker, stronger);
    }
  }

  /** Every task is exactly one of the three types, so the type counts add up to the total. */
  lemma {:induction false} TypeCountsPartition(ts: seq<Task>)
    ensures Count(ts, OfType("Task")) + Count(ts, OfType("RecurringTask")) + Count(ts, OfType("PriorityTask"))
            == |ts|
  {
    if ts != [] {
      TypeCountsPartition(ts[1..]);
    }
  }

  /** Every priority task has exactly one of the three levels. */
  lemma {:induction false} LevelCountsPartition(ts: seq<Task>)
    ensures Count(ts, AtLevel(3)) + Count(ts, AtLevel(2)) + Count(ts, AtLevel(1)) == Count(ts, OfType("PriorityTask"))
  {
    if ts != [] {
      LevelCountsPartition(ts[1..]);
      CountStep(ts, AtLevel(3));
      CountStep(ts, AtLevel(2));
      CountStep(ts, AtLevel(1));
      CountStep(ts, OfType("PriorityTask"));
    }
  }

  /** Counting the first task, then the rest. */
  lemma CountStep(ts: seq<Task>, sel: Selector)
    requires ts != []
    ensures Count(ts, sel) == (if Selects(sel, ts[0]) then 1 else 0) + Count(ts[1..], sel)
  {
  }

  /** The sort key of a priority task; other tasks never reach the sort. */
  function LevelOf(t: Task): int
    reads t
  {
    if t.variant.Priority? then t.variant.level else 0
  }

  predicate AllPriority(ts: seq<Task>)
    reads set t | t in ts
  {
    forall i :: 0 <= i < |ts| ==> ts[i].variant.Priority?
  }

  /** Ordered by level, high to low. */
  predicate SortedByLevelDescending(ts: seq<Task>)
    reads set t | t in ts
  {
    forall i, j :: 0 <= i < j < |ts| ==> LevelOf(ts[i]) >= LevelOf(ts[j])
  }

  /** `ps.sort(key=lambda t: t.priority_level, reverse=True)`. Python's sort is stable and
      `reverse=True` keeps equal keys in their original order, so the result is the level-3
      tasks, then the level-2 tasks, then the level-1 tasks, each group in list order. */
  function SortByLevelDescending(ps: seq<Task>): (r: seq<Task>)
    reads set t | t in ps
    ensures SortedByLevelDescending(r)
    ensures AllPriority(r)
    ensures forall level: Level :: Filter(r, AtLevel(level)) == Filter(ps, AtLevel(level))
  {
    var high, medium, low := Filter(ps, AtLevel(3)), Filter(ps, AtLevel(2)), Filter(ps, AtLevel(1));
    FilterMembers(ps, AtLevel(3));
    FilterMembers(ps, AtLevel(2));
    FilterMembers(ps, AtLevel(1));
    var r := high + medium + low;
    assert forall i :: 0 <= i < |r| ==> LevelOf(r[i]) == LevelAt(high, medium, low, i) && r[i].variant.Priority? by {
      forall i | 0 <= i < |r|
        ensures LevelOf(r[i]) == LevelAt(high, medium, low, i) && r[i].variant.Priority?
      {
        if i < |high| {
          assert r[i] == high[i] && high[i] in high;
          assert Selects(AtLevel(3), r[i]);
        } else if i < |high| + |medium| {
          assert r[i] == medium[i - |high|] && medium[i - |high|] in medium;
          assert Selects(AtLevel(2), r[i]);
        } else {
          assert r[i] == low[i - |high| - |medium|] && low[i - |high| - |medium|] in low;
          assert Selects(AtLevel(1), r[i]);
        }
      }
    }
    BucketsStable(ps, high, medium, low);
    r
  }

  /** The level of position `i` of the three groups laid end to end. */
  function LevelAt(high: seq<Task>, medium: seq<Task>, low: seq<Task>, i: int): int {
    if i < |high| then 3 else if i < |high| + |medium| then 2 else 1
  }

  /** Each group of the sort, filtered again by any level, holds that level's tasks only. */
  lemma BucketsStable(ps: seq<Task>, high: seq<Task>, medium: seq<Task>, low: seq<Task>)
    requires high == Filter(ps, AtLevel(3)) && medium == Filter(ps, AtLevel(2)) && low == Filter(ps, AtLevel(1))
    ensures forall level: Level :: Filter(high + medium + low, AtLevel(level)) == Filter(ps, AtLevel(level))
  {
    forall level: Level
      ensures Filter(high + medium + low, AtLevel(level)) == Filter(ps, AtLevel(level))
    {
      FilterAppend(high + medium, low, AtLevel(level));
      FilterAppend(high, medium, AtLevel(level));
      OneBucket(ps, 3, level);
      OneBucket(ps, 2, level);
      OneBucket(ps, 1, level);
    }
  }

  /** Filtering one level's group by a level gives that group or nothing. */
  lemma OneBucket(ps: seq<Task>, bucket: Level, level: Level)
    ensures Filter(Filter(ps, AtLevel(bucket)), AtLevel(level))
            == if bucket == level then Filter(ps, AtLevel(level)) else []
  {
    if bucket == level {
      FilterFilter(ps, AtLevel(bucket), AtLevel(level));
    } else {
      FilterMembers(ps, AtLevel(bucket));
      var f := Filter(ps, AtLevel(bucket));
      forall t | t in f ensures !Selects(AtLevel(level), t) {
        assert Selects(AtLevel(bucket), t);
      }
      FilterNone(f, AtLevel(level));
    }
  }

  /** A list of priority tasks already sorted by level, high to low, is its three groups. */
  lemma {:induction false} SortedIsBuckets(r: seq<Task>)
    requires AllPriority(r) && SortedByLevelDescending(r)
    ensures r == Filter(r, AtLevel(3)) + Filter(r, AtLevel(2)) + Filter(r, AtLevel(1))
  {
    if r != [] {
      SortedTail(r);
      SortedIsBuckets(r[1..]);
      BucketsCons(r[0], r[1..]);
      assert r == [r[0]] + r[1..];
    }
  }

  /** Putting a priority task no lower than any of a list's tasks in front of the list's
      three groups puts it at the head of its own group. */
  lemma BucketsCons(x: Task, rest: seq<Task>)
    requires x.variant.Priority?
    requires forall t :: t in rest ==> LevelOf(t) <= LevelOf(x)
    requires rest == Filter(rest, AtLevel(3)) + Filter(rest, AtLevel(2)) + Filter(rest, AtLevel(1))
    ensures [x] + rest == Filter([x] + rest, AtLevel(3)) + Filter([x] + rest, AtLevel(2)) + Filter([x] + rest, AtLevel(1))
  {
    FilterCons(x, rest, AtLevel(3));
    FilterCons(x, rest, AtLevel(2));
    FilterCons(x, rest, AtLevel(1));
    var h, m, l := Filter(rest, AtLevel(3)), Filter(rest, AtLevel(2)), Filter(rest, AtLevel(1));
    if LevelOf(x) < 3 {
      NoneAbove(rest, 3);
    }
    if LevelOf(x) < 2 {
      NoneAbove(rest, 2);
    }
    ConsBuckets(x, h, m, l, LevelOf(x));
  }

  /** Filtering a list with one more task in front. */
  lemma FilterCons(x: Task, rest: seq<Task>, sel: Selector)
    ensures Filter([x] + rest, sel) == (if Selects(sel, x) then [x] else []) + Filter(rest, sel)
  {
    assert ([x] + rest)[0] == x && ([x] + rest)[1..] == rest;
  }

  /** The list algebra behind BucketsCons: the new task joins the front of its own group. */
  lemma ConsBuckets(x: Task, h: seq<Task>, m: seq<Task>, l: seq<Task>, level: int)
    requires level == 3 || (level == 2 && h == []) || (level == 1 && h == [] && m == [])
    ensures [x] + (h + m + l) == (if level == 3 then [x] + h else h) + (if level == 2 then [x] + m else m)
                                 + (if level == 1 then [x] + l else l)
  {
  }

  /** The tail of a sorted list of priority tasks is one too, below its head. */
  lemma SortedTail(r: seq<Task>)
    requires r != [] && AllPriority(r) && SortedByLevelDescending(r)
    ensures AllPriority(r[1..]) && SortedByLevelDescending(r[1..])
    ensures r[0].variant.Priority?
    ensures forall t :: t in r[1..] ==> LevelOf(t) <= LevelOf(r[0])
  {
    var rest := r[1..];
    assert forall i :: 0 <= i < |rest| ==> rest[i] == r[i + 1];
    forall t | t in rest ensures LevelOf(t) <= LevelOf(r[0]) {
      var i :| 0 <= i < |rest| && rest[i] == t;
      assert r[i + 1] == t;
    }
  }

  /** No task of a level above every task's level is selected. */
  lemma NoneAbove(ts: seq<Task>, level: Level)
    requires forall t :: t in ts ==> LevelOf(t) < level
    ensures Filter(ts, AtLevel(level)) == []
  {
    FilterNone(ts, AtLevel(level));
  }

  /** The sort is the only stable one: any list of priority tasks ordered by level, high to
      low, that keeps each level's tasks in their original order is the sort's result. */
  lemma SortUnique(ps: seq<Task>, r: seq<Task>)
    requires AllPriority(r) && SortedByLevelDescending(r)
    requires forall level: Level :: Filter(r, AtLevel(level)) == Filter(ps, AtLevel(level))
    ensures r == SortByLevelDescending(ps)
  {
    SortedIsBuckets(r);
    assert Filter(r, AtLevel(3)) == Filter(ps, AtLevel(3));
    assert Filter(r, AtLevel(2)) == Filter(ps, AtLevel(2));
    assert Filter(r, AtLevel(1)) == Filter(ps, AtLevel(1));
  }

  /** The sort of a list of priority tasks is a permutation of it. */
  lemma SortPermutes(ps: seq<Task>)
    requires AllPriority(ps)
    ensures multiset(SortByLevelDescending(ps)) == multiset(ps)
  {
    BucketsMultiset(ps);
  }

  /** The three level groups of a list of priority tasks share out its tasks. */
  lemma {:induction false} BucketsMultiset(ps: seq<Task>)
    requires AllPriority(ps)
    ensures multiset(Filter(ps, AtLevel(3))) + multiset(Filter(ps, AtLevel(2))) + multiset(Filter(ps, AtLevel(1)))
            == multiset(ps)
  {
    if ps != [] {
      var x, rest := ps[0], ps[1..];
      assert AllPriority(rest) by {
        assert forall i :: 0 <= i < |rest| ==> rest[i] == ps[i + 1];
      }
      BucketsMultiset(rest);
      assert ps == [x] + rest;
      ConsMultiset(x, Filter(rest, AtLevel(3)), Filter(rest, AtLevel(2)), Filter(rest, AtLevel(1)), LevelOf(x));
    }
  }

  /** The multiset algebra behind BucketsMultiset: the new task joins exactly one group. */
  lemma ConsMultiset(x: Task, h: seq<Task>, m: seq<Task>, l: seq<Task>, level: int)
    requires 1 <= level <= 3
    ensures multiset((if level == 3 then [x] else []) + h) + multiset((if level == 2 then [x] else []) + m)
            + multiset((if level == 1 then [x] else []) + l)
            == multiset([x]) + (multiset(h) + multiset(m) + multiset(l))
  {
  }

  /** The priority tasks of a list are the tasks of type "PriorityTask". */
  lemma PriorityFilterIsPriority(ts: seq<Task>)
    ensures AllPriority(Filter(ts, OfType("PriorityTask")))
  {
    var f := Filter(ts, OfType("PriorityTask"));
    assert forall i :: 0 <= i < |f| ==> f[i] in f;
  }

  /** `get_priority_tasks()`: the priority tasks, sorted by level from high to low, stable. */
  function PriorityTasks(ts: seq<Task>): (r: seq<Task>)
    reads set t | t in ts
    ensures SortedByLevelDescending(r)
    ensures forall level: Level :: Filter(r, AtLevel(level)) == Filter(ts, AtLevel(level))
    ensures multiset(r) == multiset(Filter(ts, OfType("PriorityTask")))
  {
    var ps := Filter(ts, OfType("PriorityTask"));
    PriorityFilterIsPriority(ts);
    FilterMembers(ts, OfType("PriorityTask"));
    SortPermutes(ps);
    forall level: Level ensures Filter(ps, AtLevel(level)) == Filter(ts, AtLevel(level)) {
      FilterFilter(ts, OfType("PriorityTask"), AtLevel(level));
    }
    SortByLevelDescending(ps)
  }

  /** The dictionary `get_task_count()` returns. */
  datatype TaskCounts = TaskCounts(
    total: nat, uncompleted: nat, completed: nat, overdue: nat,
    regular: nat, recurring: nat, priority: nat,
    highPriority: nat, mediumPriority: nat, lowPriority: nat)

  /** `get_task_count()`; `completed` is computed as total minus uncompleted. */
  function CountTasks(ts: seq<Task>, now: Instant): (c: TaskCounts)
    reads set t | t in ts
    ensures c.total == |ts| && c.completed == Count(ts, Completed)
    ensures c.uncompleted + c.completed == c.total
    ensures c.regular + c.recurring + c.priority == c.total
    ensures c.highPriority + c.mediumPriority + c.lowPriority == c.priority
    ensures c.overdue <= c.uncompleted
  {
    CompletedSplit(ts);
    TypeCountsPartition(ts);
    LevelCountsPartition(ts);
    CountMonotonic(ts, Uncompleted, OverdueAt(now));
    var uncompleted := Count(ts, Uncompleted);
    TaskCounts(
      |ts|, uncompleted, |ts| - uncompleted, Count(ts, OverdueAt(now)),
      Count(ts, OfType("Task")), Count(ts, OfType("RecurringTask")), Count(ts, OfType("PriorityTask")),
      Count(ts, AtLevel(3)), Count(ts, AtLevel(2)), Count(ts, AtLevel(1)))
  }

  /** Every task is either completed or not. */
  lemma {:induction false} CompletedSplit(ts: seq<Task>)
    ensures Count(ts, Uncompleted) + Count(ts, Completed) == |ts|
  {
    if ts != [] {
      CompletedSplit(ts[1..]);
    }
  }
}
