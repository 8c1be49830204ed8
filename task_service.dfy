/**
 * The task service (C# `TaskService`): an in-memory list of task objects.
 * `Create` and `Delete` change the list, `Complete` and `SetDueDate` change
 * one task object in it, and the queries return the tasks newest first. The
 * lock only serialises calls and the `TasksChanged` event only notifies
 * listeners; neither is modelled. Queries return snapshots of the tasks.
 */
module TaskService {
  import opened Wrappers
  import opened TaskItem
  import opened TaskList
  import Numbers

  const SecondsPerDay: int := 86400

  /**
   * `r` is the stable newest-first ordering of `ts`: sorted by creation time
   * descending, the same tasks, and tasks of equal creation time in their
   * original order. These three facts determine the ordering uniquely.
   */
  ghost predicate OrderedFrom(r: seq<TaskData>, ts: seq<TaskData>) {
    && SortedByCreatedDesc(r)
    && multiset(r) == multiset(ts)
    && forall k :: CreatedAtTime(r, k) == CreatedAtTime(ts, k)
  }

  lemma OrderByCreatedDescIsOrderedFrom(ts: seq<TaskData>)
    ensures OrderedFrom(OrderByCreatedDesc(ts), ts)
  {
    OrderSortedPermutation(ts);
    forall k ensures CreatedAtTime(OrderByCreatedDesc(ts), k) == CreatedAtTime(ts, k) {
      OrderIsStable(ts, k);
    }
  }

  /** A task as built by an object initializer: the defaults, then the given fields. */
  method NewTask(newId: string, now: int, title: string, priority: Numbers.Int32, category: Numbers.Int32,
                 dueDate: Option<int>, estimatedMinutes: Option<Numbers.Int32>, notes: Option<string>)
    returns (task: TaskItem)
    ensures fresh(task)
    ensures task.Data() == TaskData(newId, title, notes, priority, category, dueDate, estimatedMinutes, false, now)
  {
    task := new TaskItem(newId, now);
    task.title := title;
    task.priority := priority;
    task.category := category;
    task.dueDate := dueDate;
    task.estimatedMinutes := estimatedMinutes;
    task.notes := notes;
  }

  /** The five sample tasks of `SeedSampleData`, given their ids, creation times and today's date. */
  function SeedTasks(ids: seq<string>, stamps: seq<int>, today: int): (r: seq<TaskData>)
    requires |ids| == 5 && |stamps| == 5
    ensures |r| == 5
  {
    [ TaskData(ids[0], "Review quarterly report", None, PriorityHigh, CategoryWork,
               Some(today + 2 * SecondsPerDay), Some(60), false, stamps[0]),
      TaskData(ids[1], "Buy groceries", Some("Milk, eggs, bread, vegetables"), PriorityMedium, CategoryShopping,
               None, None, false, stamps[1]),
      TaskData(ids[2], "Morning run", None, PriorityLow, CategoryFitness,
               None, Some(30), false, stamps[2]),
      TaskData(ids[3], "Schedule dentist appointment", None, PriorityMedium, CategoryHealth,
               Some(today + 7 * SecondsPerDay), None, false, stamps[3]),
      TaskData(ids[4], "Fix login page bug", Some("Users reporting 500 error on iOS Safari"), PriorityUrgent, CategoryWork,
               Some(today + 1 * SecondsPerDay), Some(120), false, stamps[4]) ]
  }

  /** The sample tasks are all open, and their ids are distinct when the generated ids are. */
  lemma SeedTasksOpenAndUnique(ids: seq<string>, stamps: seq<int>, today: int)
    requires |ids| == 5 && |stamps| == 5
    ensures forall t :: t in SeedTasks(ids, stamps, today) ==> !t.isCompleted
    ensures UniqueIds(SeedTasks(ids, stamps, today))
            <==> forall i, j :: 0 <= i < j < 5 ==> ids[i] != ids[j]
  {
    var r := SeedTasks(ids, stamps, today);
    assert forall i :: 0 <= i < 5 ==> r[i].id == ids[i];
  }

  /** The five new task objects `SeedSampleData` adds, in order. */
  method NewSeedTasks(ids: seq<string>, stamps: seq<int>, today: int) returns (ts: seq<TaskItem>)
    requires |ids| == 5 && |stamps| == 5
    ensures |ts| == 5
    ensures forall i :: 0 <= i < 5 ==> fresh(ts[i]) && ts[i].Data() == SeedTasks(ids, stamps, today)[i]
    ensures forall i, j :: 0 <= i < j < 5 ==> ts[i] != ts[j]
  {
    var t0 := NewTask(ids[0], stamps[0], "Review quarterly report", PriorityHigh, CategoryWork,
                      Some(today + 2 * SecondsPerDay), Some(60), None);
    var t1 := NewTask(ids[1], stamps[1], "Buy groceries", PriorityMedium, CategoryShopping,
                      None, None, Some("Milk, eggs, bread, vegetables"));
    var t2 := NewTask(ids[2], stamps[2], "Morning run", PriorityLow, CategoryFitness,
                      None, Some(30), None);
    var t3 := NewTask(ids[3], stamps[3], "Schedule dentist appointment", PriorityMedium, CategoryHealth,
                      Some(today + 7 * SecondsPerDay), None, None);
    var t4 := NewTask(ids[4], stamps[4], "Fix login page bug", PriorityUrgent, CategoryWork,
                      Some(today + 1 * SecondsPerDay), Some(120), Some("Users reporting 500 error on iOS Safari"));
    ts := [t0, t1, t2, t3, t4];
    assert SeedTasks(ids, stamps, today) == [t0.Data(), t1.Data(), t2.Data(), t3.Data(), t4.Data()];
  }

  class TaskService {
    var tasks: seq<TaskItem>

    /** No task object is held twice. */
    ghost predicate Valid()
      reads this
    {
      forall i, j :: 0 <= i < j < |tasks| ==> tasks[i] != tasks[j]
    }

    /** The current fields of every task, in list order. */
    function View(): (v: seq<TaskData>)
      reads this, tasks
      ensures |v| == |tasks|
      ensures forall i :: 0 <= i < |tasks| ==> v[i] == tasks[i].Data()
    {
      seq(|tasks|, i reads this, tasks requires 0 <= i < |tasks| => tasks[i].Data())
    }

    /** `new TaskService()`: seeded with the five sample tasks (`SeedSampleData`). */
    constructor(ids: seq<string>, stamps: seq<int>, today: int)
      requires |ids| == 5 && |stamps| == 5
      ensures Valid() && View() == SeedTasks(ids, stamps, today)
    {
      var seeded := NewSeedTasks(ids, stamps, today);
      tasks := seeded;
    }

    /** `GetAll()`: every task, newest first. */
    function GetAll(): (r: seq<TaskData>)
      reads this, tasks
      ensures OrderedFrom(r, View())
    {
      OrderByCreatedDescIsOrderedFrom(View());
      OrderByCreatedDesc(View())
    }

    /** `GetById(id)`: the first task with this id, or none when there is no such task. */
    function GetById(id: string): (r: Option<TaskData>)
      reads this, tasks
      ensures r.Some? ==> r.value in View() && r.value.id == id
      ensures r.Some? ==> exists i :: 0 <= i < |tasks| && r.value == tasks[i].Data()
                                      && forall j :: 0 <= j < i ==> tasks[j].id != id
      ensures r.None? <==> forall t :: t in tasks ==> t.id != id
    {
      var i := IndexOfId(View(), id);
      assert forall t :: t in tasks ==> t.Data() in View();
      FindById(View(), id)
    }

    /** `Search(query)`: the tasks whose title or notes contain the query ignoring case, newest first. */
    function Search(query: string): (r: seq<TaskData>)
      reads this, tasks
      ensures forall x :: x in r <==> x in View() && MatchesSearch(x, query)
      ensures OrderedFrom(r, Where(View(), (t: TaskData) => MatchesSearch(t, query)))
    {
      var matching := Where(View(), (t: TaskData) => MatchesSearch(t, query));
      OrderByCreatedDescIsOrderedFrom(matching);
      OrderKeepsMembers(matching);
      OrderByCreatedDesc(matching)
    }

    /**
     * `GetFiltered(category, priority, showCompleted)`: the tasks of the given
     * category and priority (when given), open ones only unless
     * `showCompleted`, newest first.
     */
    function GetFiltered(category: Option<Numbers.Int32>, priority: Option<Numbers.Int32>, showCompleted: bool)
      : (r: seq<TaskData>)
      reads this, tasks
      ensures forall x :: x in r <==> x in View() && MatchesFilter(x, category, priority, showCompleted)
      ensures OrderedFrom(r, FilterChain(View(), category, priority, showCompleted))
    {
      var matching := FilterChain(View(), category, priority, showCompleted);
      OrderByCreatedDescIsOrderedFrom(matching);
      FilterChainSoundAndComplete(View(), category, priority, showCompleted);
      OrderKeepsMembers(matching);
      OrderByCreatedDesc(matching)
    }

    /**
     * `Create(...)`: one new task with the given fields, the fresh id `newId`
     * and creation time `now` is appended and returned; the others stay as
     * they were.
     */
    method Create(title: string, priority: Numbers.Int32, category: Numbers.Int32, dueDate: Option<int>,
                  estimatedMinutes: Option<Numbers.Int32>, notes: Option<string>, newId: string, now: int)
      returns (task: TaskItem)
      requires Valid()
      modifies this
      ensures Valid() && fresh(task)
      ensures View() == old(View()) + [TaskData(newId, title, notes, priority, category, dueDate, estimatedMinutes, false, now)]
      ensures task.Data() == View()[|View()| - 1]
      ensures UniqueIds(old(View())) && !HasId(old(View()), newId) ==> UniqueIds(View())
    {
      task := NewTask(newId, now, title, priority, category, dueDate, estimatedMinutes, notes);
      tasks := tasks + [task];
    }

    /** `Complete(id)`: false and no change without such a task; otherwise that task is completed. */
    method Complete(id: string) returns (ok: bool)
      requires Valid()
      modifies tasks
      ensures Valid() && tasks == old(tasks)
      ensures ok == HasId(old(View()), id)
      ensures View() == Completed(old(View()), id)
    {
      var i := IndexOfId(View(), id);
      if i.None? {
        return false;
      }
      ghost var before := View();
      tasks[i.value].isCompleted := true;
      assert forall j :: 0 <= j < |tasks| && j != i.value ==> tasks[j].Data() == before[j];
      ok := true;
    }

    /** `SetDueDate(id, date)`: false and no change without such a task; otherwise its due date is set. */
    method SetDueDate(id: string, date: int) returns (ok: bool)
      requires Valid()
      modifies tasks
      ensures Valid() && tasks == old(tasks)
      ensures ok == HasId(old(View()), id)
      ensures View() == WithDueDate(old(View()), id, date)
    {
      var i := IndexOfId(View(), id);
      if i.None? {
        return false;
      }
      ghost var before := View();
      tasks[i.value].dueDate := Some(date);
      assert forall j :: 0 <= j < |tasks| && j != i.value ==> tasks[j].Data() == before[j];
      ok := true;
    }

    /** `Delete(id)`: false and no change without such a task; otherwise that task is removed. */
    method Delete(id: string) returns (ok: bool)
      requires Valid()
      modifies this
      ensures Valid()
      ensures ok == HasId(old(View()), id)
      ensures View() == Deleted(old(View()), id)
    {
      var i := IndexOfId(View(), id);
      if i.None? {
        return false;
      }
      ghost var before := View();
      tasks := tasks[..i.value] + tasks[i.value + 1..];
      assert View() == before[..i.value] + before[i.value + 1..];
      ok := true;
    }
  }
}
