/**
 * The C# implementation of the Swift provider protocol
 * (`AppIntentsBridgeProvider`): it converts service tasks to bridge items
 * (`ToBridge`) and decodes the sentinels the Swift side sends. The Swift
 * `Int` arguments arrive as `nint` and are cast with `(int)`, which keeps the
 * low 32 bits.
 */
module AppIntentsBridge {
  import opened Wrappers
  import Numbers
  import opened TaskItem
  import opened TaskList
  import TaskService
  import opened BridgeModels
  import TaskEntity
  import TaskPriority
  import TaskCategory

  /** `ToBridge(task)`: absent notes become "", an absent estimate -1, the enums their raw values. */
  function ToBridge(t: TaskData): (b: BridgeTaskItem)
    ensures b.id == t.id && b.title == t.title && b.dueDate == t.dueDate
    ensures b.isCompleted == t.isCompleted && b.createdAt == t.createdAt
    ensures b.priorityRawValue == t.priority && b.categoryRawValue == t.category
    ensures b.notes == "" <==> t.notes.None? || t.notes == Some("")
    ensures b.estimatedMinutes < 0 <==> t.estimatedMinutes.None? || t.estimatedMinutes.value < 0
    ensures t.notes.Some? ==> b.notes == t.notes.value
    ensures t.notes.None? ==> b.notes == ""
    ensures t.estimatedMinutes.Some? ==> b.estimatedMinutes == t.estimatedMinutes.value
    ensures t.estimatedMinutes.None? ==> b.estimatedMinutes == -1
  {
    BridgeTaskItem(t.id, t.title, NotesToWire(t.notes), t.priority, t.category, t.dueDate,
                   MinutesToWire(t.estimatedMinutes), t.isCompleted, t.createdAt)
  }

  /** `Select(ToBridge).ToArray()`. */
  function ToBridgeAll(ts: seq<TaskData>): (r: seq<BridgeTaskItem>)
    ensures |r| == |ts|
    ensures forall i :: 0 <= i < |ts| ==> r[i] == ToBridge(ts[i])
  {
    seq(|ts|, i requires 0 <= i < |ts| => ToBridge(ts[i]))
  }

  /**
   * A raw filter or estimate argument: `(int)raw >= 0 ? (int)raw : null`.
   * A negative value means "none"; a non-negative one is taken as it is,
   * with no range check against the enum.
   */
  function FromSentinel(raw: int): (r: Option<Numbers.Int32>)
    ensures Numbers.IsInt32(raw) ==> (r.Some? <==> raw >= 0)
    ensures Numbers.IsInt32(raw) && r.Some? ==> r.value == raw
    ensures r.Some? ==> r.value == Numbers.Wrap32(raw) && r.value >= 0
  {
    var v := Numbers.Wrap32(raw);
    if v >= 0 then Some(v) else None
  }

  /** The task `CreateTask` asks the service to add, once the sentinels are decoded. */
  function CreatedTask(title: string, priorityRawValue: int, categoryRawValue: int, dueDate: Option<int>,
                       estimatedMinutes: int, notes: string, newId: string, now: int): TaskData
  {
    TaskData(newId, title, NotesFromWire(notes), Numbers.Wrap32(priorityRawValue), Numbers.Wrap32(categoryRawValue),
             dueDate, FromSentinel(estimatedMinutes), false, now)
  }

  // ------------------------------------------------------------ lemmas

  /** Every task appears among the converted items, and each item is a converted task. */
  lemma ToBridgeAllMembers(ts: seq<TaskData>)
    ensures forall t :: t in ts ==> ToBridge(t) in ToBridgeAll(ts)
    ensures forall b :: b in ToBridgeAll(ts) ==> exists t :: t in ts && b == ToBridge(t)
  {
    var r := ToBridgeAll(ts);
    forall t | t in ts ensures ToBridge(t) in r {
      var i :| 0 <= i < |ts| && ts[i] == t;
      assert r[i] == ToBridge(t);
    }
    forall b | b in r ensures exists t :: t in ts && b == ToBridge(t) {
      var i :| 0 <= i < |r| && r[i] == b;
      assert ts[i] in ts && b == ToBridge(ts[i]);
    }
  }

  /**
   * What a task looks like once it has crossed to Swift: id, title, due date
   * and completion are kept; notes and estimate are kept unless they are ""
   * or negative, which come back absent; known enum values are kept.
   */
  lemma EntityRoundTrip(t: TaskData)
    ensures TaskEntity.FromBridge(ToBridge(t)).id == t.id && TaskEntity.FromBridge(ToBridge(t)).title == t.title
    ensures TaskEntity.FromBridge(ToBridge(t)).dueDate == t.dueDate
    ensures TaskEntity.FromBridge(ToBridge(t)).isCompleted == t.isCompleted
    ensures TaskEntity.FromBridge(ToBridge(t)).notes == t.notes <==> t.notes != Some("")
    ensures TaskEntity.FromBridge(ToBridge(t)).estimatedMinutes == (if t.estimatedMinutes.Some? then Some(t.estimatedMinutes.value as int) else None)
        <==> (t.estimatedMinutes.None? || t.estimatedMinutes.value >= 0)
    ensures 0 <= t.priority <= 3 ==> TaskPriority.RawValue(TaskEntity.FromBridge(ToBridge(t)).priority) == t.priority
    ensures 0 <= t.category <= 4 ==> TaskCategory.RawValue(TaskEntity.FromBridge(ToBridge(t)).category) == t.category
  {
    NotesRoundTrip(t.notes);
    MinutesRoundTrip(if t.estimatedMinutes.Some? then Some(t.estimatedMinutes.value as int) else None);
  }

  /** A task that the service stores with valid enum values crosses to Swift with exactly those values. */
  lemma EnumsSurviveTheBridge(t: TaskData)
    requires PriorityLow <= t.priority <= PriorityUrgent && CategoryWork <= t.category <= CategoryFitness
    ensures TaskPriority.FromRawValue(t.priority) == Some(TaskEntity.FromBridge(ToBridge(t)).priority)
    ensures TaskCategory.FromRawValue(t.category) == Some(TaskEntity.FromBridge(ToBridge(t)).category)
  {
  }

  /**
   * An optional value sent as its sentinel (-1 for none) arrives as none
   * exactly when it is absent or its low 32 bits are negative, and arrives
   * unchanged when it is a non-negative `int`.
   */
  lemma SentinelRoundTrip(value: Option<int>)
    ensures FromSentinel(MinutesToWire(value)).None? <==> value.None? || Numbers.Wrap32(value.value) < 0
    ensures value.Some? && 0 <= value.value <= Numbers.INT32_MAX ==> FromSentinel(MinutesToWire(value)) == Some(value.value)
  {
    if value.None? {
      assert Numbers.IsInt32(NoEstimate);
    } else if 0 <= value.value <= Numbers.INT32_MAX {
      assert Numbers.IsInt32(value.value);
    }
  }

  /** The -1 that Swift sends for "no filter" decodes as no filter. */
  lemma MinusOneIsNoFilter()
    ensures FromSentinel(-1) == None
  {
  }

  // ------------------------------------------------------------ the provider

  class AppIntentsBridgeProvider {
    const service: TaskService.TaskService

    constructor(service: TaskService.TaskService)
      ensures this.service == service
    {
      this.service := service;
    }

    /** `GetAllTasks()`: every task, converted, newest first. */
    function GetAllTasks(): (r: seq<BridgeTaskItem>)
      reads service, service.tasks
      ensures |r| == |service.tasks|
      ensures forall i :: 0 <= i < |r| ==> r[i] == ToBridge(service.GetAll()[i])
      ensures forall t :: t in service.View() ==> ToBridge(t) in r
      ensures forall i, j :: 0 <= i < j < |r| ==> r[i].createdAt >= r[j].createdAt
    {
      var all := service.GetAll();
      assert multiset(all) == multiset(service.View());
      assert forall t :: t in service.View() ==> t in multiset(all);
      ToBridgeAllMembers(all);
      ToBridgeAll(all)
    }

    /** `GetTask(id)`: the converted first task with this id, or none exactly when there is no such task. */
    function GetTask(id: string): (r: Option<BridgeTaskItem>)
      reads service, service.tasks
      ensures r.None? <==> !HasId(service.View(), id)
      ensures r.Some? ==> r.value.id == id && r.value == ToBridge(FindById(service.View(), id).value)
    {
      match service.GetById(id)
      case None => None
      case Some(t) => Some(ToBridge(t))
    }

    /** `SearchTasks(query)`: the converted matching tasks, newest first. */
    function SearchTasks(query: string): (r: seq<BridgeTaskItem>)
      reads service, service.tasks
      ensures |r| == |service.Search(query)|
      ensures forall i :: 0 <= i < |r| ==> r[i] == ToBridge(service.Search(query)[i])
      ensures forall t :: t in service.View() && MatchesSearch(t, query) ==> ToBridge(t) in r
      ensures forall b :: b in r ==> exists t :: t in service.View() && MatchesSearch(t, query) && b == ToBridge(t)
      ensures forall i, j :: 0 <= i < j < |r| ==> r[i].createdAt >= r[j].createdAt
    {
      var found := service.Search(query);
      ToBridgeAllMembers(found);
      ToBridgeAll(found)
    }

    /** `GetTasksByFilter(...)`: negative raw values switch a filter off. */
    function GetTasksByFilter(categoryRawValue: int, priorityRawValue: int, showCompleted: bool): (r: seq<BridgeTaskItem>)
      reads service, service.tasks
      ensures |r| == |service.GetFiltered(FromSentinel(categoryRawValue), FromSentinel(priorityRawValue), showCompleted)|
      ensures forall i :: 0 <= i < |r| ==>
                r[i] == ToBridge(service.GetFiltered(FromSentinel(categoryRawValue), FromSentinel(priorityRawValue), showCompleted)[i])
      ensures forall t :: t in service.View() && MatchesFilter(t, FromSentinel(categoryRawValue), FromSentinel(priorityRawValue), showCompleted)
                ==> ToBridge(t) in r
      ensures forall b :: b in r ==>
                (exists t :: t in service.View() && b == ToBridge(t)
                   && MatchesFilter(t, FromSentinel(categoryRawValue), FromSentinel(priorityRawValue), showCompleted))
      ensures forall i, j :: 0 <= i < j < |r| ==> r[i].createdAt >= r[j].createdAt
    {
      var found := service.GetFiltered(FromSentinel(categoryRawValue), FromSentinel(priorityRawValue), showCompleted);
      ToBridgeAllMembers(found);
      ToBridgeAll(found)
    }

    /**
     * `CreateTask(...)`: the decoded task is appended to the service and
     * returned converted; the C# side never answers nil.
     */
    method CreateTask(title: string, priorityRawValue: int, categoryRawValue: int, dueDate: Option<int>,
                      estimatedMinutes: int, notes: string, newId: string, now: int)
      returns (r: Option<BridgeTaskItem>)
      requires service.Valid()
      modifies service
      ensures service.Valid()
      ensures service.View() == old(service.View())
                + [CreatedTask(title, priorityRawValue, categoryRawValue, dueDate, estimatedMinutes, notes, newId, now)]
      ensures r == Some(ToBridge(CreatedTask(title, priorityRawValue, categoryRawValue, dueDate, estimatedMinutes, notes, newId, now)))
    {
      var created := service.Create(title, Numbers.Wrap32(priorityRawValue), Numbers.Wrap32(categoryRawValue), dueDate,
                                    FromSentinel(estimatedMinutes), NotesFromWire(notes), newId, now);
      r := Some(ToBridge(created.Data()));
    }

    /** `CompleteTask(id)`: the service's answer, unchanged. */
    method CompleteTask(id: string) returns (ok: bool)
      requires service.Valid()
      modifies service.tasks
      ensures service.Valid() && service.tasks == old(service.tasks)
      ensures ok == HasId(old(service.View()), id)
      ensures service.View() == Completed(old(service.View()), id)
    {
      ok := service.Complete(id);
    }

    /** `SetDueDate(date, taskId)`: the service's answer, unchanged. */
    method SetDueDate(date: int, taskId: string) returns (ok: bool)
      requires service.Valid()
      modifies service.tasks
      ensures service.Valid() && service.tasks == old(service.tasks)
      ensures ok == HasId(old(service.View()), taskId)
      ensures service.View() == WithDueDate(old(service.View()), taskId, date)
    {
      ok := service.SetDueDate(taskId, date);
    }
  }
}
