/**
 * The "List Tasks" intent (Swift `ListTasksIntent.perform`): absent filters
 * travel as -1, and the dialog names the filters and counts the tasks.
 */
module ListTasksIntent {
  import opened Wrappers
  import Numbers
  import opened TaskList
  import opened TaskEntity
  import TaskPriority
  import TaskCategory
  import opened IntentError
  import opened AppIntentsBridge
  import TaskQuery

  datatype ListReply = ListReply(value: seq<TaskEntity>, dialog: string)

  /** The value of `showCompleted` when the user does not give one. */
  const DefaultShowCompleted: bool := false

  /** `category?.rawValue ?? -1`. */
  function CategoryArgument(category: Option<TaskCategory.TaskCategory>): int {
    if category.Some? then TaskCategory.RawValue(category.value) else -1
  }

  /** `priority?.rawValue ?? -1`. */
  function PriorityArgument(priority: Option<TaskPriority.TaskPriority>): int {
    if priority.Some? then TaskPriority.RawValue(priority.value) else -1
  }

  /** The filter the C# service applies for a Swift category, after the sentinel round trip. */
  function CategoryFilter(category: Option<TaskCategory.TaskCategory>): (f: Option<Numbers.Int32>)
    ensures f == FromSentinel(CategoryArgument(category))
    ensures f.None? <==> category.None?
    ensures f.Some? ==> f.value == TaskCategory.RawValue(category.value)
  {
    if category.Some? then
      assert Numbers.IsInt32(TaskCategory.RawValue(category.value));
      Some(TaskCategory.RawValue(category.value))
    else None
  }

  /** The filter the C# service applies for a Swift priority, after the sentinel round trip. */
  function PriorityFilter(priority: Option<TaskPriority.TaskPriority>): (f: Option<Numbers.Int32>)
    ensures f == FromSentinel(PriorityArgument(priority))
    ensures f.None? <==> priority.None?
    ensures f.Some? ==> f.value == TaskPriority.RawValue(priority.value)
  {
    if priority.Some? then
      assert Numbers.IsInt32(TaskPriority.RawValue(priority.value));
      Some(TaskPriority.RawValue(priority.value))
    else None
  }

  /** "<category> <priority>", the one title given, or "all". */
  function FilterDescription(category: Option<TaskCategory.TaskCategory>, priority: Option<TaskPriority.TaskPriority>)
    : (s: string)
    ensures category.Some? ==> category.value in TaskCategory.Titles
    ensures priority.Some? ==> priority.value in TaskPriority.Titles
    ensures category.Some? && priority.Some? ==>
              s == TaskCategory.Titles[category.value] + " " + TaskPriority.Titles[priority.value]
    ensures category.Some? && priority.None? ==> s == TaskCategory.Titles[category.value]
    ensures category.None? && priority.Some? ==> s == TaskPriority.Titles[priority.value]
    ensures category.None? && priority.None? ==> s == "all"
  {
    if category.Some? && priority.Some? then
      TaskCategory.TitleOr(category.value, "") + " " + TaskPriority.TitleOr(priority.value, "")
    else if category.Some? then TaskCategory.TitleOr(category.value, "")
    else if priority.Some? then TaskPriority.TitleOr(priority.value, "")
    else "all"
  }

  /** The plural ending of "task": none for exactly one. */
  function Plural(n: nat): (s: string)
    ensures s == "" <==> n == 1
    ensures s != "" ==> s == "s"
  {
    if n == 1 then "" else "s"
  }

  /**
   * `perform()`: `appNotReady` without a provider; otherwise the entities of
   * exactly the tasks the filters select, newest first, and a dialog counting
   * them.
   */
  function Perform(provider: AppIntentsBridgeProvider?, category: Option<TaskCategory.TaskCategory>,
                   priority: Option<TaskPriority.TaskPriority>, showCompleted: bool): (r: Result<ListReply, IntentError>)
    reads if provider == null then {} else {provider.service}
    reads if provider == null then [] else provider.service.tasks
    ensures provider == null ==> r == Failure(AppNotReady)
    ensures provider != null ==>
              (&& r.Success?
               && r.value.value == FromBridgeAll(provider.GetTasksByFilter(CategoryArgument(category), PriorityArgument(priority), showCompleted)))
    ensures provider != null ==> forall t ::
              (t in provider.service.View() && MatchesFilter(t, CategoryFilter(category), PriorityFilter(priority), showCompleted))
              ==> FromBridge(ToBridge(t)) in r.value.value
    ensures provider != null ==> forall e :: e in r.value.value ==>
              (exists t :: t in provider.service.View() && e == FromBridge(ToBridge(t))
                 && MatchesFilter(t, CategoryFilter(category), PriorityFilter(priority), showCompleted))
    ensures r.Success? ==>
              (r.value.dialog == "Found " + Numbers.IntToString(|r.value.value|) + " "
                                 + FilterDescription(category, priority) + " task" + Plural(|r.value.value|))
  {
    if provider == null then Failure(AppNotReady)
    else
      var items := provider.GetTasksByFilter(CategoryArgument(category), PriorityArgument(priority), showCompleted);
      TaskQuery.FromBridgeAllMembers(items);
      var entities := FromBridgeAll(items);
      Success(ListReply(entities, "Found " + Numbers.IntToString(|entities|) + " " + FilterDescription(category, priority)
                                  + " task" + Plural(|entities|)))
  }
}
