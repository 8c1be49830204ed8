/**
 * The "Create Task" intent (Swift `CreateTaskIntent.perform`): the optional
 * parameters are encoded with the bridge sentinels, the provider creates the
 * task, and the created item comes back as an entity with a dialog.
 */
module CreateTaskIntent {
  import opened Wrappers
  import Numbers
  import opened TaskItem
  import opened BridgeModels
  import opened TaskEntity
  import TaskPriority
  import TaskCategory
  import opened IntentError
  import opened AppIntentsBridge

  datatype CreateReply = CreateReply(value: TaskEntity, dialog: string)

  /** "Created '<title>' with <priority> priority in <category>", using the enums' display titles. */
  function Dialog(title: string, priority: TaskPriority.TaskPriority, category: TaskCategory.TaskCategory): (s: string)
    ensures priority in TaskPriority.Titles && category in TaskCategory.Titles
    ensures s == "Created '" + title + "' with " + TaskPriority.Titles[priority] + " priority in "
                 + TaskCategory.Titles[category]
  {
    "Created '" + title + "' with " + TaskPriority.TitleOr(priority, "medium") + " priority in "
    + TaskCategory.TitleOr(category, "personal")
  }

  /** The task the service is asked to add, once the Swift side has encoded and the C# side decoded the arguments. */
  function SentTask(title: string, priority: TaskPriority.TaskPriority, category: TaskCategory.TaskCategory,
                    dueDate: Option<int>, estimatedMinutes: Option<int>, notes: Option<string>,
                    newId: string, now: int): TaskData
  {
    CreatedTask(title, TaskPriority.RawValue(priority), TaskCategory.RawValue(category), dueDate,
                MinutesToWire(estimatedMinutes), NotesToWire(notes), newId, now)
  }

  /** The `guard let created = ... else { throw .operationFailed }` step. */
  function Answer(created: Option<BridgeTaskItem>, title: string, priority: TaskPriority.TaskPriority,
                  category: TaskCategory.TaskCategory): (r: Result<CreateReply, IntentError>)
    ensures created.None? <==> r == Failure(OperationFailed)
    ensures r.Success? ==> r.value.value == FromBridge(created.value) && r.value.dialog == Dialog(title, priority, category)
  {
    match created
    case None => Failure(OperationFailed)
    case Some(item) => Success(CreateReply(FromBridge(item), Dialog(title, priority, category)))
  }

  /**
   * `perform()`: without a registered provider nothing is created and
   * `appNotReady` is thrown; otherwise exactly one task is appended and
   * its entity returned.
   */
  method Perform(provider: AppIntentsBridgeProvider?, taskTitle: string, priority: TaskPriority.TaskPriority,
                 category: TaskCategory.TaskCategory, dueDate: Option<int>, estimatedMinutes: Option<int>,
                 notes: Option<string>, newId: string, now: int)
    returns (r: Result<CreateReply, IntentError>)
    requires provider != null ==> provider.service.Valid()
    modifies if provider == null then {} else {provider.service}
    ensures provider == null ==> r == Failure(AppNotReady)
    ensures provider != null ==> provider.service.Valid()
    ensures provider != null ==>
              (provider.service.View() == old(provider.service.View())
                 + [SentTask(taskTitle, priority, category, dueDate, estimatedMinutes, notes, newId, now)])
    ensures provider != null ==>
              (&& r.Success?
               && r.value.value == FromBridge(ToBridge(SentTask(taskTitle, priority, category, dueDate, estimatedMinutes, notes, newId, now)))
               && r.value.dialog == Dialog(taskTitle, priority, category))
  {
    if provider == null {
      return Failure(AppNotReady);
    }
    var created := provider.CreateTask(taskTitle, TaskPriority.RawValue(priority), TaskCategory.RawValue(category),
                                       dueDate, MinutesToWire(estimatedMinutes), NotesToWire(notes), newId, now);
    r := Answer(created, taskTitle, priority, category);
  }

  // ------------------------------------------------------------ lemmas

  /**
   * An absent estimate or absent notes reach `TaskService.Create` as null,
   * and present ones as values, exactly when the estimate fits an `int` and
   * is not negative and the notes are not empty.
   */
  lemma OptionalsArriveAsSent(title: string, priority: TaskPriority.TaskPriority, category: TaskCategory.TaskCategory,
                              dueDate: Option<int>, estimatedMinutes: Option<int>, notes: Option<string>,
                              newId: string, now: int)
    ensures var t := SentTask(title, priority, category, dueDate, estimatedMinutes, notes, newId, now);
            && (t.notes == notes <==> notes != Some(""))
            && (t.estimatedMinutes.None? <==> estimatedMinutes.None? || Numbers.Wrap32(estimatedMinutes.value) < 0)
            && (estimatedMinutes.Some? && 0 <= estimatedMinutes.value <= Numbers.INT32_MAX ==>
                  t.estimatedMinutes == Some(estimatedMinutes.value))
  {
    NotesRoundTrip(notes);
    SentinelRoundTrip(estimatedMinutes);
  }

  /**
   * With an estimate in range (the parameter allows 1 to 480) and notes that
   * are absent or non-empty, the returned entity is exactly the task that
   * was asked for, open, with the given id.
   */
  lemma ReturnedEntityIsTheRequest(title: string, priority: TaskPriority.TaskPriority, category: TaskCategory.TaskCategory,
                                   dueDate: Option<int>, estimatedMinutes: Option<int>, notes: Option<string>,
                                   newId: string, now: int)
    requires estimatedMinutes.Some? ==> 0 <= estimatedMinutes.value <= Numbers.INT32_MAX
    requires notes != Some("")
    ensures FromBridge(ToBridge(SentTask(title, priority, category, dueDate, estimatedMinutes, notes, newId, now)))
            == TaskEntity(newId, title, notes, priority, category, dueDate, estimatedMinutes, false)
  {
    OptionalsArriveAsSent(title, priority, category, dueDate, estimatedMinutes, notes, newId, now);
    var t := SentTask(title, priority, category, dueDate, estimatedMinutes, notes, newId, now);
    assert t.priority == TaskPriority.RawValue(priority) && t.category == TaskCategory.RawValue(category);
    TaskPriority.RawValueRoundTrip(priority);
    TaskCategory.RawValueRoundTrip(category);
    NotesRoundTrip(t.notes);
  }
}
