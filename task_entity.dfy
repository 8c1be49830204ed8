/**
 * The task as Siri and Shortcuts see it (Swift `TaskEntity`), decoded from a
 * bridge item: sentinels become absent values and unknown enum raw values
 * fall back to medium priority and personal category.
 */
module TaskEntity {
  import opened Wrappers
  import opened BridgeModels
  import TaskPriority
  import TaskCategory

  datatype TaskEntity = TaskEntity(
    id: string,
    title: string,
    notes: Option<string>,
    priority: TaskPriority.TaskPriority,
    category: TaskCategory.TaskCategory,
    dueDate: Option<int>,
    estimatedMinutes: Option<int>,
    isCompleted: bool)

  /** `init(from:)`. */
  function FromBridge(b: BridgeTaskItem): (e: TaskEntity)
    ensures e.id == b.id && e.title == b.title && e.dueDate == b.dueDate && e.isCompleted == b.isCompleted
    ensures e.notes.None? <==> b.notes == ""
    ensures e.notes.Some? ==> e.notes.value == b.notes
    ensures e.estimatedMinutes.None? <==> b.estimatedMinutes < 0
    ensures e.estimatedMinutes.Some? ==> e.estimatedMinutes.value == b.estimatedMinutes
    ensures TaskPriority.RawValue(e.priority) == b.priorityRawValue || (!(0 <= b.priorityRawValue <= 3) && e.priority == TaskPriority.Medium)
    ensures TaskCategory.RawValue(e.category) == b.categoryRawValue || (!(0 <= b.categoryRawValue <= 4) && e.category == TaskCategory.Personal)
  {
    TaskEntity(
      b.id,
      b.title,
      NotesFromWire(b.notes),
      match TaskPriority.FromRawValue(b.priorityRawValue) case Some(p) => p case None => TaskPriority.Medium,
      match TaskCategory.FromRawValue(b.categoryRawValue) case Some(c) => c case None => TaskCategory.Personal,
      b.dueDate,
      MinutesFromWire(b.estimatedMinutes),
      b.isCompleted)
  }

  /** The subtitle of `displayRepresentation`: the priority title, " · ", the category title. */
  function Subtitle(e: TaskEntity): (s: string)
    ensures e.priority in TaskPriority.Titles && e.category in TaskCategory.Titles
    ensures s == TaskPriority.Titles[e.priority] + " · " + TaskCategory.Titles[e.category]
  {
    TaskPriority.TitleOr(e.priority, "Medium") + " · " + TaskCategory.TitleOr(e.category, "Personal")
  }

  /** `items.map { TaskEntity(from: $0) }`. */
  function FromBridgeAll(bs: seq<BridgeTaskItem>): (r: seq<TaskEntity>)
    ensures |r| == |bs|
    ensures forall i :: 0 <= i < |bs| ==> r[i] == FromBridge(bs[i])
  {
    seq(|bs|, i requires 0 <= i < |bs| => FromBridge(bs[i]))
  }

  /** An entity decoded from the wire carries a raw value the enums know, and decodes back to it. */
  lemma KnownRawValuesSurvive(b: BridgeTaskItem)
    requires 0 <= b.priorityRawValue <= 3 && 0 <= b.categoryRawValue <= 4
    ensures TaskPriority.RawValue(FromBridge(b).priority) == b.priorityRawValue
    ensures TaskCategory.RawValue(FromBridge(b).category) == b.categoryRawValue
  {
  }
}
