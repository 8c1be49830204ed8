/**
 * The task record of the tracker (C# `TaskItem`) and its two enums. A task is
 * a mutable object that the service updates in place; `TaskData` is the value
 * of all its fields at one moment. Dates are integers (seconds on one clock).
 * C# enums are their `int` raw values: a cast from `int` accepts any value, so
 * a task can carry a priority or category outside the named ones.
 */
module TaskItem {
  import opened Wrappers
  import Numbers

  // TaskPriorityLevel
  const PriorityLow: Numbers.Int32 := 0
  const PriorityMedium: Numbers.Int32 := 1
  const PriorityHigh: Numbers.Int32 := 2
  const PriorityUrgent: Numbers.Int32 := 3

  // TaskCategoryType
  const CategoryWork: Numbers.Int32 := 0
  const CategoryPersonal: Numbers.Int32 := 1
  const CategoryShopping: Numbers.Int32 := 2
  const CategoryHealth: Numbers.Int32 := 3
  const CategoryFitness: Numbers.Int32 := 4

  datatype TaskData = TaskData(
    id: string,
    title: string,
    notes: Option<string>,
    priority: Numbers.Int32,
    category: Numbers.Int32,
    dueDate: Option<int>,
    estimatedMinutes: Option<Numbers.Int32>,
    isCompleted: bool,
    createdAt: int)

  class TaskItem {
    var id: string
    var title: string
    var notes: Option<string>
    var priority: Numbers.Int32
    var category: Numbers.Int32
    var dueDate: Option<int>
    var estimatedMinutes: Option<Numbers.Int32>
    var isCompleted: bool
    var createdAt: int

    /** The current value of every field. */
    function Data(): (d: TaskData)
      reads this
      ensures d.id == id && d.isCompleted == isCompleted && d.dueDate == dueDate && d.createdAt == createdAt
    {
      TaskData(id, title, notes, priority, category, dueDate, estimatedMinutes, isCompleted, createdAt)
    }

    /**
     * `new TaskItem()`: a fresh GUID text `newId` and the construction time
     * `now` are parameters; the title is empty, the priority medium, the
     * category personal, nothing optional is set and the task is open.
     */
    constructor(newId: string, now: int)
      ensures Data() == TaskData(newId, "", None, PriorityMedium, CategoryPersonal, None, None, false, now)
    {
      id := newId;
      title := "";
      notes := None;
      priority := PriorityMedium;
      category := CategoryPersonal;
      dueDate := None;
      estimatedMinutes := None;
      isCompleted := false;
      createdAt := now;
    }
  }
}
