/** The Swift category enum (`TaskCategory`), backed by `Int`. */
module TaskCategory {
  import opened Wrappers
  import TaskItem

  datatype TaskCategory = Work | Personal | Shopping | Health | Fitness

  function RawValue(c: TaskCategory): int {
    match c
    case Work => 0
    case Personal => 1
    case Shopping => 2
    case Health => 3
    case Fitness => 4
  }

  /** `TaskCategory(rawValue:)`: no case for any other value. */
  function FromRawValue(raw: int): (r: Option<TaskCategory>)
    ensures r.Some? <==> 0 <= raw <= 4
    ensures r.Some? ==> RawValue(r.value) == raw
  {
    if raw == 0 then Some(Work)
    else if raw == 1 then Some(Personal)
    else if raw == 2 then Some(Shopping)
    else if raw == 3 then Some(Health)
    else if raw == 4 then Some(Fitness)
    else None
  }

  /** The titles of `caseDisplayRepresentations`. */
  const Titles: map<TaskCategory, string> :=
    map[Work := "Work", Personal := "Personal", Shopping := "Shopping", Health := "Health", Fitness := "Fitness"]

  /** `caseDisplayRepresentations[c]?.title ?? fallback`: the fallback is never taken. */
  function TitleOr(c: TaskCategory, fallback: string): (s: string)
    ensures c in Titles && s == Titles[c]
  {
    EveryCaseHasTitle(c);
    if c in Titles then Titles[c] else fallback
  }

  lemma RawValueRoundTrip(c: TaskCategory)
    ensures FromRawValue(RawValue(c)) == Some(c)
  {
  }

  lemma EveryCaseHasTitle(c: TaskCategory)
    ensures c in Titles && Titles[c] != ""
  {
  }

  /** The raw values are those of the C# `TaskCategoryType`. */
  lemma AgreesWithTaskCategoryType()
    ensures RawValue(Work) == TaskItem.CategoryWork && RawValue(Personal) == TaskItem.CategoryPersonal
    ensures RawValue(Shopping) == TaskItem.CategoryShopping && RawValue(Health) == TaskItem.CategoryHealth
    ensures RawValue(Fitness) == TaskItem.CategoryFitness
  {
  }
}
