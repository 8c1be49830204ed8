/** The Swift priority enum (`TaskPriority`), backed by `Int`. */
module TaskPriority {
  import opened Wrappers
  import TaskItem

  datatype TaskPriority = Low | Medium | High | Urgent

  function RawValue(p: TaskPriority): int {
    match p
    case Low => 0
    case Medium => 1
    case High => 2
    case Urgent => 3
  }

  /** `TaskPriority(rawValue:)`: no case for any other value. */
  function FromRawValue(raw: int): (r: Option<TaskPriority>)
    ensures r.Some? <==> 0 <= raw <= 3
    ensures r.Some? ==> RawValue(r.value) == raw
  {
    if raw == 0 then Some(Low)
    else if raw == 1 then Some(Medium)
    else if raw == 2 then Some(High)
    else if raw == 3 then Some(Urgent)
    else None
  }

  /** The titles of `caseDisplayRepresentations`. */
  const Titles: map<TaskPriority, string> :=
    map[Low := "Low", Medium := "Medium", High := "High", Urgent := "Urgent"]

  /** `caseDisplayRepresentations[p]?.title ?? fallback`: the fallback is never taken. */
  function TitleOr(p: TaskPriority, fallback: string): (s: string)
    ensures p in Titles && s == Titles[p]
  {
    EveryCaseHasTitle(p);
    if p in Titles then Titles[p] else fallback
  }

  /** Raw values and cases correspond one to one. */
  lemma RawValueRoundTrip(p: TaskPriority)
    ensures FromRawValue(RawValue(p)) == Some(p)
  {
  }

  /** Every case has a title, so a lookup never falls back. */
  lemma EveryCaseHasTitle(p: TaskPriority)
    ensures p in Titles && Titles[p] != ""
  {
  }

  /** The raw values are those of the C# `TaskPriorityLevel`. */
  lemma AgreesWithTaskPriorityLevel()
    ensures RawValue(Low) == TaskItem.PriorityLow && RawValue(Medium) == TaskItem.PriorityMedium
    ensures RawValue(High) == TaskItem.PriorityHigh && RawValue(Urgent) == TaskItem.PriorityUrgent
  {
  }
}
