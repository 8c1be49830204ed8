/**
 * The transfer object between the Swift intents and the C# service (Swift
 * `BridgeTaskItem`). Only `dueDate` is optional: no notes travel as "", no
 * estimate as -1, and the enums as unchecked raw `Int` values.
 */
module BridgeModels {
  import opened Wrappers

  datatype BridgeTaskItem = BridgeTaskItem(
    id: string,
    title: string,
    notes: string,
    priorityRawValue: int,
    categoryRawValue: int,
    dueDate: Option<int>,
    estimatedMinutes: int,
    isCompleted: bool,
    createdAt: int)

  /** The sentinel for "no estimate". */
  const NoEstimate: int := -1

  /** Notes on the wire (`notes ?? ""`): absent notes travel as the empty string. */
  function NotesToWire(notes: Option<string>): string {
    if notes.Some? then notes.value else ""
  }

  /** Notes off the wire (`notes.isEmpty ? nil : notes`, `string.IsNullOrEmpty`). */
  function NotesFromWire(notes: string): (r: Option<string>)
    ensures r.None? <==> notes == ""
    ensures r.Some? ==> r.value == notes
  {
    if notes == "" then None else Some(notes)
  }

  /** An estimate on the wire (`estimatedMinutes ?? -1`): absence travels as -1. */
  function MinutesToWire(minutes: Option<int>): int {
    if minutes.Some? then minutes.value else NoEstimate
  }

  /** An estimate off the wire on the Swift side: any negative value means none. */
  function MinutesFromWire(minutes: int): (r: Option<int>)
    ensures r.None? <==> minutes < 0
    ensures r.Some? ==> r.value == minutes
  {
    if minutes >= 0 then Some(minutes) else None
  }

  /** Notes survive the wire exactly when they are absent or non-empty. */
  lemma NotesRoundTrip(notes: Option<string>)
    ensures NotesFromWire(NotesToWire(notes)) == notes <==> notes != Some("")
  {
  }

  /** An estimate survives the wire exactly when it is absent or not negative. */
  lemma MinutesRoundTrip(minutes: Option<int>)
    ensures MinutesFromWire(MinutesToWire(minutes)) == minutes <==> (minutes.None? || minutes.value >= 0)
  {
  }
}
