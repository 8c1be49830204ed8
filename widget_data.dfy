/**
 * The record both processes exchange through the App Group container
 * (C# `record WidgetData`, Swift `struct WidgetData`). Both are immutable
 * values here: the C# properties are init-only and the Swift struct is copied.
 */
module WidgetDataModel {

  datatype WidgetData = WidgetData(
    version: int,
    title: string,
    message: string,
    counter: int,
    updatedAt: string,
    extras: map<string, string>)

  /** The JSON member names of the C# record, in declaration order. */
  const CSharpJsonNames: seq<string> := ["version", "title", "message", "counter", "updatedAt", "extras"]
  /** The Swift property names, which `Codable` uses as JSON keys. */
  const SwiftJsonNames: seq<string> := ["version", "title", "message", "counter", "updatedAt", "extras"]

  /**
   * `new WidgetData { }` in C#: version 1, empty title and message, counter 0,
   * no extras, and `updatedAt` the round-trip rendering of the clock at
   * construction, which is a parameter here.
   */
  function CSharpDefault(nowRoundTrip: string): (d: WidgetData)
    ensures d.version == 1 && d.counter == 0 && d.title == "" && d.message == ""
    ensures d.extras == map[] && d.updatedAt == nowRoundTrip
  {
    WidgetData(1, "", "", 0, nowRoundTrip, map[])
  }

  /** `WidgetData()` in Swift: the same defaults, but an empty `updatedAt`. */
  function SwiftDefault(): (d: WidgetData)
    ensures d.version == 1 && d.counter == 0 && d.title == "" && d.message == ""
    ensures d.extras == map[] && d.updatedAt == ""
  {
    WidgetData(1, "", "", 0, "", map[])
  }

  /** Both sides use the same six distinct JSON names. */
  lemma JsonNamesAgree()
    ensures CSharpJsonNames == SwiftJsonNames
    ensures forall i, j :: 0 <= i < j < |SwiftJsonNames| ==> SwiftJsonNames[i] != SwiftJsonNames[j]
  {
  }
}
