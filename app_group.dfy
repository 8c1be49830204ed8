/**
 * The App Group shared container: a directory of named files that the app and
 * the widget extension both reach, and the OS widget center that both ask to
 * reload timelines. JSON encoding and file I/O are abstracted: a file either
 * decodes into a record or is corrupt, and a missing file is a name that is
 * not in the map.
 */
module AppGroup {
  import opened Wrappers
  import opened WidgetDataModel
  import Numbers

  datatype Slot = Corrupt | Stored(data: WidgetData)

  type Files = map<string, Slot>

  /** The integer width of the reading side: C# `int` or Swift `Int`. */
  datatype IntWidth = Bits32 | Bits64

  predicate Fits(width: IntWidth, x: int) {
    match width
    case Bits32 => Numbers.IsInt32(x)
    case Bits64 => Numbers.IsInt64(x)
  }

  /**
   * Reading one file. There is no record when the container does not resolve,
   * when the file is missing, or when its content does not decode into the
   * reader's types (a number too wide for the reader's integers fails to
   * decode); a read never fails in any other way.
   */
  function Load(resolvable: bool, files: Files, name: string, width: IntWidth): (r: Option<WidgetData>)
    ensures r.Some? <==> resolvable && name in files && files[name].Stored?
                         && Fits(width, files[name].data.version) && Fits(width, files[name].data.counter)
    ensures r.Some? ==> files[name] == Stored(r.value)
  {
    if !resolvable || name !in files then None
    else match files[name]
      case Corrupt => None
      case Stored(d) =>
        if Fits(width, d.version) && Fits(width, d.counter) then Some(d) else None
  }

  class Container {
    /** Whether the container URL resolves in the app process (its provisioning). */
    const appResolves: bool
    /** Whether the container URL resolves in the widget extension process. */
    const widgetResolves: bool
    var files: Files

    constructor(appResolves: bool, widgetResolves: bool, files: Files)
      ensures this.appResolves == appResolves && this.widgetResolves == widgetResolves
      ensures this.files == files
    {
      this.appResolves := appResolves;
      this.widgetResolves := widgetResolves;
      this.files := files;
    }
  }

  /** The OS widget center: the timeline kinds whose reload was requested, in order. */
  class WidgetCenter {
    var reloads: seq<string>

    constructor()
      ensures reloads == []
    {
      reloads := [];
    }
  }
}
