/**
 * The app's side of the container (C# `WidgetDataService`): it writes only the
 * from-app slot, reads and deletes only the from-widget slot, and asks the
 * widget center to reload a timeline kind. Its reader decodes into C# `int`
 * fields, so a record whose counter or version does not fit 32 bits reads as
 * nothing.
 */
module WidgetDataService {
  import opened Wrappers
  import opened WidgetDataModel
  import opened AppGroup
  import WidgetConstants
  import Numbers
  import SharedStorage

  /** The files after `SendDataToWidget(data)`: the from-app slot is replaced when the container resolves. */
  function Sent(resolvable: bool, files: Files, data: WidgetData): (r: Files)
    ensures forall n :: n != WidgetConstants.FromAppFile ==> (n in r <==> n in files)
    ensures forall n :: n != WidgetConstants.FromAppFile && n in files ==> r[n] == files[n]
    ensures if resolvable then WidgetConstants.FromAppFile in r && r[WidgetConstants.FromAppFile] == Stored(data)
            else r == files
  {
    if resolvable then files[WidgetConstants.FromAppFile := Stored(data)] else files
  }

  method SendDataToWidget(c: Container, data: WidgetData)
    modifies c
    ensures c.files == Sent(c.appResolves, old(c.files), data)
  {
    if c.appResolves {
      c.files := c.files[WidgetConstants.FromAppFile := Stored(data)];
    }
  }

  /** `ReadDataFromWidget()`: the record the widget wrote, decoded into 32-bit fields. */
  function ReadDataFromWidget(resolvable: bool, files: Files): (r: Option<WidgetData>)
    ensures r.Some? <==> resolvable && WidgetConstants.FromWidgetFile in files
                         && files[WidgetConstants.FromWidgetFile].Stored?
                         && Numbers.IsInt32(files[WidgetConstants.FromWidgetFile].data.version)
                         && Numbers.IsInt32(files[WidgetConstants.FromWidgetFile].data.counter)
    ensures r.Some? ==> files[WidgetConstants.FromWidgetFile] == Stored(r.value)
  {
    Load(resolvable, files, WidgetConstants.FromWidgetFile, Bits32)
  }

  /** The files after `ClearWidgetIncomingData()`: the from-widget file is deleted if it exists. */
  function Cleared(resolvable: bool, files: Files): (r: Files)
    ensures forall n :: n != WidgetConstants.FromWidgetFile ==> (n in r <==> n in files)
    ensures forall n :: n != WidgetConstants.FromWidgetFile && n in files ==> r[n] == files[n]
    ensures resolvable ==> WidgetConstants.FromWidgetFile !in r
    ensures !resolvable ==> r == files
  {
    if resolvable then files - {WidgetConstants.FromWidgetFile} else files
  }

  method ClearWidgetIncomingData(c: Container)
    modifies c
    ensures c.files == Cleared(c.appResolves, old(c.files))
  {
    if c.appResolves && WidgetConstants.FromWidgetFile in c.files {
      c.files := c.files - {WidgetConstants.FromWidgetFile};
    }
  }

  /**
   * `RefreshWidget(kind)`: a reload of `kind` is requested; when creating the
   * proxy or the reload call throws (`proxyOk` is false) the failure is
   * swallowed and nothing is requested.
   */
  method RefreshWidget(center: WidgetCenter, kind: string, proxyOk: bool)
    modifies center
    ensures center.reloads == old(center.reloads) + (if proxyOk then [kind] else [])
  {
    if proxyOk {
      center.reloads := center.reloads + [kind];
    }
  }

  /** After clearing, the app reads nothing from the widget until the widget writes again. */
  lemma ClearedReadsNothing(resolvable: bool, files: Files)
    ensures ReadDataFromWidget(resolvable, Cleared(resolvable, files)) == None
    ensures SharedStorage.ReadAppData(resolvable, Cleared(resolvable, files)) == SharedStorage.ReadAppData(resolvable, files)
  {
  }

  /**
   * What the app sends, the widget reads back unchanged: a record with C#
   * `int` fields always fits the widget's 64-bit reader.
   */
  lemma SentReachesWidget(appResolves: bool, widgetResolves: bool, files: Files, data: WidgetData)
    requires Numbers.IsInt32(data.version) && Numbers.IsInt32(data.counter)
    ensures SharedStorage.ReadAppData(widgetResolves, Sent(appResolves, files, data))
            == if appResolves && widgetResolves then Some(data) else SharedStorage.ReadAppData(widgetResolves, files)
  {
  }

  /**
   * What the widget writes, the app reads back exactly when its counter and
   * version fit in 32 bits; a wider counter makes the C# reader fail and the
   * app sees no widget record at all.
   */
  lemma WidgetWriteReachesApp(files: Files, data: WidgetData)
    ensures ReadDataFromWidget(true, SharedStorage.WidgetWrite(true, files, data, true)) == Some(data)
            <==> Numbers.IsInt32(data.version) && Numbers.IsInt32(data.counter)
    ensures ReadDataFromWidget(true, SharedStorage.WidgetWrite(true, files, data, true)).None?
            <==> !(Numbers.IsInt32(data.version) && Numbers.IsInt32(data.counter))
  {
  }
}
