/**
 * The widget extension's view of the container (Swift `SharedStorage`): it
 * reads both slots, writes only the from-widget slot, and reconciles the two
 * records by last writer wins on `updatedAt`.
 */
module SharedStorage {
  import opened Wrappers
  import opened WidgetDataModel
  import opened AppGroup
  import Settings
  import Strings
  import Numbers

  /** `readAppData()`: the record the app wrote, if it can be read. */
  function ReadAppData(resolvable: bool, files: Files): (r: Option<WidgetData>)
    ensures r.Some? <==> resolvable && Settings.fromAppFile in files && files[Settings.fromAppFile].Stored?
                         && Numbers.IsInt64(files[Settings.fromAppFile].data.version)
                         && Numbers.IsInt64(files[Settings.fromAppFile].data.counter)
    ensures r.Some? ==> files[Settings.fromAppFile] == Stored(r.value)
  {
    Load(resolvable, files, Settings.fromAppFile, Bits64)
  }

  /** `readWidgetData()`: the record the widget itself wrote, if it can be read. */
  function ReadWidgetData(resolvable: bool, files: Files): (r: Option<WidgetData>)
    ensures r.Some? <==> resolvable && Settings.fromWidgetFile in files && files[Settings.fromWidgetFile].Stored?
                         && Numbers.IsInt64(files[Settings.fromWidgetFile].data.version)
                         && Numbers.IsInt64(files[Settings.fromWidgetFile].data.counter)
    ensures r.Some? ==> files[Settings.fromWidgetFile] == Stored(r.value)
  {
    Load(resolvable, files, Settings.fromWidgetFile, Bits64)
  }

  /**
   * The files after `writeWidgetData(data)`: only the from-widget slot is
   * replaced; nothing changes when the container does not resolve or the
   * atomic write fails (`written` is false).
   */
  function WidgetWrite(resolvable: bool, files: Files, data: WidgetData, written: bool): (r: Files)
    ensures forall n :: n != Settings.fromWidgetFile ==> (n in r <==> n in files)
    ensures forall n :: n != Settings.fromWidgetFile && n in files ==> r[n] == files[n]
    ensures if resolvable && written then Settings.fromWidgetFile in r && r[Settings.fromWidgetFile] == Stored(data)
            else r == files
  {
    if resolvable && written then files[Settings.fromWidgetFile := Stored(data)] else files
  }

  /** `writeWidgetData(data)`; the outcome of the atomic file write is the parameter `written`. */
  method WriteWidgetData(c: Container, data: WidgetData, written: bool)
    modifies c
    ensures c.files == WidgetWrite(c.widgetResolves, old(c.files), data, written)
  {
    if c.widgetResolves && written {
      c.files := c.files[Settings.fromWidgetFile := Stored(data)];
    }
  }

  /** `getBestCounter()`. */
  function GetBestCounter(resolvable: bool, files: Files): (r: int)
    ensures var app := ReadAppData(resolvable, files);
            var widget := ReadWidgetData(resolvable, files);
            && (app.None? && widget.None? ==> r == 0)
            && ((app.Some? && (widget.None? || Strings.LexLeq(widget.value.updatedAt, app.value.updatedAt)))
                ==> r == app.value.counter)
            && ((widget.Some? && (app.None? || Strings.LexLess(app.value.updatedAt, widget.value.updatedAt)))
                ==> r == widget.value.counter)
  {
    match (ReadAppData(resolvable, files), ReadWidgetData(resolvable, files))
    case (Some(app), Some(widget)) =>
      Strings.LessExcludesLeq(app.updatedAt, widget.updatedAt);
      if Strings.LexLeq(widget.updatedAt, app.updatedAt) then app.counter else widget.counter
    case (Some(app), None) => app.counter
    case (None, Some(widget)) => widget.counter
    case (None, None) => 0
  }

  /** `getBestMessage()`. */
  function GetBestMessage(resolvable: bool, files: Files): (r: string)
    ensures var app := ReadAppData(resolvable, files);
            var widget := ReadWidgetData(resolvable, files);
            && (app.None? && widget.None? ==> r == "")
            && ((app.Some? && (widget.None? || Strings.LexLeq(widget.value.updatedAt, app.value.updatedAt)))
                ==> r == app.value.message)
            && ((widget.Some? && (app.None? || Strings.LexLess(app.value.updatedAt, widget.value.updatedAt)))
                ==> r == widget.value.message)
  {
    match (ReadAppData(resolvable, files), ReadWidgetData(resolvable, files))
    case (Some(app), Some(widget)) =>
      Strings.LessExcludesLeq(app.updatedAt, widget.updatedAt);
      if Strings.LexLeq(widget.updatedAt, app.updatedAt) then app.message else widget.message
    case (Some(app), None) => app.message
    case (None, Some(widget)) => widget.message
    case (None, None) => ""
  }

  /**
   * Last writer wins, stated independently of the code: `w` is one of the
   * present records, no present record has a later `updatedAt`, and on equal
   * timestamps the app record is the one chosen.
   */
  ghost predicate LastWriter(app: Option<WidgetData>, widget: Option<WidgetData>, w: WidgetData) {
    && (app == Some(w) || widget == Some(w))
    && (app.Some? ==> Strings.LexLeq(app.value.updatedAt, w.updatedAt))
    && (widget.Some? ==> Strings.LexLeq(widget.value.updatedAt, w.updatedAt))
    && (app.Some? && widget.Some? && app.value.updatedAt == widget.value.updatedAt ==> w == app.value)
  }

  /** At most one record is the last writer. */
  lemma LastWriterUnique(app: Option<WidgetData>, widget: Option<WidgetData>, w1: WidgetData, w2: WidgetData)
    requires LastWriter(app, widget, w1) && LastWriter(app, widget, w2)
    ensures w1 == w2
  {
    if w1 != w2 {
      Strings.LexLeqAntisymmetric(app.value.updatedAt, widget.value.updatedAt);
    }
  }

  /**
   * The reconciled counter and message: 0 and "" when neither record can be
   * read; otherwise both come from the same record, the last writer.
   */
  lemma BestIsLastWriter(resolvable: bool, files: Files)
    ensures var app := ReadAppData(resolvable, files);
            var widget := ReadWidgetData(resolvable, files);
            if app.None? && widget.None? then
              GetBestCounter(resolvable, files) == 0 && GetBestMessage(resolvable, files) == ""
            else
              exists w :: LastWriter(app, widget, w)
                && GetBestCounter(resolvable, files) == w.counter
                && GetBestMessage(resolvable, files) == w.message
  {
    var app := ReadAppData(resolvable, files);
    var widget := ReadWidgetData(resolvable, files);
    match (app, widget)
    case (Some(a), Some(b)) =>
      if Strings.LexLeq(b.updatedAt, a.updatedAt) {
        Strings.LexLeqReflexive(a.updatedAt);
        assert LastWriter(app, widget, a);
      } else {
        Strings.NotLeqIsLess(a.updatedAt, b.updatedAt);
        Strings.LexLeqReflexive(b.updatedAt);
        assert LastWriter(app, widget, b);
      }
    case (Some(a), None) =>
      Strings.LexLeqReflexive(a.updatedAt);
      assert LastWriter(app, widget, a);
    case (None, Some(b)) =>
      Strings.LexLeqReflexive(b.updatedAt);
      assert LastWriter(app, widget, b);
    case (None, None) =>
  }

  /** A record stamped "" (the Swift default) never beats one with a timestamp. */
  lemma EmptyStampNeverWins(resolvable: bool, files: Files)
    requires ReadAppData(resolvable, files).Some? && ReadWidgetData(resolvable, files).Some?
    ensures var app := ReadAppData(resolvable, files).value;
            var widget := ReadWidgetData(resolvable, files).value;
            (app.updatedAt == "" && widget.updatedAt != "" ==> GetBestCounter(resolvable, files) == widget.counter)
            && (widget.updatedAt == "" ==> GetBestCounter(resolvable, files) == app.counter)
  {
  }

  /**
   * The app's record of 10:00 and the
   * widget's of 11:00; the widget's counter 9 wins.
   */
  lemma LaterWidgetWins()
    ensures var files := map[Settings.fromAppFile := Stored(WidgetData(1, "", "", 5, "2024-01-01T10:00:00Z", map[])),
                             Settings.fromWidgetFile := Stored(WidgetData(1, "", "", 9, "2024-01-01T11:00:00Z", map[]))];
            GetBestCounter(true, files) == 9
  {
    var files := map[Settings.fromAppFile := Stored(WidgetData(1, "", "", 5, "2024-01-01T10:00:00Z", map[])),
                     Settings.fromWidgetFile := Stored(WidgetData(1, "", "", 9, "2024-01-01T11:00:00Z", map[]))];
    assert ReadAppData(true, files).Some?;
    assert ReadWidgetData(true, files).Some?;
    var a := "2024-01-01T10:00:00Z";
    var b := "2024-01-01T11:00:00Z";
    assert a[..12] == b[..12] && a[12] < b[12];
    LexLeqAtFirstDifference(b, a, 12);
  }

  /**
   * The app stamps `DateTime.UtcNow.ToString("o")` (with seven fractional
   * digits) and the widget stamps ISO 8601 without fractions. Within one
   * second '.' sorts before 'Z', so a widget record wins against an app record
   * written later in the same second.
   */
  lemma SameSecondAppWriteLoses()
    ensures var files := map[Settings.fromAppFile := Stored(WidgetData(1, "MauiAppleWidgets", "Sent from app", 5, "2024-01-01T10:00:00.5000000Z", map[])),
                             Settings.fromWidgetFile := Stored(WidgetData(1, "", "incremented via widget", 9, "2024-01-01T10:00:00Z", map[]))];
            GetBestCounter(true, files) == 9
  {
    var files := map[Settings.fromAppFile := Stored(WidgetData(1, "MauiAppleWidgets", "Sent from app", 5, "2024-01-01T10:00:00.5000000Z", map[])),
                     Settings.fromWidgetFile := Stored(WidgetData(1, "", "incremented via widget", 9, "2024-01-01T10:00:00Z", map[]))];
    assert ReadAppData(true, files).Some?;
    assert ReadWidgetData(true, files).Some?;
    var a := "2024-01-01T10:00:00.5000000Z";
    var b := "2024-01-01T10:00:00Z";
    assert a[..19] == b[..19] && a[19] < b[19];
    LexLeqAtFirstDifference(b, a, 19);
  }

  /** When `b` and `a` agree before position k and b[k] > a[k], `b <= a` fails. */
  lemma {:induction false} LexLeqAtFirstDifference(b: string, a: string, k: nat)
    requires k < |a| && k < |b| && a[..k] == b[..k] && a[k] < b[k]
    ensures !Strings.LexLeq(b, a)
  {
    if k > 0 {
      assert a[1..][..k - 1] == a[1..k] == b[1..k] == b[1..][..k - 1];
      assert a[0] == a[..k][0] == b[..k][0] == b[0];
      LexLeqAtFirstDifference(b[1..], a[1..], k - 1);
    }
  }
}
