/**
 * The widget's "+" button (Swift `IncrementCounterIntent`): read the
 * reconciled counter, write its successor into the from-widget slot stamped
 * with the current time, and ask for a timeline reload. Swift's `+` on `Int`
 * traps on overflow; the model makes that an explicit outcome in which
 * nothing is written.
 */
module IncrementCounterIntent {
  import opened Wrappers
  import opened WidgetDataModel
  import opened AppGroup
  import Numbers
  import Strings
  import Settings
  import SharedStorage

  datatype Outcome = Completed | Trapped

  /** The record the intent writes: the successor of `current`, stamped `now`. */
  function IncrementRecord(current: int, now: string): (d: WidgetData)
    ensures d.counter == current + 1 && d.updatedAt == now && d.version == 1
    ensures d.title == "" && d.message == "incremented via widget" && d.extras == map[]
  {
    WidgetData(1, "", "incremented via widget", current + 1, now, map[])
  }

  /** The reconciled counter is always a Swift `Int`. */
  lemma BestCounterIsInt64(resolvable: bool, files: Files)
    ensures Numbers.IsInt64(SharedStorage.GetBestCounter(resolvable, files))
  {
  }

  /** The files after `perform()`; unchanged when the addition traps. */
  function Incremented(resolvable: bool, files: Files, now: string, written: bool): Files {
    var current := SharedStorage.GetBestCounter(resolvable, files);
    if Numbers.IsInt64(current + 1) then
      SharedStorage.WidgetWrite(resolvable, files, IncrementRecord(current, now), written)
    else files
  }

  /**
   * `perform()`. `now` is the ISO 8601 text of the current time and `written`
   * the outcome of the atomic file write.
   */
  method Perform(c: Container, center: WidgetCenter, now: string, written: bool) returns (outcome: Outcome)
    modifies c, center
    ensures var current := SharedStorage.GetBestCounter(c.widgetResolves, old(c.files));
            outcome == (if Numbers.IsInt64(current + 1) then Completed else Trapped)
    ensures c.files == Incremented(c.widgetResolves, old(c.files), now, written)
    ensures center.reloads == old(center.reloads) + (if outcome == Completed then [Settings.widgetKind] else [])
  {
    var current := SharedStorage.GetBestCounter(c.widgetResolves, c.files);
    if !Numbers.IsInt64(current + 1) {
      return Trapped;
    }
    var data := IncrementRecord(current, now);
    SharedStorage.WriteWidgetData(c, data, written);
    center.reloads := center.reloads + [Settings.widgetKind];
    outcome := Completed;
  }

  /** The intent never touches the record the app wrote. */
  lemma AppRecordKept(resolvable: bool, files: Files, now: string, written: bool)
    ensures SharedStorage.ReadAppData(resolvable, Incremented(resolvable, files, now, written))
            == SharedStorage.ReadAppData(resolvable, files)
  {
  }

  /**
   * After a completed tap, the widget shows the successor exactly when the
   * tap is the last writer: there is no readable app record or it is stamped
   * strictly earlier than `now`. Otherwise the app's counter still wins and
   * the tap is shadowed.
   */
  lemma IncrementAdvances(files: Files, now: string)
    requires Numbers.IsInt64(SharedStorage.GetBestCounter(true, files) + 1)
    ensures var app := SharedStorage.ReadAppData(true, files);
            var after := SharedStorage.GetBestCounter(true, Incremented(true, files, now, true));
            if app.None? || Strings.LexLess(app.value.updatedAt, now)
            then after == SharedStorage.GetBestCounter(true, files) + 1
            else after == app.value.counter
  {
    var current := SharedStorage.GetBestCounter(true, files);
    var files' := Incremented(true, files, now, true);
    assert SharedStorage.ReadWidgetData(true, files') == Some(IncrementRecord(current, now));
    var app := SharedStorage.ReadAppData(true, files);
    if app.Some? && Strings.LexLess(app.value.updatedAt, now) {
      if Strings.LexLeq(now, app.value.updatedAt) {
        Strings.LexLeqAntisymmetric(now, app.value.updatedAt);
      }
    } else if app.Some? {
      Strings.LexLeqTotal(now, app.value.updatedAt);
    }
  }

  /** A tap whose write fails, or in a process that cannot reach the container, changes nothing. */
  lemma FailedWriteChangesNothing(resolvable: bool, files: Files, now: string, written: bool)
    requires !resolvable || !written
    ensures Incremented(resolvable, files, now, written) == files
  {
  }

  /** The only tap that traps is the one on the largest Swift `Int`. */
  lemma TrapsOnlyAtMax(resolvable: bool, files: Files)
    ensures !Numbers.IsInt64(SharedStorage.GetBestCounter(resolvable, files) + 1)
            <==> SharedStorage.GetBestCounter(resolvable, files) == Numbers.INT64_MAX
  {
  }
}
