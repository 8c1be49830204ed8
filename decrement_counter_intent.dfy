/**
 * The widget's "-" button (Swift `DecrementCounterIntent`), the mirror image
 * of the increment intent.
 */
module DecrementCounterIntent {
  import opened Wrappers
  import opened WidgetDataModel
  import opened AppGroup
  import Numbers
  import Strings
  import Settings
  import SharedStorage
  import IncrementCounterIntent

  /** The record the intent writes: the predecessor of `current`, stamped `now`. */
  function DecrementRecord(current: int, now: string): (d: WidgetData)
    ensures d.counter == current - 1 && d.updatedAt == now && d.version == 1
    ensures d.title == "" && d.message == "decremented via widget" && d.extras == map[]
  {
    WidgetData(1, "", "decremented via widget", current - 1, now, map[])
  }

  /** The files after `perform()`; unchanged when the subtraction traps. */
  function Decremented(resolvable: bool, files: Files, now: string, written: bool): Files {
    var current := SharedStorage.GetBestCounter(resolvable, files);
    if Numbers.IsInt64(current - 1) then
      SharedStorage.WidgetWrite(resolvable, files, DecrementRecord(current, now), written)
    else files
  }

  method Perform(c: Container, center: WidgetCenter, now: string, written: bool)
    returns (outcome: IncrementCounterIntent.Outcome)
    modifies c, center
    ensures var current := SharedStorage.GetBestCounter(c.widgetResolves, old(c.files));
            outcome == (if Numbers.IsInt64(current - 1) then IncrementCounterIntent.Completed
                        else IncrementCounterIntent.Trapped)
    ensures c.files == Decremented(c.widgetResolves, old(c.files), now, written)
    ensures center.reloads == old(center.reloads)
                              + (if outcome == IncrementCounterIntent.Completed then [Settings.widgetKind] else [])
  {
    var current := SharedStorage.GetBestCounter(c.widgetResolves, c.files);
    if !Numbers.IsInt64(current - 1) {
      return IncrementCounterIntent.Trapped;
    }
    var data := DecrementRecord(current, now);
    SharedStorage.WriteWidgetData(c, data, written);
    center.reloads := center.reloads + [Settings.widgetKind];
    outcome := IncrementCounterIntent.Completed;
  }

  /** Same shape as the increment: the predecessor shows iff the tap is the last writer. */
  lemma DecrementRetreats(files: Files, now: string)
    requires Numbers.IsInt64(SharedStorage.GetBestCounter(true, files) - 1)
    ensures var app := SharedStorage.ReadAppData(true, files);
            var after := SharedStorage.GetBestCounter(true, Decremented(true, files, now, true));
            if app.None? || Strings.LexLess(app.value.updatedAt, now)
            then after == SharedStorage.GetBestCounter(true, files) - 1
            else after == app.value.counter
  {
    var current := SharedStorage.GetBestCounter(true, files);
    var files' := Decremented(true, files, now, true);
    assert SharedStorage.ReadWidgetData(true, files') == Some(DecrementRecord(current, now));
    var app := SharedStorage.ReadAppData(true, files);
    if app.Some? && Strings.LexLess(app.value.updatedAt, now) {
      if Strings.LexLeq(now, app.value.updatedAt) {
        Strings.LexLeqAntisymmetric(now, app.value.updatedAt);
      }
    } else if app.Some? {
      Strings.LexLeqTotal(now, app.value.updatedAt);
    }
  }

  /**
   * A "+" tap at `t1` followed by a "-" tap at a time not before `t1` gives
   * back the counter shown before both, provided the first tap was the last
   * writer (the app's record, if any, is older than `t1`).
   */
  lemma IncrementThenDecrementRestores(files: Files, t1: string, t2: string)
    requires Numbers.IsInt64(SharedStorage.GetBestCounter(true, files) + 1)
    requires var app := SharedStorage.ReadAppData(true, files);
             app.None? || Strings.LexLess(app.value.updatedAt, t1)
    requires Strings.LexLeq(t1, t2)
    ensures SharedStorage.GetBestCounter(true, Decremented(true, IncrementCounterIntent.Incremented(true, files, t1, true), t2, true))
            == SharedStorage.GetBestCounter(true, files)
  {
    var current := SharedStorage.GetBestCounter(true, files);
    var mid := IncrementCounterIntent.Incremented(true, files, t1, true);
    IncrementCounterIntent.IncrementAdvances(files, t1);
    assert SharedStorage.GetBestCounter(true, mid) == current + 1;
    IncrementCounterIntent.AppRecordKept(true, files, t1, true);
    var app := SharedStorage.ReadAppData(true, mid);
    if app.Some? {
      Strings.LexLessLeqTransitive(app.value.updatedAt, t1, t2);
    }
    DecrementRetreats(mid, t2);
  }
}
