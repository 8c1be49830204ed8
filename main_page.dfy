/**
 * The app's page (C# `MainPage`). It owns the app's counter, pushes it to the
 * from-app slot after every change, and consumes records the widget leaves in
 * the from-widget slot. The clock reading `now` (the round-trip rendering of
 * `DateTime.UtcNow`) and whether the widget center proxy works (`proxyOk`)
 * are parameters.
 */
module MainPage {
  import opened Wrappers
  import opened WidgetDataModel
  import opened AppGroup
  import Numbers
  import WidgetConstants
  import WidgetDataService
  import SharedStorage
  import Strings

  /** The record `SyncOutgoingData` sends for `counter` at time `now`. */
  function OutgoingRecord(counter: int, now: string): (d: WidgetData)
    ensures d.counter == counter && d.updatedAt == now
    ensures d.version == 1 && d.extras == map[]
    ensures d.title == "MauiAppleWidgets" && d.message == "Sent from app"
  {
    WidgetData(1, "MauiAppleWidgets", "Sent from app", counter, now, map[])
  }

  /** C# `Counter++` on an `int`: wraps around at the top of the range. */
  function Incremented(counter: Numbers.Int32): Numbers.Int32 {
    Numbers.Wrap32(counter + 1)
  }

  /** C# `Counter--` on an `int`: wraps around at the bottom of the range. */
  function Decremented(counter: Numbers.Int32): Numbers.Int32 {
    Numbers.Wrap32(counter - 1)
  }

  class MainPage {
    const container: Container
    const center: WidgetCenter
    var counter: Numbers.Int32
    var statusMessage: string
    /** The property names announced through `OnPropertyChanged`, in order. */
    var propertyChanges: seq<string>

    constructor(container: Container, center: WidgetCenter)
      ensures this.container == container && this.center == center
      ensures counter == 0 && statusMessage == "" && propertyChanges == []
    {
      this.container := container;
      this.center := center;
      counter := 0;
      statusMessage := "";
      propertyChanges := [];
    }

    /** The `Counter` setter: a change is announced only when the value differs. */
    method SetCounter(value: Numbers.Int32)
      modifies this
      ensures counter == value && statusMessage == old(statusMessage)
      ensures propertyChanges == old(propertyChanges) + (if old(counter) == value then [] else ["Counter"])
    {
      if counter == value {
        return;
      }
      counter := value;
      propertyChanges := propertyChanges + ["Counter"];
    }

    /** The `StatusMessage` setter: every assignment is announced. */
    method SetStatusMessage(value: string)
      modifies this
      ensures statusMessage == value && counter == old(counter)
      ensures propertyChanges == old(propertyChanges) + ["StatusMessage"]
    {
      statusMessage := value;
      propertyChanges := propertyChanges + ["StatusMessage"];
    }

    /** `SyncOutgoingData()`: the current counter goes to the from-app slot. */
    method SyncOutgoingData(now: string)
      modifies container
      ensures container.files == WidgetDataService.Sent(container.appResolves, old(container.files), OutgoingRecord(counter, now))
    {
      WidgetDataService.SendDataToWidget(container, OutgoingRecord(counter, now));
    }

    /**
     * `LoadIncomingWidgetData()`: a record the widget left is adopted, deleted
     * and echoed back as the app's own record; without one, the status is
     * cleared and nothing else changes.
     */
    method LoadIncomingWidgetData(now: string)
      modifies this, container
      ensures var incoming := WidgetDataService.ReadDataFromWidget(container.appResolves, old(container.files));
              if incoming.Some? then
                && counter == incoming.value.counter
                && statusMessage == "Updated by widget: " + incoming.value.message
                && container.files == WidgetDataService.Sent(container.appResolves,
                     WidgetDataService.Cleared(container.appResolves, old(container.files)),
                     OutgoingRecord(counter, now))
                && propertyChanges == old(propertyChanges)
                     + (if old(counter) == counter then [] else ["Counter"]) + ["StatusMessage"]
              else
                && counter == old(counter)
                && statusMessage == ""
                && container.files == old(container.files)
                && propertyChanges == old(propertyChanges) + ["StatusMessage"]
    {
      var incoming := WidgetDataService.ReadDataFromWidget(container.appResolves, container.files);
      if incoming.Some? {
        SetCounter(incoming.value.counter);
        SetStatusMessage("Updated by widget: " + incoming.value.message);
        WidgetDataService.ClearWidgetIncomingData(container);
        SyncOutgoingData(now);
      } else {
        SetStatusMessage("");
      }
    }

    /** `OnAppearing()`: the page looks for widget changes whenever it appears. */
    method OnAppearing(now: string)
      modifies this, container
      ensures var incoming := WidgetDataService.ReadDataFromWidget(container.appResolves, old(container.files));
              if incoming.Some? then
                && counter == incoming.value.counter
                && statusMessage == "Updated by widget: " + incoming.value.message
                && container.files == WidgetDataService.Sent(container.appResolves,
                     WidgetDataService.Cleared(container.appResolves, old(container.files)),
                     OutgoingRecord(counter, now))
                && propertyChanges == old(propertyChanges)
                     + (if old(counter) == counter then [] else ["Counter"]) + ["StatusMessage"]
              else
                && counter == old(counter)
                && statusMessage == ""
                && container.files == old(container.files)
                && propertyChanges == old(propertyChanges) + ["StatusMessage"]
    {
      LoadIncomingWidgetData(now);
    }

    /** `OnResumed()`: the same check when the app returns from the background. */
    method OnResumed(now: string)
      modifies this, container
      ensures var incoming := WidgetDataService.ReadDataFromWidget(container.appResolves, old(container.files));
              if incoming.Some? then
                && counter == incoming.value.counter
                && statusMessage == "Updated by widget: " + incoming.value.message
                && container.files == WidgetDataService.Sent(container.appResolves,
                     WidgetDataService.Cleared(container.appResolves, old(container.files)),
                     OutgoingRecord(counter, now))
                && propertyChanges == old(propertyChanges)
                     + (if old(counter) == counter then [] else ["Counter"]) + ["StatusMessage"]
              else
                && counter == old(counter)
                && statusMessage == ""
                && container.files == old(container.files)
                && propertyChanges == old(propertyChanges) + ["StatusMessage"]
    {
      LoadIncomingWidgetData(now);
    }

    /** `OnResumedByUrl(n)`: the counter a widget link carried is adopted and sent back. */
    method OnResumedByUrl(incomingCounter: Numbers.Int32, now: string)
      modifies this, container
      ensures counter == incomingCounter && statusMessage == "Updated via widget tap"
      ensures container.files == WidgetDataService.Sent(container.appResolves, old(container.files), OutgoingRecord(counter, now))
      ensures propertyChanges == old(propertyChanges) + (if old(counter) == incomingCounter then [] else ["Counter"]) + ["StatusMessage"]
    {
      SetCounter(incomingCounter);
      SetStatusMessage("Updated via widget tap");
      SyncOutgoingData(now);
    }

    /** The "+" button: the counter goes up by one (wrapping), is sent, and the widget is reloaded. */
    method OnAddClicked(now: string, proxyOk: bool)
      modifies this, container, center
      ensures counter == Incremented(old(counter)) && statusMessage == ""
      ensures container.files == WidgetDataService.Sent(container.appResolves, old(container.files), OutgoingRecord(counter, now))
      ensures center.reloads == old(center.reloads) + (if proxyOk then [WidgetConstants.WidgetKind] else [])
      ensures propertyChanges == old(propertyChanges) + ["Counter", "StatusMessage"]
    {
      Numbers.Wrap32Moves(counter, 1);
      SetCounter(Incremented(counter));
      SetStatusMessage("");
      SyncOutgoingData(now);
      WidgetDataService.RefreshWidget(center, WidgetConstants.WidgetKind, proxyOk);
    }

    /** The "-" button: the counter goes down by one (wrapping), is sent, and the widget is reloaded. */
    method OnSubtractClicked(now: string, proxyOk: bool)
      modifies this, container, center
      ensures counter == Decremented(old(counter)) && statusMessage == ""
      ensures container.files == WidgetDataService.Sent(container.appResolves, old(container.files), OutgoingRecord(counter, now))
      ensures center.reloads == old(center.reloads) + (if proxyOk then [WidgetConstants.WidgetKind] else [])
      ensures propertyChanges == old(propertyChanges) + ["Counter", "StatusMessage"]
    {
      Numbers.Wrap32Moves(counter, -1);
      SetCounter(Decremented(counter));
      SetStatusMessage("");
      SyncOutgoingData(now);
      WidgetDataService.RefreshWidget(center, WidgetConstants.WidgetKind, proxyOk);
    }
  }

  /** "+" then "-" gives back the counter, across the wrap-around too. */
  lemma AddThenSubtractRestores(counter: Numbers.Int32)
    ensures Decremented(Incremented(counter)) == counter
    ensures Incremented(Decremented(counter)) == counter
  {
    Numbers.Wrap32Congruent(Numbers.Wrap32(counter + 1) - 1, counter);
    Numbers.Wrap32Congruent(Numbers.Wrap32(counter - 1) + 1, counter);
  }

  /** "+" on the largest `int` gives the smallest. */
  lemma AddWrapsAtMax()
    ensures Incremented(Numbers.INT32_MAX) == Numbers.INT32_MIN
  {
    Numbers.Wrap32Congruent(Numbers.INT32_MAX + 1, Numbers.INT32_MIN);
  }

  /**
   * The hand-shake: once the app has consumed a widget record, the widget
   * reads no record of its own and the app's echo, so both sides show the
   * consumed counter.
   */
  lemma ConsumedRecordIsShownByWidget(files: Files, now: string)
    requires WidgetDataService.ReadDataFromWidget(true, files).Some?
    ensures var incoming := WidgetDataService.ReadDataFromWidget(true, files).value;
            var after := WidgetDataService.Sent(true, WidgetDataService.Cleared(true, files), OutgoingRecord(incoming.counter, now));
            && SharedStorage.ReadWidgetData(true, after) == None
            && SharedStorage.GetBestCounter(true, after) == incoming.counter
            && WidgetDataService.ReadDataFromWidget(true, after) == None
  {
  }

  /**
   * An app write is what the widget shows unless the widget holds a record
   * stamped later: with no readable widget record, or one stamped no later
   * than `now`, the widget's reconciled counter is the page's counter.
   */
  lemma SyncIsShownByWidget(files: Files, counter: Numbers.Int32, now: string)
    requires var widget := SharedStorage.ReadWidgetData(true, files);
             widget.None? || Strings.LexLeq(widget.value.updatedAt, now)
    ensures SharedStorage.GetBestCounter(true, WidgetDataService.Sent(true, files, OutgoingRecord(counter, now))) == counter
  {
    var after := WidgetDataService.Sent(true, files, OutgoingRecord(counter, now));
    assert WidgetConstants.FromAppFile in after && after[WidgetConstants.FromAppFile] == Stored(OutgoingRecord(counter, now));
    assert Numbers.IsInt32(counter);
    assert SharedStorage.ReadAppData(true, after) == Some(OutgoingRecord(counter, now));
    assert SharedStorage.ReadWidgetData(true, after) == SharedStorage.ReadWidgetData(true, files);
  }
}
