/**
 * The "Set Due Date" intent (Swift `SetDueDateIntent.perform`). The medium
 * date text `DateFormatter` produces is a parameter.
 */
module SetDueDateIntent {
  import opened Wrappers
  import opened TaskItem
  import opened TaskList
  import opened TaskEntity
  import opened IntentError
  import opened AppIntentsBridge

  function Dialog(title: string, dateText: string): string {
    "Set due date of '" + title + "' to " + dateText
  }

  /**
   * `perform()`: `appNotReady` without a provider; otherwise the due date of
   * the target is set through the provider, and an unknown id gives
   * `taskNotFound`.
   */
  method Perform(provider: AppIntentsBridgeProvider?, target: TaskEntity, dueDate: int, dateText: string)
    returns (r: Result<string, IntentError>)
    requires provider != null ==> provider.service.Valid()
    modifies if provider == null then [] else provider.service.tasks
    ensures provider == null ==> r == Failure(AppNotReady)
    ensures provider != null ==> provider.service.Valid()
    ensures provider != null ==> provider.service.View() == WithDueDate(old(provider.service.View()), target.id, dueDate)
    ensures provider != null ==> (r.Success? <==> HasId(old(provider.service.View()), target.id))
    ensures provider != null && r.Failure? ==> r.error == TaskNotFound
    ensures r.Success? ==> r.value == Dialog(target.title, dateText)
  {
    if provider == null {
      return Failure(AppNotReady);
    }
    var success := provider.SetDueDate(dueDate, target.id);
    if !success {
      return Failure(TaskNotFound);
    }
    r := Success(Dialog(target.title, dateText));
  }

  /** After a successful update, looking the task up by its id finds the new due date. */
  lemma DueDateIsFound(ts: seq<TaskData>, id: string, date: int)
    requires HasId(ts, id)
    ensures FindById(WithDueDate(ts, id, date), id).Some?
    ensures FindById(WithDueDate(ts, id, date), id).value == FindById(ts, id).value.(dueDate := Some(date))
  {
    var i := IndexOfId(ts, id).value;
    var r := WithDueDate(ts, id, date);
    assert forall j :: 0 <= j < |r| ==> r[j].id == ts[j].id;
    assert IndexOfId(r, id) == Some(i);
  }
}
