/** The "Complete Task" intent (Swift `CompleteTaskIntent.perform`). */
module CompleteTaskIntent {
  import opened Wrappers
  import opened TaskItem
  import opened TaskList
  import opened TaskEntity
  import opened IntentError
  import opened AppIntentsBridge

  function Dialog(title: string): string {
    "Done! '" + title + "' has been marked as completed."
  }

  /**
   * `perform()`: `appNotReady` without a provider; otherwise the target is
   * completed through the provider, and an unknown id gives `taskNotFound`.
   */
  method Perform(provider: AppIntentsBridgeProvider?, target: TaskEntity) returns (r: Result<string, IntentError>)
    requires provider != null ==> provider.service.Valid()
    modifies if provider == null then [] else provider.service.tasks
    ensures provider == null ==> r == Failure(AppNotReady)
    ensures provider != null ==> provider.service.Valid()
    ensures provider != null ==> provider.service.View() == Completed(old(provider.service.View()), target.id)
    ensures provider != null ==> (r.Success? <==> HasId(old(provider.service.View()), target.id))
    ensures provider != null && r.Failure? ==> r.error == TaskNotFound
    ensures r.Success? ==> r.value == Dialog(target.title)
  {
    if provider == null {
      return Failure(AppNotReady);
    }
    var success := provider.CompleteTask(target.id);
    if !success {
      return Failure(TaskNotFound);
    }
    r := Success(Dialog(target.title));
  }

  /** After a successful completion, looking the task up by its id finds it completed. */
  lemma CompletedTaskIsFound(ts: seq<TaskData>, id: string)
    requires HasId(ts, id)
    ensures FindById(Completed(ts, id), id).Some?
    ensures FindById(Completed(ts, id), id).value == FindById(ts, id).value.(isCompleted := true)
  {
    var i := IndexOfId(ts, id).value;
    var r := Completed(ts, id);
    assert forall j :: 0 <= j < |r| ==> r[j].id == ts[j].id;
    assert IndexOfId(r, id) == Some(i);
  }
}
