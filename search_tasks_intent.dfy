/** The "Search Tasks" intent (Swift `SearchTasksIntent.perform`). */
module SearchTasksIntent {
  import opened Wrappers
  import Numbers
  import opened TaskList
  import opened TaskEntity
  import opened IntentError
  import opened AppIntentsBridge
  import TaskQuery
  import ListTasksIntent

  datatype SearchReply = SearchReply(value: seq<TaskEntity>, dialog: string)

  /**
   * `perform()`: `appNotReady` without a provider; otherwise the entities of
   * the matching tasks, with a dialog that says when there are none and
   * counts them otherwise.
   */
  function Perform(provider: AppIntentsBridgeProvider?, query: string): (r: Result<SearchReply, IntentError>)
    reads if provider == null then {} else {provider.service}
    reads if provider == null then [] else provider.service.tasks
    ensures provider == null ==> r == Failure(AppNotReady)
    ensures provider != null ==> r.Success? && r.value.value == TaskQuery.EntitiesMatching(provider, query)
    ensures provider != null ==>
              (r.value.value == [] <==> forall t :: t in provider.service.View() ==> !MatchesSearch(t, query))
    ensures r.Success? && r.value.value == [] ==> r.value.dialog == "No tasks found matching '" + query + "'"
    ensures r.Success? && r.value.value != [] ==>
              r.value.dialog == "Found " + Numbers.IntToString(|r.value.value|) + " task"
                                + ListTasksIntent.Plural(|r.value.value|) + " matching '" + query + "'"
  {
    if provider == null then Failure(AppNotReady)
    else
      var entities := TaskQuery.EntitiesMatching(provider, query);
      assert entities != [] ==> entities[0] in entities;
      if entities == [] then Success(SearchReply(entities, "No tasks found matching '" + query + "'"))
      else Success(SearchReply(entities, "Found " + Numbers.IntToString(|entities|) + " task"
                                         + ListTasksIntent.Plural(|entities|) + " matching '" + query + "'"))
  }
}
