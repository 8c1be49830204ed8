/**
 * How Siri and Shortcuts find tasks (Swift `TaskEntityQuery`). Each query
 * looks at the registered provider first; with none registered it answers
 * with nothing rather than failing. The provider is the nullable
 * `TaskBridgeManager.shared.provider`.
 */
module TaskQuery {
  import opened Wrappers
  import opened TaskItem
  import opened TaskList
  import opened AppIntentsBridge
  import opened TaskEntity

  /** The identifiers the service knows, in input order: those `entities(for:)` keeps. */
  function KnownIds(ids: seq<string>, view: seq<TaskData>): (r: seq<string>)
    ensures |r| <= |ids|
    ensures forall i :: 0 <= i < |r| ==> HasId(view, r[i])
    ensures forall x :: x in r <==> x in ids && HasId(view, x)
  {
    if ids == [] then []
    else (if HasId(view, ids[0]) then [ids[0]] else []) + KnownIds(ids[1..], view)
  }

  /**
   * The order is the input order: one more identifier at the end adds it at
   * the end exactly when the service knows it.
   */
  lemma {:induction false} KnownIdsAppend(ids: seq<string>, x: string, view: seq<TaskData>)
    ensures KnownIds(ids + [x], view) == KnownIds(ids, view) + (if HasId(view, x) then [x] else [])
  {
    if ids == [] {
      assert [] + [x] == [x];
    } else {
      assert (ids + [x])[0] == ids[0];
      assert (ids + [x])[1..] == ids[1..] + [x];
      KnownIdsAppend(ids[1..], x, view);
    }
  }

  /**
   * The entities `entities(for:)` builds from one snapshot of the tasks:
   * each identifier is looked up, and those without a task are dropped.
   */
  function EntitiesIn(view: seq<TaskData>, ids: seq<string>): (r: seq<TaskEntity>)
    ensures |r| == |KnownIds(ids, view)|
    ensures forall i :: 0 <= i < |r| ==>
              r[i].id == KnownIds(ids, view)[i]
              && FindById(view, r[i].id).Some? && r[i] == FromBridge(ToBridge(FindById(view, r[i].id).value))
  {
    if ids == [] then []
    else
      var rest := EntitiesIn(view, ids[1..]);
      match FindById(view, ids[0])
      case None => rest
      case Some(t) => [FromBridge(ToBridge(t))] + rest
  }

  /**
   * `entities(for:)`: one entity for each identifier the provider finds, in
   * the order of the identifiers; unknown identifiers are dropped.
   */
  function EntitiesFor(provider: AppIntentsBridgeProvider?, ids: seq<string>): (r: seq<TaskEntity>)
    reads if provider == null then {} else {provider.service}
    reads if provider == null then [] else provider.service.tasks
    ensures provider == null ==> r == []
    ensures |r| <= |ids|
    ensures provider != null ==> |r| == |KnownIds(ids, provider.service.View())|
    ensures provider != null ==> forall i :: 0 <= i < |r| ==>
              r[i].id == KnownIds(ids, provider.service.View())[i]
              && provider.GetTask(r[i].id).Some? && r[i] == FromBridge(provider.GetTask(r[i].id).value)
  {
    if provider == null then []
    else EntitiesIn(provider.service.View(), ids)
  }

  /** `entities(matching:)`: the entities of the tasks the provider's search finds, in its order. */
  function EntitiesMatching(provider: AppIntentsBridgeProvider?, query: string): (r: seq<TaskEntity>)
    reads if provider == null then {} else {provider.service}
    reads if provider == null then [] else provider.service.tasks
    ensures provider == null ==> r == []
    ensures provider != null ==> r == FromBridgeAll(provider.SearchTasks(query))
    ensures provider != null ==> forall t :: t in provider.service.View() && MatchesSearch(t, query) ==>
              FromBridge(ToBridge(t)) in r
    ensures provider != null ==> forall e :: e in r ==>
              (exists t :: t in provider.service.View() && MatchesSearch(t, query) && e == FromBridge(ToBridge(t)))
  {
    if provider == null then []
    else
      var items := provider.SearchTasks(query);
      FromBridgeAllMembers(items);
      FromBridgeAll(items)
  }

  /** `suggestedEntities()`: the entities of all tasks, newest first. */
  function SuggestedEntities(provider: AppIntentsBridgeProvider?): (r: seq<TaskEntity>)
    reads if provider == null then {} else {provider.service}
    reads if provider == null then [] else provider.service.tasks
    ensures provider == null ==> r == []
    ensures provider != null ==> r == FromBridgeAll(provider.GetAllTasks())
    ensures provider != null ==> |r| == |provider.service.tasks|
    ensures provider != null ==> forall t :: t in provider.service.View() ==> FromBridge(ToBridge(t)) in r
  {
    if provider == null then []
    else
      var items := provider.GetAllTasks();
      FromBridgeAllMembers(items);
      FromBridgeAll(items)
  }

  /** Mapping keeps every item's entity, and only those. */
  lemma FromBridgeAllMembers(bs: seq<BridgeModels.BridgeTaskItem>)
    ensures forall b :: b in bs ==> FromBridge(b) in FromBridgeAll(bs)
    ensures forall e :: e in FromBridgeAll(bs) ==> exists b :: b in bs && e == FromBridge(b)
  {
    var r := FromBridgeAll(bs);
    forall b | b in bs ensures FromBridge(b) in r {
      var i :| 0 <= i < |bs| && bs[i] == b;
      assert r[i] == FromBridge(b);
    }
    forall e | e in r ensures exists b :: b in bs && e == FromBridge(b) {
      var i :| 0 <= i < |r| && r[i] == e;
      assert bs[i] in bs && e == FromBridge(bs[i]);
    }
  }
}
