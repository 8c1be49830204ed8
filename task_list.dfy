/**
 * The list logic of the task service, on snapshots of the task list: lookup
 * by id (`FirstOrDefault`), the in-place updates as their effect on the
 * snapshot, the `Where` filters, and the stable `OrderByDescending` on
 * `CreatedAt`.
 */
module TaskList {
  import opened Wrappers
  import opened TaskItem
  import Numbers
  import Strings

  // ------------------------------------------------------------ lookup

  /** The position of the first task with this id, as `FirstOrDefault(t => t.Id == id)` finds it. */
  function IndexOfId(ts: seq<TaskData>, id: string): (r: Option<nat>)
    ensures r.Some? ==> r.value < |ts| && ts[r.value].id == id
    ensures r.Some? ==> forall j :: 0 <= j < r.value ==> ts[j].id != id
    ensures r.None? <==> forall j :: 0 <= j < |ts| ==> ts[j].id != id
  {
    if ts == [] then None
    else if ts[0].id == id then Some(0)
    else match IndexOfId(ts[1..], id)
      case None => None
      case Some(k) => Some(k + 1)
  }

  predicate HasId(ts: seq<TaskData>, id: string) {
    exists j :: 0 <= j < |ts| && ts[j].id == id
  }

  predicate UniqueIds(ts: seq<TaskData>) {
    forall i, j :: 0 <= i < j < |ts| ==> ts[i].id != ts[j].id
  }

  /** `GetById(id)`: the first task with this id, or none. */
  function FindById(ts: seq<TaskData>, id: string): (r: Option<TaskData>)
    ensures r.Some? ==> r.value in ts && r.value.id == id
    ensures r.None? <==> !HasId(ts, id)
  {
    match IndexOfId(ts, id)
    case None => None
    case Some(i) => Some(ts[i])
  }

  // ------------------------------------------------------------ updates

  /** The list after `Complete(id)`. */
  function Completed(ts: seq<TaskData>, id: string): seq<TaskData> {
    match IndexOfId(ts, id)
    case None => ts
    case Some(i) => ts[i := ts[i].(isCompleted := true)]
  }

  /** The list after `SetDueDate(id, date)`. */
  function WithDueDate(ts: seq<TaskData>, id: string, date: int): seq<TaskData> {
    match IndexOfId(ts, id)
    case None => ts
    case Some(i) => ts[i := ts[i].(dueDate := Some(date))]
  }

  /** The list after `Delete(id)`. */
  function Deleted(ts: seq<TaskData>, id: string): seq<TaskData> {
    match IndexOfId(ts, id)
    case None => ts
    case Some(i) => ts[..i] + ts[i + 1..]
  }

  /**
   * `Complete(id)` touches one task, the first with this id, and only its
   * completion flag; with no such task nothing changes.
   */
  lemma CompleteChangesOnlyTheTarget(ts: seq<TaskData>, id: string)
    ensures var r := Completed(ts, id);
            && |r| == |ts|
            && (!HasId(ts, id) ==> r == ts)
            && (HasId(ts, id) ==>
                  var i := IndexOfId(ts, id).value;
                  && r[i].isCompleted
                  && r[i] == ts[i].(isCompleted := r[i].isCompleted)
                  && forall j :: 0 <= j < |ts| && j != i ==> r[j] == ts[j])
  {
  }

  /** Completing twice is completing once. */
  lemma CompleteIdempotent(ts: seq<TaskData>, id: string)
    ensures Completed(Completed(ts, id), id) == Completed(ts, id)
  {
    var r := Completed(ts, id);
    if HasId(ts, id) {
      var i := IndexOfId(ts, id).value;
      assert forall j :: 0 <= j < |r| ==> r[j].id == ts[j].id;
      assert IndexOfId(r, id) == Some(i);
      assert r[i := r[i].(isCompleted := true)] == r;
    }
  }

  /** `SetDueDate(id, d)` sets the due date of the first task with this id and nothing else. */
  lemma SetDueDateChangesOnlyTheTarget(ts: seq<TaskData>, id: string, date: int)
    ensures var r := WithDueDate(ts, id, date);
            && |r| == |ts|
            && (!HasId(ts, id) ==> r == ts)
            && (HasId(ts, id) ==>
                  var i := IndexOfId(ts, id).value;
                  && r[i].dueDate == Some(date)
                  && r[i] == ts[i].(dueDate := r[i].dueDate)
                  && forall j :: 0 <= j < |ts| && j != i ==> r[j] == ts[j])
  {
  }

  /**
   * `Delete(id)` removes exactly the first task with this id: one task fewer,
   * the same tasks otherwise, in the same relative order.
   */
  lemma DeleteRemovesOne(ts: seq<TaskData>, id: string)
    ensures var r := Deleted(ts, id);
            && (!HasId(ts, id) ==> r == ts)
            && (HasId(ts, id) ==>
                  var i := IndexOfId(ts, id).value;
                  && |r| == |ts| - 1
                  && multiset(r) + multiset{ts[i]} == multiset(ts)
                  && (forall j :: 0 <= j < i ==> r[j] == ts[j])
                  && (forall j :: i <= j < |r| ==> r[j] == ts[j + 1]))
  {
    if HasId(ts, id) {
      var i := IndexOfId(ts, id).value;
      assert Deleted(ts, id) == ts[..i] + ts[i + 1..];
      DeletedAt(ts, i);
    }
  }

  /** Removing the task at position `i`: the shape of the result. */
  lemma DeletedAt(ts: seq<TaskData>, i: nat)
    requires i < |ts|
    ensures var r := ts[..i] + ts[i + 1..];
            && |r| == |ts| - 1
            && multiset(r) + multiset{ts[i]} == multiset(ts)
            && (forall j :: 0 <= j < i ==> r[j] == ts[j])
            && (forall j :: i <= j < |r| ==> r[j] == ts[j + 1])
  {
    assert ts == ts[..i] + [ts[i]] + ts[i + 1..];
  }

  /** With distinct ids, a deleted id is gone and the ids stay distinct. */
  lemma DeleteKeepsIdsUnique(ts: seq<TaskData>, id: string)
    requires UniqueIds(ts)
    ensures UniqueIds(Deleted(ts, id)) && !HasId(Deleted(ts, id), id)
  {
    DeleteRemovesOne(ts, id);
  }

  /** Completing and setting a due date keep every id where it was. */
  lemma UpdatesKeepIds(ts: seq<TaskData>, id: string, date: int)
    ensures forall j :: 0 <= j < |ts| ==> Completed(ts, id)[j].id == ts[j].id
    ensures forall j :: 0 <= j < |ts| ==> WithDueDate(ts, id, date)[j].id == ts[j].id
  {
    CompleteChangesOnlyTheTarget(ts, id);
    SetDueDateChangesOnlyTheTarget(ts, id, date);
  }

  // ------------------------------------------------------------ filters

  /** LINQ `Where`: the tasks satisfying `p`, in their order. */
  function Where(ts: seq<TaskData>, p: TaskData -> bool): (r: seq<TaskData>)
    ensures |r| <= |ts|
    ensures forall x :: x in r <==> x in ts && p(x)
  {
    if ts == [] then []
    else if p(ts[0]) then [ts[0]] + Where(ts[1..], p)
    else Where(ts[1..], p)
  }

  /** `Where` keeps every matching task as often as it occurs, and no other. */
  lemma {:induction false} WhereMultiset(ts: seq<TaskData>, p: TaskData -> bool)
    ensures forall x :: multiset(Where(ts, p))[x] == if p(x) then multiset(ts)[x] else 0
  {
    if ts != [] {
      WhereMultiset(ts[1..], p);
      assert ts == [ts[0]] + ts[1..];
      assert multiset(ts) == multiset{ts[0]} + multiset(ts[1..]);
      if p(ts[0]) {
        assert multiset(Where(ts, p)) == multiset{ts[0]} + multiset(Where(ts[1..], p));
      } else {
        assert Where(ts, p) == Where(ts[1..], p);
      }
    }
  }

  /**
   * The search condition of `Search(query)`: the title or the notes (when
   * there are notes) contain the lower-cased query, ignoring case.
   */
  predicate MatchesSearch(t: TaskData, query: string) {
    var lowerQuery := Strings.ToLower(query);
    Strings.ContainsIgnoreCase(t.title, lowerQuery)
    || (t.notes.Some? && Strings.ContainsIgnoreCase(t.notes.value, lowerQuery))
  }

  lemma {:induction false} ToLowerIdempotent(s: string)
    ensures Strings.ToLower(Strings.ToLower(s)) == Strings.ToLower(s)
  {
    Strings.ToLowerKeepsLowerCase(Strings.ToLower(s));
  }

  /**
   * Lower-casing the query first changes nothing: a task matches exactly when
   * its title or notes contain the query ignoring case; the empty query
   * matches every task.
   */
  lemma SearchIgnoresCase(t: TaskData, query: string)
    ensures MatchesSearch(t, query)
            <==> Strings.ContainsIgnoreCase(t.title, query)
                 || (t.notes.Some? && Strings.ContainsIgnoreCase(t.notes.value, query))
    ensures query == "" ==> MatchesSearch(t, query)
  {
    ToLowerIdempotent(query);
    if query == "" {
      Strings.ContainsEmpty(t.title);
    }
  }

  /** The chained filters of `GetFiltered`, applied in the order the code applies them. */
  function FilterChain(ts: seq<TaskData>, category: Option<Numbers.Int32>, priority: Option<Numbers.Int32>,
                       showCompleted: bool): seq<TaskData> {
    var byCategory := if category.Some? then Where(ts, (t: TaskData) => t.category == category.value) else ts;
    var byPriority := if priority.Some? then Where(byCategory, (t: TaskData) => t.priority == priority.value) else byCategory;
    if !showCompleted then Where(byPriority, (t: TaskData) => !t.isCompleted) else byPriority
  }

  /** The filter as one condition. */
  predicate MatchesFilter(t: TaskData, category: Option<Numbers.Int32>, priority: Option<Numbers.Int32>,
                          showCompleted: bool) {
    && (category.None? || t.category == category.value)
    && (priority.None? || t.priority == priority.value)
    && (showCompleted || !t.isCompleted)
  }

  /** The chained filters keep exactly the tasks that meet every given condition. */
  lemma FilterChainSoundAndComplete(ts: seq<TaskData>, category: Option<Numbers.Int32>,
                                    priority: Option<Numbers.Int32>, showCompleted: bool)
    ensures forall x :: x in FilterChain(ts, category, priority, showCompleted)
                        <==> x in ts && MatchesFilter(x, category, priority, showCompleted)
  {
  }

  // ------------------------------------------------------------ ordering

  predicate SortedByCreatedDesc(ts: seq<TaskData>) {
    forall i, j :: 0 <= i < j < |ts| ==> ts[i].createdAt >= ts[j].createdAt
  }

  /** Inserts `x` before the first task not newer than it, so `x` precedes the tasks of its own time. */
  function InsertByCreatedDesc(x: TaskData, s: seq<TaskData>): (r: seq<TaskData>)
    ensures |r| == |s| + 1
  {
    if s == [] || s[0].createdAt <= x.createdAt then [x] + s
    else [s[0]] + InsertByCreatedDesc(x, s[1..])
  }

  /** LINQ `OrderByDescending(t => t.CreatedAt)`, a stable sort. */
  function OrderByCreatedDesc(ts: seq<TaskData>): (r: seq<TaskData>)
    ensures |r| == |ts|
  {
    if ts == [] then [] else InsertByCreatedDesc(ts[0], OrderByCreatedDesc(ts[1..]))
  }

  lemma {:induction false} InsertPermutes(x: TaskData, s: seq<TaskData>)
    ensures multiset(InsertByCreatedDesc(x, s)) == multiset{x} + multiset(s)
  {
    if s != [] && s[0].createdAt > x.createdAt {
      InsertPermutes(x, s[1..]);
      assert s == [s[0]] + s[1..];
    }
  }

  lemma {:induction false} InsertKeepsSorted(x: TaskData, s: seq<TaskData>)
    requires SortedByCreatedDesc(s)
    ensures SortedByCreatedDesc(InsertByCreatedDesc(x, s))
  {
    if s != [] && s[0].createdAt > x.createdAt {
      InsertKeepsSorted(x, s[1..]);
      var rest := InsertByCreatedDesc(x, s[1..]);
      InsertPermutes(x, s[1..]);
      forall k | 0 <= k < |rest|
        ensures rest[k].createdAt <= s[0].createdAt
      {
        assert rest[k] in multiset(rest);
        if rest[k] != x {
          assert rest[k] in multiset(s[1..]);
          var m :| 0 <= m < |s[1..]| && s[1..][m] == rest[k];
          assert s[m + 1] == rest[k];
        }
      }
    }
  }

  /** The ordering is sorted newest first and holds exactly the same tasks. */
  lemma {:induction false} OrderSortedPermutation(ts: seq<TaskData>)
    ensures SortedByCreatedDesc(OrderByCreatedDesc(ts))
    ensures multiset(OrderByCreatedDesc(ts)) == multiset(ts)
  {
    if ts != [] {
      OrderSortedPermutation(ts[1..]);
      InsertKeepsSorted(ts[0], OrderByCreatedDesc(ts[1..]));
      InsertPermutes(ts[0], OrderByCreatedDesc(ts[1..]));
      assert ts == [ts[0]] + ts[1..];
    }
  }

  /** The ordering holds exactly the tasks it was given. */
  lemma OrderKeepsMembers(ts: seq<TaskData>)
    ensures forall x :: x in OrderByCreatedDesc(ts) <==> x in ts
  {
    OrderSortedPermutation(ts);
    forall x ensures x in OrderByCreatedDesc(ts) <==> x in ts {
      assert x in OrderByCreatedDesc(ts) <==> x in multiset(OrderByCreatedDesc(ts));
      assert x in ts <==> x in multiset(ts);
    }
  }

  /** The tasks created at time `k`, in their order. */
  function CreatedAtTime(ts: seq<TaskData>, k: int): seq<TaskData> {
    if ts == [] then []
    else if ts[0].createdAt == k then [ts[0]] + CreatedAtTime(ts[1..], k)
    else CreatedAtTime(ts[1..], k)
  }

  lemma {:induction false} InsertStable(x: TaskData, s: seq<TaskData>, k: int)
    requires SortedByCreatedDesc(s)
    ensures CreatedAtTime(InsertByCreatedDesc(x, s), k)
            == if x.createdAt == k then [x] + CreatedAtTime(s, k) else CreatedAtTime(s, k)
  {
    if s == [] || s[0].createdAt <= x.createdAt {
      assert ([x] + s)[1..] == s;
    } else {
      InsertStable(x, s[1..], k);
      assert ([s[0]] + InsertByCreatedDesc(x, s[1..]))[1..] == InsertByCreatedDesc(x, s[1..]);
      if x.createdAt == k {
        assert s[0].createdAt != k;
      }
    }
  }

  /** Stability: tasks created at the same time keep their relative order. */
  lemma {:induction false} OrderIsStable(ts: seq<TaskData>, k: int)
    ensures CreatedAtTime(OrderByCreatedDesc(ts), k) == CreatedAtTime(ts, k)
  {
    if ts != [] {
      OrderIsStable(ts[1..], k);
      OrderSortedPermutation(ts[1..]);
      InsertStable(ts[0], OrderByCreatedDesc(ts[1..]), k);
    }
  }
}
