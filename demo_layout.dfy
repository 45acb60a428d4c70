/** `TodoLayoutExample`: a demo list with add, toggle, delete, two sorts and a regrouping. */
module TodoLayoutDemo {
  import opened JsText
  import opened JsArray
  import opened TodoTypes
  import opened TodoHelpers
  import opened TodoOps
  import opened DemoDates

  /** The initial list. */
  const SEED: seq<Todo> := [
    Todo("1", "프로젝트 기획서 작성", false, High, JAN_15),
    Todo("2", "디자인 시안 검토", true, Medium, JAN_16),
    Todo("3", "코드 리뷰", false, High, JAN_14),
    Todo("4", "팀 미팅", false, Low, JAN_17),
    Todo("5", "문서 업데이트", true, Low, JAN_13)]

  /** The sort key of the date comparator `b.createdAt - a.createdAt`: newest first. */
  function NewestFirst(t: Todo): int {
    -t.createdAt
  }

  /** `handleSortByDate`: a rearrangement with non-increasing `createdAt`. */
  function SortByDate(ts: seq<Todo>): (r: seq<Todo>)
    ensures multiset(r) == multiset(ts) && |r| == |ts|
    ensures forall i, j :: 0 <= i < j < |r| ==> r[i].createdAt >= r[j].createdAt
  {
    SortBySorted(ts, NewestFirst);
    var r := SortBy(ts, NewestFirst);
    assert forall i, j :: 0 <= i < j < |r| ==> NewestFirst(r[i]) <= NewestFirst(r[j]);
    r
  }

  /** Todos created at the same time keep their relative order under the date sort. */
  lemma SortByDateStable(ts: seq<Todo>, time: Timestamp)
    ensures WithKey(SortByDate(ts), NewestFirst, -time) == WithKey(ts, NewestFirst, -time)
  {
    SortByStable(ts, NewestFirst, -time);
  }

  /** `handleMoveCompletedToBottom`: the incomplete todos, then the completed ones. */
  function MoveCompletedToBottom(ts: seq<Todo>): (r: seq<Todo>)
    ensures multiset(r) == multiset(ts) && |r| == |ts|
    ensures forall i, j :: 0 <= i < j < |r| && r[i].completed ==> r[j].completed
  {
    CompletionSplit(ts);
    var a := GetIncompleteTodos(ts);
    var b := GetCompletedTodos(ts);
    var r := a + b;
    assert forall k :: 0 <= k < |a| ==> r[k] == a[k];
    assert forall k :: |a| <= k < |r| ==> r[k] == b[k - |a|];
    r
  }

  /** Each group keeps its relative order: filtering the result gives the same groups as filtering the input. */
  lemma MoveCompletedToBottomKeepsOrder(ts: seq<Todo>)
    ensures GetIncompleteTodos(MoveCompletedToBottom(ts)) == GetIncompleteTodos(ts)
    ensures GetCompletedTodos(MoveCompletedToBottom(ts)) == GetCompletedTodos(ts)
  {
    var a := GetIncompleteTodos(ts);
    var b := GetCompletedTodos(ts);
    CompletionFiltersKeepOrder(a, b);
    FilterIdempotent(ts, IsActive);
    FilterIdempotent(ts, IsCompleted);
    FilterNone(a, IsCompleted);
    FilterNone(b, IsActive);
  }

  /** Moving the completed todos down twice is moving them once. */
  lemma MoveCompletedToBottomIdempotent(ts: seq<Todo>)
    ensures MoveCompletedToBottom(MoveCompletedToBottom(ts)) == MoveCompletedToBottom(ts)
  {
    MoveCompletedToBottomKeepsOrder(ts);
  }

  /** The todo `handleAddTodo` builds: `Date.now()` as its id, not completed. */
  function NewTodo(content: string, priority: Priority, idTime: nat, createdAt: Timestamp): (t: Todo)
    ensures !t.completed && t.content == content && t.priority == priority && t.createdAt == createdAt
    ensures IsDigits(t.id) && DigitsValue(t.id) == idTime
  {
    NatToStringRoundTrip(idTime);
    Todo(NatToString(idTime), content, false, priority, createdAt)
  }

  /** The demo's state. */
  class TodoLayoutExample {
    var todos: seq<Todo>

    constructor()
      ensures todos == SEED
    {
      todos := SEED;
    }

    /** `handleAddTodo(content, priority)`, with the two clock readings it takes. */
    method AddTodo(content: string, priority: Priority, idTime: nat, createdAt: Timestamp)
      modifies this
      ensures todos == [NewTodo(content, priority, idTime, createdAt)] + old(todos)
    {
      todos := [NewTodo(content, priority, idTime, createdAt)] + todos;
    }

    method Toggle(id: string)
      modifies this
      ensures todos == Toggled(old(todos), id)
    {
      todos := Toggled(todos, id);
    }

    method Delete(id: string)
      modifies this
      ensures todos == WithoutId(old(todos), id)
    {
      todos := WithoutId(todos, id);
    }

    /** `handleSortByPriority`: the same comparator as `sortByPriority`. */
    method SortByPriorityHandler()
      modifies this
      ensures todos == SortByPriority(old(todos))
    {
      todos := SortByPriority(todos);
    }

    method SortByDateHandler()
      modifies this
      ensures todos == SortByDate(old(todos))
    {
      todos := SortByDate(todos);
    }

    method MoveCompletedToBottomHandler()
      modifies this
      ensures todos == MoveCompletedToBottom(old(todos))
    {
      todos := MoveCompletedToBottom(todos);
    }

    /** `stats`: total, completed and incomplete. */
    method Stats() returns (total: nat, completed: nat, incomplete: nat)
      ensures total == |todos| && completed + incomplete == total
      ensures completed == |GetCompletedTodos(todos)| && incomplete == |GetIncompleteTodos(todos)|
    {
      CompletionSplit(todos);
      total := |todos|;
      completed := |GetCompletedTodos(todos)|;
      incomplete := |GetIncompleteTodos(todos)|;
    }
  }
}
