/** The pure list helpers: creation, the priority label, the priority sort and the completion filters. */
module TodoHelpers {
  import opened JsArray
  import opened TodoTypes

  /** The fields of a todo a caller chose: `Omit<Todo, 'id' | 'createdAt'>`. */
  function InputOf(t: Todo): CreateTodoInput {
    CreateTodoInput(t.content, t.completed, t.priority)
  }

  /** `createTodo(input)`, with the UUID and the clock reading passed in. */
  function CreateTodo(input: CreateTodoInput, id: string, now: Timestamp): (t: Todo)
    ensures t.id == id && t.createdAt == now
  {
    Todo(id, input.content, input.completed, input.priority, now)
  }

  /** The created todo carries exactly the caller's fields, and only they and the id and time determine it. */
  lemma CreateTodoInverse(input: CreateTodoInput, id: string, now: Timestamp, t: Todo)
    ensures InputOf(CreateTodo(input, id, now)) == input
    ensures t == CreateTodo(InputOf(t), t.id, t.createdAt)
  {
  }

  /** `getPriorityLabel(priority)`: the entry of `PRIORITY_LABELS`. */
  function GetPriorityLabel(p: Priority): (name: string)
    ensures p == Low ==> name == "낮음"
    ensures p == Medium ==> name == "보통"
    ensures p == High ==> name == "높음"
  {
    PriorityLabel(p)
  }

  /** Each priority has its own label. */
  lemma GetPriorityLabelInjective(p: Priority, q: Priority)
    ensures GetPriorityLabel(p) == GetPriorityLabel(q) <==> p == q
  {
    if p != q {
      PriorityTablesInjective(p, q);
    }
  }

  /** `priorityOrder`: high first, then medium, then low. */
  function PriorityRank(p: Priority): (r: int)
    ensures 0 <= r <= 2
    ensures r == 0 <==> p == High
    ensures r == 2 <==> p == Low
  {
    match p
    case High => 0
    case Medium => 1
    case Low => 2
  }

  function TodoRank(t: Todo): int {
    PriorityRank(t.priority)
  }

  /** `sortByPriority(todos)`: a sorted copy, a rearrangement of the input. */
  function SortByPriority(ts: seq<Todo>): (r: seq<Todo>)
    ensures multiset(r) == multiset(ts)
    ensures SortedBy(r, TodoRank)
  {
    SortBySorted(ts, TodoRank);
    SortBy(ts, TodoRank)
  }

  /** In the sorted list every high todo precedes every other and every low todo follows every other. */
  lemma SortByPriorityGroups(ts: seq<Todo>)
    ensures var r := SortByPriority(ts);
            forall i, j :: 0 <= i < j < |r| ==>
              (r[j].priority == High ==> r[i].priority == High) && (r[i].priority == Low ==> r[j].priority == Low)
  {
    var r := SortByPriority(ts);
    forall i, j | 0 <= i < j < |r|
      ensures (r[j].priority == High ==> r[i].priority == High) && (r[i].priority == Low ==> r[j].priority == Low)
    {
      assert TodoRank(r[i]) <= TodoRank(r[j]);
    }
  }

  /** The todos of one priority, in list order. */
  function WithPriority(ts: seq<Todo>, p: Priority): seq<Todo> {
    WithKey(ts, TodoRank, PriorityRank(p))
  }

  /** Stability: todos of equal priority keep their input order. */
  lemma SortByPriorityStable(ts: seq<Todo>, p: Priority)
    ensures WithPriority(SortByPriority(ts), p) == WithPriority(ts, p)
  {
    SortByStable(ts, TodoRank, PriorityRank(p));
  }

  predicate IsActive(t: Todo) {
    !t.completed
  }

  predicate IsCompleted(t: Todo) {
    t.completed
  }

  /** `getIncompleteTodos`: the todos not completed, in list order. */
  function GetIncompleteTodos(ts: seq<Todo>): (r: seq<Todo>)
    ensures forall i :: 0 <= i < |r| ==> !r[i].completed && r[i] in ts
    ensures forall i :: 0 <= i < |ts| && !ts[i].completed ==> ts[i] in r
  {
    Filter(ts, IsActive)
  }

  /** `getCompletedTodos`: the completed todos, in list order. */
  function GetCompletedTodos(ts: seq<Todo>): (r: seq<Todo>)
    ensures forall i :: 0 <= i < |r| ==> r[i].completed && r[i] in ts
    ensures forall i :: 0 <= i < |ts| && ts[i].completed ==> ts[i] in r
  {
    Filter(ts, IsCompleted)
  }

  /** The two filters split the list: their lengths add up and together they are a rearrangement of it. */
  lemma CompletionSplit(ts: seq<Todo>)
    ensures |GetIncompleteTodos(ts)| + |GetCompletedTodos(ts)| == |ts|
    ensures multiset(GetIncompleteTodos(ts)) + multiset(GetCompletedTodos(ts)) == multiset(ts)
  {
    FilterPartition(ts, IsActive, IsCompleted);
  }

  /** Each filter keeps the list order: filtering a concatenation filters each part. */
  lemma CompletionFiltersKeepOrder(a: seq<Todo>, b: seq<Todo>)
    ensures GetIncompleteTodos(a + b) == GetIncompleteTodos(a) + GetIncompleteTodos(b)
    ensures GetCompletedTodos(a + b) == GetCompletedTodos(a) + GetCompletedTodos(b)
  {
    FilterAppend(a, b, IsActive);
    FilterAppend(a, b, IsCompleted);
  }
}
