/** `TodoAnimationExample`: a demo list with add, add-three, toggle, delete and delete-all. */
module TodoAnimationDemo {
  import opened JsText
  import opened TodoTypes
  import opened TodoOps

  /** The initial list, created at two clock readings. */
  function Seed(t1: Timestamp, t2: Timestamp): seq<Todo> {
    [Todo("1", "첫 번째 할 일", false, High, t1),
     Todo("2", "두 번째 할 일", false, Medium, t2)]
  }

  /** The todo `handleAddTodo` builds: `Date.now()` as its id, not completed. */
  function NewTodo(content: string, priority: Priority, idTime: nat, createdAt: Timestamp): (t: Todo)
    ensures !t.completed && t.content == content && t.priority == priority && t.createdAt == createdAt
    ensures IsDigits(t.id)
  {
    Todo(NatToString(idTime), content, false, priority, createdAt)
  }

  /** The id `${Date.now()}-k` of the k-th todo of `handleAddMultiple`. */
  function MultipleId(time: nat, k: nat): (id: string)
    requires 1 <= k <= 3
    ensures |id| == |NatToString(time)| + 2
    ensures id[..|NatToString(time)|] == NatToString(time) && IsDigits(id[..|NatToString(time)|])
    ensures id[|id| - 2] == '-' && id[|id| - 1] == DigitChar(k)
  {
    NatToString(time) + "-" + [DigitChar(k)]
  }

  /** The three todos of `handleAddMultiple`, each id and date from its own clock reading. */
  function MultipleTodos(i1: nat, i2: nat, i3: nat, c1: Timestamp, c2: Timestamp, c3: Timestamp): (r: seq<Todo>)
    ensures |r| == 3 && r[0].priority == High && r[1].priority == Medium && r[2].priority == Low
    ensures forall i :: 0 <= i < 3 ==> !r[i].completed
  {
    [Todo(MultipleId(i1, 1), "여러 개 추가 테스트 1", false, High, c1),
     Todo(MultipleId(i2, 2), "여러 개 추가 테스트 2", false, Medium, c2),
     Todo(MultipleId(i3, 3), "여러 개 추가 테스트 3", false, Low, c3)]
  }

  /** The three ids differ whatever the clock readings, because their last characters differ. */
  lemma MultipleIdsDistinct(i1: nat, i2: nat, i3: nat, c1: Timestamp, c2: Timestamp, c3: Timestamp)
    ensures UniqueIds(MultipleTodos(i1, i2, i3, c1, c2, c3))
  {
    var r := MultipleTodos(i1, i2, i3, c1, c2, c3);
    assert r[0].id[|r[0].id| - 1] == '1';
    assert r[1].id[|r[1].id| - 1] == '2';
    assert r[2].id[|r[2].id| - 1] == '3';
  }

  /** An id of `handleAddTodo` never equals one of `handleAddMultiple`: only the latter holds a `-`. */
  lemma SingleAndMultipleIdsDiffer(t: nat, time: nat, k: nat)
    requires 1 <= k <= 3
    ensures NatToString(t) != MultipleId(time, k)
  {
    var m := MultipleId(time, k);
    var d := NatToString(time);
    assert m[|d|] == '-' && !IsDigits(m);
  }

  /** The demo's state. */
  class TodoAnimationExample {
    var todos: seq<Todo>

    constructor(t1: Timestamp, t2: Timestamp)
      ensures todos == Seed(t1, t2)
    {
      todos := Seed(t1, t2);
    }

    /** `handleAddTodo(content, priority)`, with its two clock readings. */
    method AddTodo(content: string, priority: Priority, idTime: nat, createdAt: Timestamp)
      modifies this
      ensures todos == [NewTodo(content, priority, idTime, createdAt)] + old(todos)
    {
      todos := [NewTodo(content, priority, idTime, createdAt)] + todos;
    }

    method Toggle(id: string)
      modifies this
      ensures todos == Toggled(old(todos), id)
    {
      todos := Toggled(todos, id);
    }

    method Delete(id: string)
      modifies this
      ensures todos == WithoutId(old(todos), id)
    {
      todos := WithoutId(todos, id);
    }

    /** `handleAddMultiple`: three todos ahead of the unchanged old list. */
    method AddMultiple(i1: nat, i2: nat, i3: nat, c1: Timestamp, c2: Timestamp, c3: Timestamp)
      modifies this
      ensures todos == MultipleTodos(i1, i2, i3, c1, c2, c3) + old(todos) && todos[3..] == old(todos)
    {
      todos := MultipleTodos(i1, i2, i3, c1, c2, c3) + todos;
    }

    /** `handleDeleteAll`. */
    method DeleteAll()
      modifies this
      ensures todos == []
    {
      todos := [];
    }
  }
}
