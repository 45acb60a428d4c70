/** `TodoItemExample`: a demo list with toggle, delete, a sample adder and toggle-all. */
module TodoItemDemo {
  import opened JsText
  import opened JsArray
  import opened TodoTypes
  import opened TodoHelpers
  import opened TodoOps

  /** The text before the clock reading in a sample todo's content. */
  const SAMPLE_PREFIX := "새로운 할 일 "

  /** The initial list, created at three clock readings. */
  function Seed(t1: Timestamp, t2: Timestamp, t3: Timestamp): seq<Todo> {
    [Todo("1", "프로젝트 기획서 작성하기", false, High, t1),
     Todo("2", "디자인 시안 검토", true, Medium, t2),
     Todo("3", "팀 미팅 준비", false, Low, t3)]
  }

  /** The todo `handleAddSample` builds; the priority is the random pick. */
  function SampleTodo(priority: Priority, idTime: nat, contentTime: nat, createdAt: Timestamp): (t: Todo)
    ensures !t.completed && t.priority == priority && t.createdAt == createdAt
    ensures |t.content| > |SAMPLE_PREFIX| && t.content[..|SAMPLE_PREFIX|] == SAMPLE_PREFIX
    ensures IsDigits(t.content[|SAMPLE_PREFIX|..])
    ensures IsDigits(t.id) && DigitsValue(t.id) == idTime
  {
    NatToStringRoundTrip(idTime);
    Todo(NatToString(idTime), SAMPLE_PREFIX + NatToString(contentTime), false, priority, createdAt)
  }

  /**
   * `handleToggleAll`: when every todo is completed they all become incomplete, otherwise
   * they all become completed; nothing but the flags changes.
   */
  function ToggleAll(ts: seq<Todo>): (r: seq<Todo>)
    ensures |r| == |ts|
    ensures AllCompleted(ts) ==> forall i :: 0 <= i < |r| ==> !r[i].completed
    ensures !AllCompleted(ts) ==> forall i :: 0 <= i < |r| ==> r[i].completed
    ensures forall i :: 0 <= i < |r| ==> r[i].(completed := ts[i].completed) == ts[i]
  {
    SetAllCompleted(ts, !AllCompleted(ts))
  }

  /** After toggle-all the flags are uniform, and the empty list stays empty. */
  lemma ToggleAllUniform(ts: seq<Todo>)
    ensures var r := ToggleAll(ts); forall i, j :: 0 <= i < j < |r| ==> r[i].completed == r[j].completed
    ensures ts == [] ==> ToggleAll(ts) == []
  {
  }

  /** A second toggle-all on a non-empty list flips the uniform flag set by the first. */
  lemma ToggleAllTwice(ts: seq<Todo>)
    requires ts != []
    ensures var r := ToggleAll(ts); ToggleAll(r) == SetAllCompleted(ts, !r[0].completed)
  {
    var r := ToggleAll(ts);
    if r[0].completed {
      assert AllCompleted(r);
    } else {
      assert !AllCompleted(r) by {
        assert !IsCompleted(r[0]);
      }
    }
  }

  /** The demo's state. */
  class TodoItemExample {
    var todos: seq<Todo>

    constructor(t1: Timestamp, t2: Timestamp, t3: Timestamp)
      ensures todos == Seed(t1, t2, t3)
    {
      todos := Seed(t1, t2, t3);
    }

    method Toggle(id: string)
      modifies this
      ensures todos == Toggled(old(todos), id)
    {
      todos := Toggled(todos, id);
    }

    method Delete(id: string)
      modifies this
      ensures todos == WithoutId(old(todos), id)
    {
      todos := WithoutId(todos, id);
    }

    /** `handleAddSample`, with the random priority and the three clock readings as parameters. */
    method AddSample(priority: Priority, idTime: nat, contentTime: nat, createdAt: Timestamp)
      modifies this
      ensures todos == [SampleTodo(priority, idTime, contentTime, createdAt)] + old(todos)
    {
      todos := [SampleTodo(priority, idTime, contentTime, createdAt)] + todos;
    }

    method ToggleAllHandler()
      modifies this
      ensures todos == ToggleAll(old(todos))
    {
      todos := ToggleAll(todos);
    }

    method DeleteCompleted()
      modifies this
      ensures todos == GetIncompleteTodos(old(todos))
    {
      todos := GetIncompleteTodos(todos);
    }

    /** The delete-all button's inline `() => setTodos([])`. */
    method DeleteAll()
      modifies this
      ensures todos == []
    {
      todos := [];
    }
  }
}
