/** `TodoListExample`: a demo list with toggle, delete and the bulk actions. */
module TodoListDemo {
  import opened TodoTypes
  import opened TodoHelpers
  import opened TodoOps
  import opened DemoDates

  /** The initial list. */
  const SEED: seq<Todo> := [
    Todo("1", "프로젝트 기획서 작성하기", false, High, JAN_15),
    Todo("2", "디자인 시안 검토 및 피드백", false, Medium, JAN_16),
    Todo("3", "코드 리뷰 완료", true, High, JAN_14),
    Todo("4", "팀 미팅 준비", false, Low, JAN_17),
    Todo("5", "주간 리포트 작성", true, Medium, JAN_13)]

  /** The demo's state. */
  class TodoListExample {
    var todos: seq<Todo>

    constructor()
      ensures todos == SEED
    {
      todos := SEED;
    }

    method Toggle(id: string)
      modifies this
      ensures todos == Toggled(old(todos), id)
    {
      todos := Toggled(todos, id);
    }

    method Delete(id: string)
      modifies this
      ensures todos == WithoutId(old(todos), id)
    {
      todos := WithoutId(todos, id);
    }

    /** `handleCompleteAll`. */
    method CompleteAll()
      modifies this
      ensures todos == SetAllCompleted(old(todos), true) && AllCompleted(todos)
    {
      todos := SetAllCompleted(todos, true);
      SetAllCompletedUniform(old(todos), true);
    }

    /** `handleUncompleteAll`. */
    method UncompleteAll()
      modifies this
      ensures todos == SetAllCompleted(old(todos), false) && GetCompletedTodos(todos) == []
    {
      todos := SetAllCompleted(todos, false);
      SetAllCompletedUniform(old(todos), false);
    }

    /** `handleDeleteCompleted`. */
    method DeleteCompleted()
      modifies this
      ensures todos == GetIncompleteTodos(old(todos))
    {
      todos := GetIncompleteTodos(todos);
    }

    /** `handleClearAll`. */
    method ClearAll()
      modifies this
      ensures todos == []
    {
      todos := [];
    }

    /** `stats`: total, active and completed. */
    method Stats() returns (total: nat, active: nat, completed: nat)
      ensures total == |todos| && active + completed == total
      ensures active == |GetIncompleteTodos(todos)| && completed == |GetCompletedTodos(todos)|
    {
      CompletionSplit(todos);
      total := |todos|;
      active := |GetIncompleteTodos(todos)|;
      completed := |GetCompletedTodos(todos)|;
    }
  }
}
