/** The todo data types and the per-priority constant tables. */
module TodoTypes {
  import opened Wrappers

  /** A point in time, as `Date.prototype.getTime()`: milliseconds since the epoch. */
  type Timestamp = int

  /** The three priorities; no other value is representable. */
  datatype Priority = Low | Medium | High

  /** One task: exactly these five fields. */
  datatype Todo = Todo(
    id: string,
    content: string,
    completed: bool,
    priority: Priority,
    createdAt: Timestamp)

  /** What a caller supplies to create a todo: a `Todo` without `id` and `createdAt`. */
  datatype CreateTodoInput = CreateTodoInput(content: string, completed: bool, priority: Priority)

  /** A partial patch: each mutable field may be absent; `id` and `createdAt` cannot be patched. */
  datatype UpdateTodoInput = UpdateTodoInput(
    content: Option<string>,
    completed: Option<bool>,
    priority: Option<Priority>)

  /** The string a priority is written as in TypeScript and in JSON. */
  function PriorityName(p: Priority): string {
    match p
    case Low => "low"
    case Medium => "medium"
    case High => "high"
  }

  /** Every priority, in declaration order. */
  const ALL_PRIORITIES: seq<Priority> := [Low, Medium, High]

  /** `PRIORITY_COLORS[p]`. */
  function PriorityColor(p: Priority): string {
    match p
    case Low => "success"
    case Medium => "warning"
    case High => "error"
  }

  /** `PRIORITY_LABELS[p]`. */
  function PriorityLabel(p: Priority): string {
    match p
    case Low => "낮음"
    case Medium => "보통"
    case High => "높음"
  }

  /** There are exactly three priorities, each listed once. */
  lemma PriorityHasThreeValues(p: Priority)
    ensures p in ALL_PRIORITIES
    ensures |ALL_PRIORITIES| == 3
    ensures forall i, j :: 0 <= i < j < 3 ==> ALL_PRIORITIES[i] != ALL_PRIORITIES[j]
  {
  }

  /** Distinct priorities have distinct names, colours and labels. */
  lemma PriorityTablesInjective(p: Priority, q: Priority)
    requires p != q
    ensures PriorityName(p) != PriorityName(q)
    ensures PriorityColor(p) != PriorityColor(q)
    ensures PriorityLabel(p) != PriorityLabel(q)
  {
  }
}
