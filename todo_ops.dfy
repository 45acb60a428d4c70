/**
 * The list transformations that the store hook and the demo components pass to `setTodos`:
 * delete by id, toggle by id, patch by id, find by id, set every `completed` flag, and the
 * derived statistics.
 */
module TodoOps {
  import opened Wrappers
  import opened JsArray
  import opened TodoTypes
  import opened TodoHelpers

  /** No two todos share an id. */
  predicate UniqueIds(ts: seq<Todo>) {
    forall i, j :: 0 <= i < j < |ts| ==> ts[i].id != ts[j].id
  }

  predicate HasId(ts: seq<Todo>, id: string) {
    exists i :: 0 <= i < |ts| && ts[i].id == id
  }

  /** `todos.find(todo => todo.id === id)`: the first todo with that id. */
  function Find(ts: seq<Todo>, id: string): (r: Option<Todo>)
    ensures r.None? <==> !HasId(ts, id)
    ensures r.Some? ==> exists i :: && 0 <= i < |ts| && ts[i] == r.value && r.value.id == id
                                    && forall j :: 0 <= j < i ==> ts[j].id != id
  {
    if ts == [] then None
    else if ts[0].id == id then Some(ts[0])
    else
      var r := Find(ts[1..], id);
      assert HasId(ts[1..], id) ==> HasId(ts, id);
      assert HasId(ts, id) ==> HasId(ts[1..], id) by {
        if HasId(ts, id) {
          var i :| 0 <= i < |ts| && ts[i].id == id;
          assert ts[1..][i - 1] == ts[i];
        }
      }
      if r.Some? then
        var i :| && 0 <= i < |ts[1..]| && ts[1..][i] == r.value && r.value.id == id
                 && forall j :: 0 <= j < i ==> ts[1..][j].id != id;
        assert ts[i + 1] == r.value && forall j :: 1 <= j < i + 1 ==> ts[j] == ts[1..][j - 1];
        r
      else
        r
  }

  /** `[newTodo, ...prev]` with an id nobody has keeps the ids unique. */
  lemma PrependKeepsUniqueIds(t: Todo, ts: seq<Todo>)
    requires UniqueIds(ts) && !HasId(ts, t.id)
    ensures UniqueIds([t] + ts)
  {
    var r := [t] + ts;
    forall i, j | 0 <= i < j < |r| ensures r[i].id != r[j].id {
      assert r[j] == ts[j - 1];
      if i > 0 {
        assert r[i] == ts[i - 1];
      }
    }
  }

  /** `prev.filter(todo => todo.id !== id)`. */
  function WithoutId(ts: seq<Todo>, id: string): (r: seq<Todo>)
    ensures !HasId(r, id)
    ensures forall i :: 0 <= i < |r| ==> r[i] in ts
    ensures forall i :: 0 <= i < |ts| && ts[i].id != id ==> ts[i] in r
  {
    Filter(ts, (t: Todo) => t.id != id)
  }

  /** After a delete the id is gone: `getTodoById` finds nothing. */
  lemma DeleteThenFind(ts: seq<Todo>, id: string)
    ensures Find(WithoutId(ts, id), id) == None
  {
  }

  /** Deleting an id nobody has leaves the list as it was. */
  lemma DeleteAbsent(ts: seq<Todo>, id: string)
    requires !HasId(ts, id)
    ensures WithoutId(ts, id) == ts
  {
    FilterAll(ts, (t: Todo) => t.id != id);
  }

  /** Deleting distributes over concatenation, so the survivors keep their order. */
  lemma DeleteKeepsOrder(a: seq<Todo>, b: seq<Todo>, id: string)
    ensures WithoutId(a + b, id) == WithoutId(a, id) + WithoutId(b, id)
  {
    FilterAppend(a, b, (t: Todo) => t.id != id);
  }

  /** With unique ids, deleting a present id removes exactly one todo. */
  lemma {:induction false} DeleteUniquePresent(ts: seq<Todo>, id: string)
    requires UniqueIds(ts) && HasId(ts, id)
    ensures |WithoutId(ts, id)| == |ts| - 1
  {
    var tail := ts[1..];
    assert UniqueIds(tail) by {
      forall i, j | 0 <= i < j < |tail| ensures tail[i].id != tail[j].id {
        assert tail[i] == ts[i + 1] && tail[j] == ts[j + 1];
      }
    }
    assert WithoutId(ts, id) == (if ts[0].id != id then [ts[0]] else []) + WithoutId(tail, id);
    if ts[0].id == id {
      assert !HasId(tail, id) by {
        forall i | 0 <= i < |tail| ensures tail[i].id != id {
          assert tail[i] == ts[i + 1];
        }
      }
      DeleteAbsent(tail, id);
    } else {
      var i :| 0 <= i < |ts| && ts[i].id == id;
      assert tail[i - 1] == ts[i];
      DeleteUniquePresent(tail, id);
    }
  }

  /** The tail of a list with unique ids has unique ids, none of them the head's. */
  lemma UniqueIdsTail(ts: seq<Todo>)
    requires ts != [] && UniqueIds(ts)
    ensures UniqueIds(ts[1..]) && !HasId(ts[1..], ts[0].id)
  {
    var tail := ts[1..];
    forall i | 0 <= i < |tail| ensures tail[i] == ts[i + 1] {
    }
  }

  /** Filtering never brings in an id that was not there. */
  lemma FilterKeepsAbsentId(ts: seq<Todo>, p: Todo -> bool, id: string)
    requires !HasId(ts, id)
    ensures !HasId(Filter(ts, p), id)
  {
    var r := Filter(ts, p);
    forall k | 0 <= k < |r| ensures r[k].id != id {
      var m :| 0 <= m < |ts| && ts[m] == r[k];
    }
  }

  /** Keeping some of the todos, in order, keeps their ids unique. */
  lemma {:induction false} FilterKeepsUniqueIds(ts: seq<Todo>, p: Todo -> bool)
    requires UniqueIds(ts)
    ensures UniqueIds(Filter(ts, p))
  {
    if ts != [] {
      var tail := ts[1..];
      UniqueIdsTail(ts);
      FilterKeepsUniqueIds(tail, p);
      if p(ts[0]) {
        FilterKeepsAbsentId(tail, p, ts[0].id);
        PrependKeepsUniqueIds(ts[0], Filter(tail, p));
      }
    }
  }

  /**
   * `{ ...todo, completed: !todo.completed }` for the todos with that id; `ToggleInvolution`
   * and `ToggleFrame` state what it promises.
   */
  function Toggled(ts: seq<Todo>, id: string): (r: seq<Todo>)
    ensures |r| == |ts|
    ensures forall i :: 0 <= i < |ts| ==> r[i] == if ts[i].id == id then ts[i].(completed := !ts[i].completed) else ts[i]
  {
    seq(|ts|, i requires 0 <= i < |ts| => if ts[i].id == id then ts[i].(completed := !ts[i].completed) else ts[i])
  }

  /** Toggling the same id twice restores the list. */
  lemma ToggleInvolution(ts: seq<Todo>, id: string)
    ensures Toggled(Toggled(ts, id), id) == ts
  {
  }

  /** Toggling changes only the `completed` flag of the todos with that id. */
  lemma ToggleFrame(ts: seq<Todo>, id: string)
    ensures var r := Toggled(ts, id);
            forall i :: 0 <= i < |ts| ==>
              && r[i].id == ts[i].id && r[i].content == ts[i].content
              && r[i].priority == ts[i].priority && r[i].createdAt == ts[i].createdAt
              && (r[i].completed != ts[i].completed <==> ts[i].id == id)
  {
  }

  /** `{ ...todo, ...updates }`: the patch's present fields win. */
  function Merge(t: Todo, patch: UpdateTodoInput): (r: Todo)
    ensures r.id == t.id && r.createdAt == t.createdAt
  {
    t.(content := patch.content.GetOr(t.content),
       completed := patch.completed.GetOr(t.completed),
       priority := patch.priority.GetOr(t.priority))
  }

  /** `updateTodo(id, updates)`: the todos with that id are patched, the others kept. */
  function Updated(ts: seq<Todo>, id: string, patch: UpdateTodoInput): (r: seq<Todo>)
    ensures |r| == |ts|
    ensures forall i :: 0 <= i < |ts| ==> r[i] == if ts[i].id == id then Merge(ts[i], patch) else ts[i]
  {
    seq(|ts|, i requires 0 <= i < |ts| => if ts[i].id == id then Merge(ts[i], patch) else ts[i])
  }

  /**
   * An update keeps the length, the order of ids and every `createdAt`; a present patch field
   * is taken over into the matching todos, and an absent one leaves their field as it was.
   */
  lemma UpdateFrame(ts: seq<Todo>, id: string, patch: UpdateTodoInput)
    ensures var r := Updated(ts, id, patch);
            forall i :: 0 <= i < |ts| ==>
              && r[i].id == ts[i].id && r[i].createdAt == ts[i].createdAt
              && (ts[i].id != id ==> r[i] == ts[i])
              && (ts[i].id == id && patch.content.Some? ==> r[i].content == patch.content.value)
              && (ts[i].id == id && patch.content.None? ==> r[i].content == ts[i].content)
              && (ts[i].id == id && patch.completed.Some? ==> r[i].completed == patch.completed.value)
              && (ts[i].id == id && patch.completed.None? ==> r[i].completed == ts[i].completed)
              && (ts[i].id == id && patch.priority.Some? ==> r[i].priority == patch.priority.value)
              && (ts[i].id == id && patch.priority.None? ==> r[i].priority == ts[i].priority)
  {
  }

  /** Applying the same patch twice is applying it once. */
  lemma UpdateIdempotent(ts: seq<Todo>, id: string, patch: UpdateTodoInput)
    ensures Updated(Updated(ts, id, patch), id, patch) == Updated(ts, id, patch)
  {
  }

  /** The empty patch changes nothing. */
  lemma UpdateEmptyPatch(ts: seq<Todo>, id: string)
    ensures Updated(ts, id, UpdateTodoInput(None, None, None)) == ts
  {
  }

  /** Toggling and updating keep the ids, so they keep them unique. */
  lemma MapsKeepUniqueIds(ts: seq<Todo>, id: string, patch: UpdateTodoInput)
    requires UniqueIds(ts)
    ensures UniqueIds(Toggled(ts, id)) && UniqueIds(Updated(ts, id, patch))
  {
  }

  /** `clearCompletedTodos` applied twice removes nothing more. */
  lemma ClearCompletedIdempotent(ts: seq<Todo>)
    ensures GetIncompleteTodos(GetIncompleteTodos(ts)) == GetIncompleteTodos(ts)
  {
    FilterIdempotent(ts, IsActive);
  }

  /** `clearCompletedTodos` keeps exactly the incomplete todos: it removes something iff some todo is completed. */
  lemma ClearCompletedKeepsAllIffNoneCompleted(ts: seq<Todo>)
    ensures GetIncompleteTodos(ts) == ts <==> forall i :: 0 <= i < |ts| ==> !ts[i].completed
  {
    FilterAll(ts, IsActive);
  }

  /** `prev.map(todo => ({ ...todo, completed: b }))`; `SetAllCompletedUniform` states its effect. */
  function SetAllCompleted(ts: seq<Todo>, b: bool): (r: seq<Todo>)
    ensures |r| == |ts|
    ensures forall i :: 0 <= i < |ts| ==> r[i] == ts[i].(completed := b)
  {
    seq(|ts|, i requires 0 <= i < |ts| => ts[i].(completed := b))
  }

  /** `todos.every(todo => todo.completed)`; true for the empty list. */
  predicate AllCompleted(ts: seq<Todo>) {
    Every(ts, IsCompleted)
  }

  /** After setting every flag, the flags are uniform and nothing else has changed. */
  lemma SetAllCompletedUniform(ts: seq<Todo>, b: bool)
    ensures var r := SetAllCompleted(ts, b);
            && (forall i :: 0 <= i < |r| ==> r[i].completed == b)
            && (forall i :: 0 <= i < |r| ==> r[i].(completed := ts[i].completed) == ts[i])
            && (b ==> AllCompleted(r))
            && (!b ==> GetCompletedTodos(r) == [])
  {
    var r := SetAllCompleted(ts, b);
    if !b {
      FilterNone(r, IsCompleted);
    }
  }

  predicate IsHigh(t: Todo) {
    t.priority == High
  }

  predicate IsMedium(t: Todo) {
    t.priority == Medium
  }

  predicate IsLow(t: Todo) {
    t.priority == Low
  }

  lemma {:induction false} PriorityCountsSum(ts: seq<Todo>)
    ensures |Filter(ts, IsHigh)| + |Filter(ts, IsMedium)| + |Filter(ts, IsLow)| == |ts|
  {
    if ts != [] {
      PriorityCountsSum(ts[1..]);
    }
  }

  /** The hook's `stats`. */
  datatype TodoStats = TodoStats(total: nat, completed: nat, incomplete: nat, high: nat, medium: nat, low: nat)

  /** `stats`: the counts by completion and by priority each add up to the total. */
  function Stats(ts: seq<Todo>): (s: TodoStats)
    ensures s.total == |ts|
    ensures s.completed + s.incomplete == s.total
    ensures s.high + s.medium + s.low == s.total
    ensures s.high == |Filter(ts, IsHigh)| && s.medium == |Filter(ts, IsMedium)| && s.low == |Filter(ts, IsLow)|
    ensures s.completed == |GetCompletedTodos(ts)| && s.incomplete == |GetIncompleteTodos(ts)|
  {
    CompletionSplit(ts);
    PriorityCountsSum(ts);
    TodoStats(|ts|, |GetCompletedTodos(ts)|, |GetIncompleteTodos(ts)|,
              |Filter(ts, IsHigh)|, |Filter(ts, IsMedium)|, |Filter(ts, IsLow)|)
  }
}
