/** The `TodoList` component: the filter tab, the filtered list, the tab counts and the empty state. */
module TodoListView {
  import opened JsArray
  import opened TodoTypes
  import opened TodoHelpers

  /** `FilterType`: the three tabs. */
  datatype FilterType = All | Active | Completed

  /** The badge numbers of the three tabs. */
  datatype Counts = Counts(all: nat, active: nat, completed: nat)

  /** The empty state's title and description (the icon is presentation). */
  datatype EmptyStateText = EmptyStateText(title: string, description: string)

  /** `filteredTodos`: everything, or only the incomplete, or only the completed todos, in list order. */
  function FilteredTodos(ts: seq<Todo>, filter: FilterType): (r: seq<Todo>)
    ensures filter.All? ==> r == ts
    ensures filter.Active? ==> forall i :: 0 <= i < |r| ==> !r[i].completed && r[i] in ts
    ensures filter.Active? ==> forall i :: 0 <= i < |ts| && !ts[i].completed ==> ts[i] in r
    ensures filter.Completed? ==> forall i :: 0 <= i < |r| ==> r[i].completed && r[i] in ts
    ensures filter.Completed? ==> forall i :: 0 <= i < |ts| && ts[i].completed ==> ts[i] in r
  {
    match filter
    case Active => GetIncompleteTodos(ts)
    case Completed => GetCompletedTodos(ts)
    case All => ts
  }

  /** `counts`: the active and completed counts add up to the total. */
  function CountsOf(ts: seq<Todo>): (c: Counts)
    ensures c.all == |ts| && c.active + c.completed == c.all
    ensures c.active == |GetIncompleteTodos(ts)| && c.completed == |GetCompletedTodos(ts)|
  {
    CompletionSplit(ts);
    Counts(|ts|, |GetIncompleteTodos(ts)|, |GetCompletedTodos(ts)|)
  }

  /** `counts[filter]`: the badge of a tab. */
  function CountFor(c: Counts, filter: FilterType): nat {
    match filter
    case All => c.all
    case Active => c.active
    case Completed => c.completed
  }

  /** The list a tab shows is as long as its badge says. */
  lemma FilteredMatchesCount(ts: seq<Todo>, filter: FilterType)
    ensures |FilteredTodos(ts, filter)| == CountFor(CountsOf(ts), filter)
  {
  }

  /** A tab's list keeps the list order: filtering a concatenation filters each part. */
  lemma FilteredKeepsOrder(a: seq<Todo>, b: seq<Todo>, filter: FilterType)
    ensures FilteredTodos(a + b, filter) == FilteredTodos(a, filter) + FilteredTodos(b, filter)
  {
    CompletionFiltersKeepOrder(a, b);
  }

  /** Whether a todo is listed under a tab. */
  predicate Shows(filter: FilterType, t: Todo) {
    match filter
    case All => true
    case Active => !t.completed
    case Completed => t.completed
  }

  /** A tab shows its empty state exactly when no todo belongs to it. */
  lemma EmptyStateIff(ts: seq<Todo>, filter: FilterType)
    ensures FilteredTodos(ts, filter) == [] <==> forall i :: 0 <= i < |ts| ==> !Shows(filter, ts[i])
  {
    match filter
    case All =>
      if ts != [] {
        assert Shows(filter, ts[0]);
      }
    case Active =>
      if forall i :: 0 <= i < |ts| ==> !Shows(filter, ts[i]) {
        FilterNone(ts, IsActive);
      }
    case Completed =>
      if forall i :: 0 <= i < |ts| ==> !Shows(filter, ts[i]) {
        FilterNone(ts, IsCompleted);
      }
    if exists k :: 0 <= k < |ts| && Shows(filter, ts[k]) {
      var k :| 0 <= k < |ts| && Shows(filter, ts[k]);
      assert ts[k] in FilteredTodos(ts, filter);
    }
  }

  /** `getEmptyMessage()`: the text depends on the current tab only. */
  function EmptyMessage(filter: FilterType): (m: EmptyStateText)
    ensures m.title != [] && m.description != []
    ensures filter == All ==> m.title == "아직 할 일이 없어요"
    ensures filter == Active ==> m.title == "🎉 모든 할 일을 완료했습니다!"
    ensures filter == Completed ==> m.title == "완료된 할 일이 없습니다"
  {
    match filter
    case Active => EmptyStateText("🎉 모든 할 일을 완료했습니다!", "정말 대단해요! 새로운 목표를 추가해보세요.")
    case Completed => EmptyStateText("완료된 할 일이 없습니다", "할 일을 체크하면 여기에 표시됩니다.")
    case All => EmptyStateText("아직 할 일이 없어요", "위에서 새로운 할 일을 추가하여 시작해보세요! ✨")
  }

  /** Each tab has its own empty-state title. */
  lemma EmptyMessageDistinct(f: FilterType, g: FilterType)
    ensures EmptyMessage(f).title == EmptyMessage(g).title <==> f == g
  {
  }

  /** The component's own state: the selected tab. */
  class TodoListState {
    var filter: FilterType

    /** The first render shows the `all` tab. */
    constructor()
      ensures filter == All
    {
      filter := All;
    }

    /** `onValueChange` of the tabs. */
    method SetFilter(f: FilterType)
      modifies this
      ensures filter == f
    {
      filter := f;
    }

    /** What the component renders for `todos`: the tab's list, or its empty state when that list is empty. */
    method Render(todos: seq<Todo>) returns (shown: seq<Todo>, counts: Counts, empty: bool, message: EmptyStateText)
      ensures shown == FilteredTodos(todos, filter) && counts == CountsOf(todos)
      ensures |shown| == CountFor(counts, filter)
      ensures empty <==> shown == []
      ensures message == EmptyMessage(filter)
    {
      shown := FilteredTodos(todos, filter);
      counts := CountsOf(todos);
      FilteredMatchesCount(todos, filter);
      empty := |shown| == 0;
      message := EmptyMessage(filter);
    }
  }
}
