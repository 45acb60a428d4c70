/**
 * The `useTodos` hook: the todo list and the loaded flag it keeps, the storage slot it
 * reads once and writes after every change, and the export and import of backup files.
 *
 * The browser is abstract. `localStorage` is a map from keys to strings, a backup file is
 * its text (or nothing when it cannot be read), and JSON text, ISO dates and date parsing
 * are the functions of a `Runtime`. The id (`crypto.randomUUID()`) and the clock reading
 * (`new Date()`) are parameters of the operations that need them.
 */
module TodoStore {
  import opened Wrappers
  import opened JsText
  import opened JsArray
  import opened JsValue
  import opened TodoTypes
  import opened TodoSchema
  import opened TodoHelpers
  import opened TodoOps

  /** The one `localStorage` key the hook uses. */
  const STORAGE_KEY := "premium-todos"

  /** The `version` every export writes. */
  const EXPORT_VERSION := "1.0"

  /** The message of the error an import rejects with when the payload fails the schema. */
  const INVALID_FORMAT_MESSAGE := "Invalid data format. Please check the file structure."

  /** The message of the error an import rejects with when the file cannot be read. */
  const READ_FAILED_MESSAGE := "Failed to read file"

  /**
   * The parts of the JavaScript runtime the hook uses but this model does not define:
   * `JSON.stringify(value, null, indent)`, `JSON.parse` (`None` when it throws),
   * `new Date(text).getTime()` and `Date.prototype.toISOString`.
   */
  datatype Runtime = Runtime(
    stringify: (Value, nat) -> string,
    parse: string -> Option<Value>,
    parseDate: string -> Timestamp,
    toIso: Timestamp -> string)

  /** A todo as `JSON.stringify` sees it: the `Date` becomes its ISO string. */
  function TodoJson(t: Todo, rt: Runtime): (v: Value)
    ensures v.Obj?
  {
    Obj(map["id" := Str(t.id), "content" := Str(t.content), "completed" := Bool(t.completed),
            "priority" := Str(PriorityName(t.priority)), "createdAt" := Str(rt.toIso(t.createdAt))])
  }

  function TodosJson(ts: seq<Todo>, rt: Runtime): (v: Value)
    ensures v.Arr? && |v.items| == |ts|
    ensures forall i :: 0 <= i < |ts| ==> v.items[i] == TodoJson(ts[i], rt)
  {
    Arr(seq(|ts|, i requires 0 <= i < |ts| => TodoJson(ts[i], rt)))
  }

  /** The text `saveTodosToStorage` writes: `JSON.stringify(todos)`; `LoadAfterSave` reads it back. */
  function EncodeTodos(ts: seq<Todo>, rt: Runtime): (s: string)
    ensures s == rt.stringify(TodosJson(ts, rt), 0)
  {
    rt.stringify(TodosJson(ts, rt), 0)
  }

  /**
   * The storage after the save effect: it writes the list to the slot only once the
   * initial load has happened, and leaves every other key alone.
   */
  function Persisted(storage: map<string, string>, isLoaded: bool, ts: seq<Todo>, rt: Runtime): (s: map<string, string>)
    ensures isLoaded ==> STORAGE_KEY in s && s[STORAGE_KEY] == EncodeTodos(ts, rt)
    ensures !isLoaded ==> s == storage
    ensures forall k :: k != STORAGE_KEY ==> (k in s <==> k in storage) && (k in s ==> s[k] == storage[k])
  {
    if isLoaded then storage[STORAGE_KEY := EncodeTodos(ts, rt)] else storage
  }

  /** `new Date(todo.createdAt)` on a stored record's `createdAt`: a number or an ISO text. */
  function StoredTime(v: Value, rt: Runtime): Option<Timestamp> {
    match v
    case Num(n) => Some(n)
    case Str(s) => Some(rt.parseDate(s))
    case _ => None
  }

  /** One stored record read back as a todo; `None` when it does not have a todo's shape. */
  function DecodeStoredTodo(v: Value, rt: Runtime): (r: Option<Todo>)
    ensures r.Some? ==> && v.Obj? && Get(v, "id") == Str(r.value.id)
                        && Get(v, "content") == Str(r.value.content)
                        && Get(v, "completed") == Bool(r.value.completed)
                        && Get(v, "priority") == Str(PriorityName(r.value.priority))
                        && StoredTime(Get(v, "createdAt"), rt) == Some(r.value.createdAt)
  {
    if !v.Obj? then None
    else
      var id := Get(v, "id");
      var content := Get(v, "content");
      var completed := Get(v, "completed");
      var priority := ParsePriority(Get(v, "priority"), []);
      var time := StoredTime(Get(v, "createdAt"), rt);
      if id.Str? && content.Str? && completed.Bool? && priority.Parsed? && time.Some? then
        Some(Todo(id.s, content.s, completed.b, priority.value, time.value))
      else
        None
  }

  /** The records of a stored array read back in order; `None` when one of them is not a todo. */
  function DecodeStoredList(items: seq<Value>, rt: Runtime): (r: Option<seq<Todo>>)
    ensures r.Some? <==> forall i :: 0 <= i < |items| ==> DecodeStoredTodo(items[i], rt).Some?
    ensures r.Some? ==> |r.value| == |items|
                        && forall i :: 0 <= i < |items| ==> DecodeStoredTodo(items[i], rt) == Some(r.value[i])
  {
    if items == [] then Some([])
    else
      var head := DecodeStoredTodo(items[0], rt);
      var tail := DecodeStoredList(items[1..], rt);
      assert forall i :: 1 <= i < |items| ==> items[1..][i - 1] == items[i];
      if head.Some? && tail.Some? then Some([head.value] + tail.value) else None
  }

  /**
   * `loadTodosFromStorage`: the stored list, or the empty list when the slot is missing or
   * empty, when its text is not JSON, or when the JSON is not an array of todo records.
   */
  function LoadTodos(storage: map<string, string>, rt: Runtime): (ts: seq<Todo>)
    ensures STORAGE_KEY !in storage || storage[STORAGE_KEY] == "" ==> ts == []
    ensures STORAGE_KEY in storage && rt.parse(storage[STORAGE_KEY]).None? ==> ts == []
  {
    if STORAGE_KEY !in storage || storage[STORAGE_KEY] == "" then []
    else
      match rt.parse(storage[STORAGE_KEY])
      case None => []
      case Some(v) =>
        if !v.Arr? then [] else DecodeStoredList(v.items, rt).GetOr([])
  }

  /** A todo's JSON record reads back as the todo when the date survives its ISO text. */
  lemma DecodeTodoJson(t: Todo, rt: Runtime)
    requires rt.parseDate(rt.toIso(t.createdAt)) == t.createdAt
    ensures DecodeStoredTodo(TodoJson(t, rt), rt) == Some(t)
  {
    var v := TodoJson(t, rt);
    assert Get(v, "priority") == Str(PriorityName(t.priority));
    var priority := ParsePriority(Get(v, "priority"), []);
    if priority.value != t.priority {
      PriorityTablesInjective(priority.value, t.priority);
    }
  }

  /**
   * The slot written by the save effect loads back as the list that was saved, given that
   * `JSON.parse` undoes `JSON.stringify` on it, that the text is not empty (an empty text is
   * falsy and loads as nothing) and that every `createdAt` survives its ISO text.
   */
  lemma {:induction false} LoadAfterSave(storage: map<string, string>, ts: seq<Todo>, rt: Runtime)
    requires rt.parse(EncodeTodos(ts, rt)) == Some(TodosJson(ts, rt))
    requires EncodeTodos(ts, rt) != ""
    requires forall i :: 0 <= i < |ts| ==> rt.parseDate(rt.toIso(ts[i].createdAt)) == ts[i].createdAt
    ensures LoadTodos(Persisted(storage, true, ts, rt), rt) == ts
  {
    var items := TodosJson(ts, rt).items;
    forall i | 0 <= i < |items| ensures DecodeStoredTodo(items[i], rt) == Some(ts[i]) {
      DecodeTodoJson(ts[i], rt);
    }
    var r := DecodeStoredList(items, rt);
    assert r.Some? && |r.value| == |ts|;
    assert forall i :: 0 <= i < |ts| ==> r.value[i] == ts[i];
  }

  /** The object `exportTodos` serialises: `{ version, exportedAt, todos }`. */
  function ExportJson(ts: seq<Todo>, now: Timestamp, rt: Runtime): (v: Value)
    ensures v.Obj? && Get(v, "version") == Str(EXPORT_VERSION) && Get(v, "todos") == TodosJson(ts, rt)
    ensures Get(v, "exportedAt") == Str(rt.toIso(now))
  {
    Obj(map["version" := Str(EXPORT_VERSION), "exportedAt" := Str(rt.toIso(now)), "todos" := TodosJson(ts, rt)])
  }

  /** The backup file's text: `JSON.stringify(exportData, null, 2)`. */
  function ExportText(ts: seq<Todo>, now: Timestamp, rt: Runtime): (s: string)
    ensures s == rt.stringify(ExportJson(ts, now, rt), 2)
  {
    rt.stringify(ExportJson(ts, now, rt), 2)
  }

  /** `iso.split('T')[0]`: the text before the first `T`, or all of it when there is none. */
  function DatePart(iso: string): (r: string)
    ensures r <= iso && forall i :: 0 <= i < |r| ==> r[i] != 'T'
    ensures |r| < |iso| ==> iso[|r|] == 'T'
  {
    if iso == [] || iso[0] == 'T' then [] else [iso[0]] + DatePart(iso[1..])
  }

  /** The download name `todos-backup-<date>.json`. */
  function ExportFileName(now: Timestamp, rt: Runtime): (name: string)
    ensures name == "todos-backup-" + DatePart(rt.toIso(now)) + ".json"
  {
    "todos-backup-" + DatePart(rt.toIso(now)) + ".json"
  }

  /** Why an import rejects its promise. */
  datatype ImportError =
    | ReadFailed      // `reader.onerror`
    | SyntaxError     // `JSON.parse` threw
    | InvalidFormat   // the payload failed `importDataSchema`

  /** The message of the rejection; a syntax error carries the message `JSON.parse` chose. */
  function ImportErrorMessage(e: ImportError): (m: Option<string>)
    ensures m.None? <==> e == SyntaxError
    ensures e == ReadFailed ==> m == Some(READ_FAILED_MESSAGE)
    ensures e == InvalidFormat ==> m == Some(INVALID_FORMAT_MESSAGE)
  {
    match e
    case ReadFailed => Some(READ_FAILED_MESSAGE)
    case SyntaxError => None
    case InvalidFormat => Some(INVALID_FORMAT_MESSAGE)
  }

  /** What an import leads to: the list that replaces the current one, or the rejection. */
  datatype ImportOutcome = Replaced(todos: seq<Todo>) | Failed(error: ImportError)

  /** `new Date(todo.createdAt)` on a validated `createdAt`. */
  function ImportedTime(d: DateInput, rt: Runtime): Timestamp {
    match d
    case DateText(s) => rt.parseDate(s)
    case DateInstance(t) => t
  }

  /** A validated import record as a todo: every field is kept, `createdAt` becomes a date. */
  function FromImported(x: ImportedTodo, rt: Runtime): (t: Todo)
    ensures t.id == x.id && t.content == x.content && t.completed == x.completed && t.priority == x.priority
    ensures x.createdAt.DateText? ==> t.createdAt == rt.parseDate(x.createdAt.text)
    ensures x.createdAt.DateInstance? ==> t.createdAt == x.createdAt.time
  {
    Todo(x.id, x.content, x.completed, x.priority, ImportedTime(x.createdAt, rt))
  }

  /**
   * The todo `t` is the file record `v` converted: the same id, content, completion and
   * priority, and the date read from a `createdAt` text or the `Date` itself.
   */
  predicate ImportedFrom(v: Value, t: Todo, rt: Runtime) {
    && v.Obj?
    && Get(v, "id") == Str(t.id)
    && Get(v, "content") == Str(t.content)
    && Get(v, "completed") == Bool(t.completed)
    && Get(v, "priority") == Str(PriorityName(t.priority))
    && (Get(v, "createdAt").Str? ==> t.createdAt == rt.parseDate(Get(v, "createdAt").s))
    && (Get(v, "createdAt").DateObj? ==> t.createdAt == Get(v, "createdAt").time)
  }

  /** A record that passes `todoSchema` converts to a todo with its fields. */
  lemma ImportedRecord(v: Value, path: Path, x: ImportedTodo, rt: Runtime)
    requires ParseImportTodo(v, path) == Parsed(x)
    ensures ImportedFrom(v, FromImported(x, rt), rt)
  {
  }

  /**
   * The synchronous part of `importTodos`: read, `JSON.parse`, validate the whole payload,
   * and on success convert every record in file order. There is no partial import.
   */
  function ReadImport(file: Option<string>, rt: Runtime): (o: ImportOutcome)
    ensures file.None? ==> o == Failed(ReadFailed)
    ensures file.Some? && rt.parse(file.value).None? ==> o == Failed(SyntaxError)
    ensures o.Replaced? <==> file.Some? && rt.parse(file.value).Some? && IsImportDataValue(rt.parse(file.value).value)
    ensures o.Failed? && file.Some? && rt.parse(file.value).Some? ==> o.error == InvalidFormat
    ensures o.Replaced? ==>
              var items := Get(rt.parse(file.value).value, "todos").items;
              && |o.todos| == |items|
              && forall i :: 0 <= i < |items| ==> ImportedFrom(items[i], o.todos[i], rt)
  {
    match file
    case None => Failed(ReadFailed)
    case Some(text) =>
      match rt.parse(text)
      case None => Failed(SyntaxError)
      case Some(v) =>
        match ParseImportData(v)
        case Rejected(_) => Failed(InvalidFormat)
        case Parsed(d) =>
          var items := Get(v, "todos").items;
          forall i | 0 <= i < |items| ensures ImportedFrom(items[i], FromImported(d.todos[i], rt), rt) {
            ImportedRecord(items[i], ElementPath(i), d.todos[i], rt);
          }
          Replaced(seq(|d.todos|, i requires 0 <= i < |d.todos| => FromImported(d.todos[i], rt)))
  }

  /** A todo's JSON record passes `todoSchema` exactly when its content length is within bounds. */
  lemma TodoJsonImportable(t: Todo, rt: Runtime)
    ensures IsImportTodoValue(TodoJson(t, rt)) <==> 1 <= Utf16Length(t.content) <= CONTENT_MAX_LENGTH
  {
    var v := TodoJson(t, rt);
    assert Get(v, "priority") == Str(PriorityName(t.priority));
    assert Get(v, "content") == Str(t.content);
  }

  /** A record parsed from a todo's JSON converts back to that todo when its date survives. */
  lemma ImportedTodoJson(t: Todo, rt: Runtime, path: Path, x: ImportedTodo)
    requires ParseImportTodo(TodoJson(t, rt), path) == Parsed(x)
    requires rt.parseDate(rt.toIso(t.createdAt)) == t.createdAt
    ensures FromImported(x, rt) == t
  {
    var v := TodoJson(t, rt);
    assert Get(v, "createdAt") == Str(rt.toIso(t.createdAt));
    assert Get(v, "priority") == Str(PriorityName(t.priority));
    if x.priority != t.priority {
      PriorityTablesInjective(x.priority, t.priority);
    }
  }

  /**
   * Exporting and importing gives the list back, in order, given that `JSON.parse` undoes
   * `JSON.stringify` on the payload, that every content has 1 to 500 UTF-16 units and that
   * every `createdAt` survives its ISO text.
   */
  lemma ExportImportRoundTrip(ts: seq<Todo>, now: Timestamp, rt: Runtime)
    requires rt.parse(ExportText(ts, now, rt)) == Some(ExportJson(ts, now, rt))
    requires forall i :: 0 <= i < |ts| ==> 1 <= Utf16Length(ts[i].content) <= CONTENT_MAX_LENGTH
    requires forall i :: 0 <= i < |ts| ==> rt.parseDate(rt.toIso(ts[i].createdAt)) == ts[i].createdAt
    ensures ReadImport(Some(ExportText(ts, now, rt)), rt) == Replaced(ts)
  {
    var v := ExportJson(ts, now, rt);
    var items := TodosJson(ts, rt).items;
    forall i | 0 <= i < |items| ensures IsImportTodoValue(items[i]) {
      TodoJsonImportable(ts[i], rt);
    }
    assert IsImportDataValue(v);
    var d := ParseImportData(v).value;
    forall i | 0 <= i < |ts| ensures FromImported(d.todos[i], rt) == ts[i] {
      ImportedTodoJson(ts[i], rt, ElementPath(i), d.todos[i]);
    }
    var o := ReadImport(Some(ExportText(ts, now, rt)), rt);
    assert o.todos == ts;
  }

  /**
   * A list holding a todo with empty content (which `addTodo` never refuses) exports to a
   * backup that the import rejects as a whole.
   */
  lemma ExportWithEmptyContentNotImportable(ts: seq<Todo>, now: Timestamp, rt: Runtime, k: nat)
    requires rt.parse(ExportText(ts, now, rt)) == Some(ExportJson(ts, now, rt))
    requires k < |ts| && ts[k].content == ""
    ensures ReadImport(Some(ExportText(ts, now, rt)), rt) == Failed(InvalidFormat)
  {
    TodoJsonImportable(ts[k], rt);
    assert !IsImportTodoValue(TodosJson(ts, rt).items[k]);
  }

  /** The hook's state. */
  class TodoStore {
    var todos: seq<Todo>
    var isLoaded: bool
    var storage: map<string, string>
    const runtime: Runtime

    /** The slot holds the current list whenever the initial load has happened. */
    predicate Synced()
      reads this
    {
      isLoaded ==> STORAGE_KEY in storage && storage[STORAGE_KEY] == EncodeTodos(todos, runtime)
    }

    /** The first render: an empty list, not yet loaded; the storage is whatever the browser holds. */
    constructor(browserStorage: map<string, string>, rt: Runtime)
      ensures todos == [] && !isLoaded && storage == browserStorage && runtime == rt
      ensures Synced()
    {
      todos := [];
      isLoaded := false;
      storage := browserStorage;
      runtime := rt;
    }

    /**
     * The mount effect followed by the save effect it triggers: the slot's list replaces the
     * state, the flag turns on, and the loaded list is written back.
     */
    method Load()
      modifies this
      ensures todos == LoadTodos(old(storage), runtime) && isLoaded
      ensures storage == Persisted(old(storage), true, todos, runtime)
      ensures Synced()
    {
      todos := LoadTodos(storage, runtime);
      isLoaded := true;
      storage := Persisted(storage, isLoaded, todos, runtime);
    }

    /** `addTodo(input)` with the generated id and the clock reading; returns the new todo. */
    method AddTodo(input: CreateTodoInput, id: string, now: Timestamp) returns (t: Todo)
      requires !HasId(todos, id)
      modifies this
      ensures t == CreateTodo(input, id, now) && InputOf(t) == input
      ensures todos == [t] + old(todos) && todos[0] == t && todos[1..] == old(todos)
      ensures UniqueIds(old(todos)) ==> UniqueIds(todos)
      ensures isLoaded == old(isLoaded) && storage == Persisted(old(storage), isLoaded, todos, runtime)
      ensures Synced()
    {
      t := CreateTodo(input, id, now);
      CreateTodoInverse(input, id, now, t);
      if UniqueIds(todos) {
        PrependKeepsUniqueIds(t, todos);
      }
      todos := [t] + todos;
      storage := Persisted(storage, isLoaded, todos, runtime);
    }

    /** `deleteTodo(id)`. */
    method DeleteTodo(id: string)
      modifies this
      ensures todos == WithoutId(old(todos), id) && Find(todos, id) == None
      ensures isLoaded == old(isLoaded) && storage == Persisted(old(storage), isLoaded, todos, runtime)
      ensures Synced()
    {
      todos := WithoutId(todos, id);
      storage := Persisted(storage, isLoaded, todos, runtime);
    }

    /** `updateTodo(id, updates)`. */
    method UpdateTodo(id: string, updates: UpdateTodoInput)
      modifies this
      ensures todos == Updated(old(todos), id, updates)
      ensures isLoaded == old(isLoaded) && storage == Persisted(old(storage), isLoaded, todos, runtime)
      ensures Synced()
    {
      todos := Updated(todos, id, updates);
      storage := Persisted(storage, isLoaded, todos, runtime);
    }

    /** `toggleTodo(id)`. */
    method ToggleTodo(id: string)
      modifies this
      ensures todos == Toggled(old(todos), id)
      ensures isLoaded == old(isLoaded) && storage == Persisted(old(storage), isLoaded, todos, runtime)
      ensures Synced()
    {
      todos := Toggled(todos, id);
      storage := Persisted(storage, isLoaded, todos, runtime);
    }

    /** `getTodoById(id)`: the first todo with that id in the current list. */
    method GetTodoById(id: string) returns (r: Option<Todo>)
      ensures r == Find(todos, id)
      ensures r.Some? ==> r.value.id == id && r.value in todos
      ensures r.None? <==> !HasId(todos, id)
    {
      r := Find(todos, id);
    }

    /** `clearAllTodos()`. */
    method ClearAllTodos()
      modifies this
      ensures todos == []
      ensures isLoaded == old(isLoaded) && storage == Persisted(old(storage), isLoaded, todos, runtime)
      ensures Synced()
    {
      todos := [];
      storage := Persisted(storage, isLoaded, todos, runtime);
    }

    /** `clearCompletedTodos()`. */
    method ClearCompletedTodos()
      modifies this
      ensures todos == GetIncompleteTodos(old(todos))
      ensures isLoaded == old(isLoaded) && storage == Persisted(old(storage), isLoaded, todos, runtime)
      ensures Synced()
    {
      todos := GetIncompleteTodos(todos);
      storage := Persisted(storage, isLoaded, todos, runtime);
    }

    /** `stats` for the current list. */
    method GetStats() returns (s: TodoStats)
      ensures s == Stats(todos)
      ensures s.completed + s.incomplete == s.total == |todos|
      ensures s.high + s.medium + s.low == s.total
      ensures s.high == |Filter(todos, IsHigh)| && s.medium == |Filter(todos, IsMedium)| && s.low == |Filter(todos, IsLow)|
    {
      s := Stats(todos);
    }

    /**
     * `exportTodos()`: the download's text and name; the state is untouched. The clock is
     * read twice, `now` for `exportedAt` and `later` for the date in the file name.
     */
    method ExportTodos(now: Timestamp, later: Timestamp) returns (fileName: string, text: string)
      ensures text == runtime.stringify(ExportJson(todos, now, runtime), 2)
      ensures fileName == ExportFileName(later, runtime)
    {
      text := ExportText(todos, now, runtime);
      fileName := ExportFileName(later, runtime);
    }

    /**
     * `importTodos(file)`, with the file's text or `None` when it cannot be read: a valid
     * payload replaces the whole list (and is saved), anything else leaves the state alone.
     */
    method ImportTodos(file: Option<string>) returns (o: ImportOutcome)
      modifies this
      ensures o == ReadImport(file, runtime)
      ensures o.Replaced? ==> todos == o.todos && storage == Persisted(old(storage), isLoaded, todos, runtime)
      ensures o.Failed? ==> todos == old(todos) && storage == old(storage)
      ensures isLoaded == old(isLoaded)
      ensures old(Synced()) ==> Synced()
    {
      o := ReadImport(file, runtime);
      if o.Replaced? {
        todos := o.todos;
        storage := Persisted(storage, isLoaded, todos, runtime);
      }
    }
  }
}
