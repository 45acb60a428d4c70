/**
 * The Zod schemas of the todo application, each written out as an explicit checker that
 * either returns the parsed value or the list of issues Zod would report, in Zod's order:
 * object keys in declaration order, string checks in chain order, array elements by index.
 */
module TodoSchema {
  import opened Wrappers
  import opened JsText
  import opened JsValue
  import opened TodoTypes

  /** One step of an issue path: an object key or an array index. */
  datatype PathSegment = Key(name: string) | Index(index: nat)

  type Path = seq<PathSegment>

  datatype Issue = Issue(path: Path, message: string)

  /** The outcome of `schema.safeParse(value)`. */
  datatype Parse<T> = Parsed(value: T) | Rejected(issues: seq<Issue>)

  /** The issues of a parse outcome; none for a success. */
  function IssuesOf<T>(r: Parse<T>): seq<Issue> {
    if r.Rejected? then r.issues else []
  }

  /** Every issue lies under `path`. */
  predicate IssuesUnder(issues: seq<Issue>, path: Path) {
    forall i :: 0 <= i < |issues| ==> path <= issues[i].path
  }

  /** A well-formed outcome: a rejection reports at least one issue, all under `path`. */
  predicate WellFormed<T>(r: Parse<T>, path: Path) {
    r.Rejected? ==> r.issues != [] && IssuesUnder(r.issues, path)
  }

  /** Issues under a longer path are under every prefix of it. */
  lemma IssuesUnderPrefix(issues: seq<Issue>, p: Path, q: Path)
    requires p <= q && IssuesUnder(issues, q)
    ensures IssuesUnder(issues, p)
  {
    forall i | 0 <= i < |issues| ensures p <= issues[i].path {
      assert q <= issues[i].path;
      assert issues[i].path[..|p|] == q[..|p|];
    }
  }

  /** Issue lists under a common path stay under it when concatenated. */
  lemma IssuesUnderAppend(a: seq<Issue>, b: seq<Issue>, path: Path)
    requires IssuesUnder(a, path) && IssuesUnder(b, path)
    ensures IssuesUnder(a + b, path)
  {
    forall i | 0 <= i < |a + b| ensures path <= (a + b)[i].path {
      if i >= |a| {
        assert (a + b)[i] == b[i - |a|];
      }
    }
  }

  /** The issues of five field checks, concatenated in key order, stay under `path`. */
  lemma IssuesUnderAppend5(a: seq<Issue>, b: seq<Issue>, c: seq<Issue>, d: seq<Issue>, e: seq<Issue>, path: Path)
    requires IssuesUnder(a, path) && IssuesUnder(b, path) && IssuesUnder(c, path)
    requires IssuesUnder(d, path) && IssuesUnder(e, path)
    ensures IssuesUnder(a + b + c + d + e, path)
  {
    IssuesUnderAppend(a, b, path);
    IssuesUnderAppend(a + b, c, path);
    IssuesUnderAppend(a + b + c, d, path);
    IssuesUnderAppend(a + b + c + d, e, path);
  }

  /** The issues of a check on the field `key` of an object at `path` lie under `path`. */
  lemma FieldUnder<T>(r: Parse<T>, path: Path, key: string)
    requires forall i :: 0 <= i < |IssuesOf(r)| ==> IssuesOf(r)[i].path == path + [Key(key)]
    ensures IssuesUnder(IssuesOf(r), path)
  {
    forall i | 0 <= i < |IssuesOf(r)| ensures path <= IssuesOf(r)[i].path {
      assert (path + [Key(key)])[..|path|] == path;
    }
  }

  const CONTENT_MAX_LENGTH := 500

  // The application's own messages.
  const PRIORITY_MESSAGE := "우선순위는 낮음, 보통, 높음 중 하나여야 합니다."
  const CONTENT_TYPE_MESSAGE := "할 일 내용은 텍스트여야 합니다."
  const CONTENT_MIN_MESSAGE := "할 일 내용을 최소 1자 이상 입력해주세요."
  const CONTENT_MAX_MESSAGE := "할 일 내용은 500자를 초과할 수 없습니다."
  const TODO_ID_MESSAGE := "유효하지 않은 Todo ID 형식입니다."

  // Zod's default messages, where a schema gives none.
  const REQUIRED_MESSAGE := "Required"
  const TOO_SMALL_MESSAGE := "String must contain at least 1 character(s)"
  const TOO_BIG_MESSAGE := "String must contain at most 500 character(s)"
  const INVALID_UNION_MESSAGE := "Invalid input"

  /** Zod's default `invalid_type` message. */
  function InvalidTypeMessage(expected: string, received: Value): (m: string)
    ensures received.Undefined? <==> m == REQUIRED_MESSAGE
  {
    if received.Undefined? then REQUIRED_MESSAGE
    else "Expected " + expected + ", received " + TypeName(received)
  }

  /** Turns a parse outcome into that of the `.optional()` wrapper around it, for a present value. */
  function Present<T>(r: Parse<T>): (o: Parse<Option<T>>)
    ensures o.Parsed? <==> r.Parsed?
    ensures o.Parsed? ==> o.value == Some(r.value)
    ensures IssuesOf(o) == IssuesOf(r)
  {
    match r
    case Parsed(x) => Parsed(Some(x))
    case Rejected(issues) => Rejected(issues)
  }

  /** The values `prioritySchema` accepts. */
  predicate IsPriorityValue(v: Value) {
    v == Str("low") || v == Str("medium") || v == Str("high")
  }

  /** `prioritySchema`: `z.enum(['low', 'medium', 'high'], { message })`. */
  function ParsePriority(v: Value, path: Path): (r: Parse<Priority>)
    ensures r.Parsed? <==> IsPriorityValue(v)
    ensures r.Parsed? ==> v == Str(PriorityName(r.value))
    ensures r.Rejected? ==> r.issues == [Issue(path, PRIORITY_MESSAGE)]
  {
    if v == Str("low") then Parsed(Low)
    else if v == Str("medium") then Parsed(Medium)
    else if v == Str("high") then Parsed(High)
    else Rejected([Issue(path, PRIORITY_MESSAGE)])
  }

  /** A string whose UTF-16 length lies in 1..500. */
  predicate IsBoundedString(v: Value) {
    v.Str? && 1 <= Utf16Length(v.s) <= CONTENT_MAX_LENGTH
  }

  /**
   * `z.string(...).min(1, minMessage).max(500, maxMessage)`, followed by `.trim()` when
   * `trim` holds. Both bounds are checked on the untrimmed string; trimming comes last
   * and only shapes the parsed value.
   */
  function ParseBoundedString(v: Value, path: Path, typeMessage: string,
                              minMessage: string, maxMessage: string, trim: bool): (r: Parse<string>)
    ensures r.Parsed? <==> IsBoundedString(v)
    ensures r.Parsed? ==> r.value == if trim then Trim(v.s) else v.s
    ensures r.Rejected? ==> |r.issues| == 1 && r.issues[0].path == path
    ensures r.Rejected? && !v.Str? ==> r.issues[0].message == typeMessage
    ensures r.Rejected? && v.Str? && Utf16Length(v.s) == 0 ==> r.issues[0].message == minMessage
    ensures r.Rejected? && v.Str? && Utf16Length(v.s) > 0 ==> r.issues[0].message == maxMessage
  {
    if !v.Str? then Rejected([Issue(path, typeMessage)])
    else
      var issues := (if Utf16Length(v.s) < 1 then [Issue(path, minMessage)] else [])
                  + (if Utf16Length(v.s) > CONTENT_MAX_LENGTH then [Issue(path, maxMessage)] else []);
      if issues == [] then Parsed(if trim then Trim(v.s) else v.s) else Rejected(issues)
  }

  /** `z.string()`. */
  function ParseString(v: Value, path: Path): (r: Parse<string>)
    ensures r.Parsed? <==> v.Str?
    ensures r.Parsed? ==> r.value == v.s
    ensures r.Rejected? ==> r.issues == [Issue(path, InvalidTypeMessage("string", v))]
  {
    if v.Str? then Parsed(v.s) else Rejected([Issue(path, InvalidTypeMessage("string", v))])
  }

  /** `z.boolean()`. */
  function ParseBoolean(v: Value, path: Path): (r: Parse<bool>)
    ensures r.Parsed? <==> v.Bool?
    ensures r.Parsed? ==> v == Bool(r.value)
    ensures r.Rejected? ==> r.issues == [Issue(path, InvalidTypeMessage("boolean", v))]
  {
    if v.Bool? then Parsed(v.b) else Rejected([Issue(path, InvalidTypeMessage("boolean", v))])
  }

  /** The issue `z.object(...)` reports for a value that is not a plain object. */
  function NotAnObject<T>(v: Value, path: Path): (r: Parse<T>)
    ensures r.Rejected? && r.issues == [Issue(path, InvalidTypeMessage("object", v))]
  {
    Rejected([Issue(path, InvalidTypeMessage("object", v))])
  }

  /** Every issue sits exactly at `path`. */
  predicate AllAt(issues: seq<Issue>, path: Path) {
    forall i :: 0 <= i < |issues| ==> issues[i].path == path
  }

  /** Every issue sits on the `content`, `priority` or `completed` key of the object. */
  predicate OnTodoFields(issues: seq<Issue>) {
    forall i :: 0 <= i < |issues| ==>
      issues[i].path in {[Key("content")], [Key("priority")], [Key("completed")]}
  }

  /** The issues of the three field parsers, in key order, all sit on the object's keys. */
  lemma TodoFieldIssues(a: seq<Issue>, b: seq<Issue>, c: seq<Issue>)
    requires AllAt(a, [Key("content")]) && AllAt(b, [Key("priority")]) && AllAt(c, [Key("completed")])
    ensures OnTodoFields(a + b + c)
  {
    forall i | 0 <= i < |a + b + c|
      ensures (a + b + c)[i].path in {[Key("content")], [Key("priority")], [Key("completed")]}
    {
      if i < |a| {
        assert (a + b + c)[i] == a[i];
      } else if i < |a| + |b| {
        assert (a + b + c)[i] == b[i - |a|];
      } else {
        assert (a + b + c)[i] == c[i - |a| - |b|];
      }
    }
  }

  /** The values `createTodoSchema` accepts. */
  predicate IsCreateTodoValue(v: Value) {
    && v.Obj?
    && IsBoundedString(Get(v, "content"))
    && IsPriorityValue(Get(v, "priority"))
    && (Get(v, "completed").Undefined? || Get(v, "completed").Bool?)
  }

  /**
   * `createTodoSchema`: `content` is checked for type, then for 1..500 code units, and only
   * then trimmed, so whitespace-only content passes and parses to the empty string;
   * an absent `completed` defaults to `false`; keys not in the schema are dropped.
   */
  function ParseCreateTodo(v: Value): (r: Parse<CreateTodoInput>)
    ensures r.Parsed? <==> IsCreateTodoValue(v)
    ensures r.Parsed? ==> && r.value.content == Trim(Get(v, "content").s)
                          && Get(v, "priority") == Str(PriorityName(r.value.priority))
                          && r.value.completed == (Get(v, "completed") == Bool(true))
    ensures WellFormed(r, [])
    ensures r.Rejected? ==> if v.Obj? then OnTodoFields(r.issues) else AllAt(r.issues, [])
  {
    if !v.Obj? then NotAnObject(v, [])
    else
      var content := ParseBoundedString(Get(v, "content"), [Key("content")], CONTENT_TYPE_MESSAGE,
                                        CONTENT_MIN_MESSAGE, CONTENT_MAX_MESSAGE, true);
      var priority := ParsePriority(Get(v, "priority"), [Key("priority")]);
      var completed := if Get(v, "completed").Undefined? then Parsed(false)
                       else ParseBoolean(Get(v, "completed"), [Key("completed")]);
      if content.Parsed? && priority.Parsed? && completed.Parsed? then
        Parsed(CreateTodoInput(content.value, completed.value, priority.value))
      else
        TodoFieldIssues(IssuesOf(content), IssuesOf(priority), IssuesOf(completed));
        Rejected(IssuesOf(content) + IssuesOf(priority) + IssuesOf(completed))
  }

  /** The values `updateTodoSchema` accepts: every field is optional, present ones follow the create rules. */
  predicate IsUpdateTodoValue(v: Value) {
    && v.Obj?
    && (Get(v, "content").Undefined? || IsBoundedString(Get(v, "content")))
    && (Get(v, "priority").Undefined? || IsPriorityValue(Get(v, "priority")))
    && (Get(v, "completed").Undefined? || Get(v, "completed").Bool?)
  }

  /** `updateTodoSchema`: an absent field is not checked and stays absent in the patch. */
  function ParseUpdateTodo(v: Value): (r: Parse<UpdateTodoInput>)
    ensures r.Parsed? <==> IsUpdateTodoValue(v)
    ensures r.Parsed? ==> && (r.value.content.None? <==> Get(v, "content").Undefined?)
                          && (r.value.content.Some? ==> r.value.content.value == Trim(Get(v, "content").s))
                          && (r.value.priority.None? <==> Get(v, "priority").Undefined?)
                          && (r.value.priority.Some? ==> Get(v, "priority") == Str(PriorityName(r.value.priority.value)))
                          && (r.value.completed.None? <==> Get(v, "completed").Undefined?)
                          && (r.value.completed.Some? ==> Get(v, "completed") == Bool(r.value.completed.value))
    ensures WellFormed(r, [])
    ensures r.Rejected? ==> if v.Obj? then OnTodoFields(r.issues) else AllAt(r.issues, [])
  {
    if !v.Obj? then NotAnObject(v, [])
    else
      var c := Get(v, "content");
      var p := Get(v, "priority");
      var d := Get(v, "completed");
      var content := if c.Undefined? then Parsed(None)
                     else Present(ParseBoundedString(c, [Key("content")], InvalidTypeMessage("string", c),
                                                     CONTENT_MIN_MESSAGE, CONTENT_MAX_MESSAGE, true));
      var priority := if p.Undefined? then Parsed(None) else Present(ParsePriority(p, [Key("priority")]));
      var completed := if d.Undefined? then Parsed(None) else Present(ParseBoolean(d, [Key("completed")]));
      if content.Parsed? && priority.Parsed? && completed.Parsed? then
        Parsed(UpdateTodoInput(content.value, completed.value, priority.value))
      else
        TodoFieldIssues(IssuesOf(content), IssuesOf(priority), IssuesOf(completed));
        Rejected(IssuesOf(content) + IssuesOf(priority) + IssuesOf(completed))
  }

  /**
   * `todoIdSchema`: `z.string().uuid({ message })`. Zod's UUID pattern is not part of this
   * model; `isUuid` stands for it.
   */
  function ParseTodoId(v: Value, isUuid: string -> bool): (r: Parse<string>)
    ensures r.Parsed? <==> v.Str? && isUuid(v.s)
    ensures r.Parsed? ==> r.value == v.s
    ensures r.Rejected? && v.Str? ==> r.issues == [Issue([], TODO_ID_MESSAGE)]
    ensures r.Rejected? && !v.Str? ==> r.issues == [Issue([], InvalidTypeMessage("string", v))]
  {
    if !v.Str? then Rejected([Issue([], InvalidTypeMessage("string", v))])
    else if !isUuid(v.s) then Rejected([Issue([], TODO_ID_MESSAGE)])
    else Parsed(v.s)
  }

  /** A `createdAt` accepted by `z.union([z.string(), z.date()])`, before conversion to a `Date`. */
  datatype DateInput = DateText(text: string) | DateInstance(time: Timestamp)

  /** The value a `DateInput` was read from. */
  function DateInputValue(d: DateInput): Value {
    match d
    case DateText(s) => Str(s)
    case DateInstance(t) => DateObj(t)
  }

  /** `z.union([z.string(), z.date()])`. */
  function ParseDateInput(v: Value, path: Path): (r: Parse<DateInput>)
    ensures r.Parsed? <==> v.Str? || v.DateObj?
    ensures r.Parsed? ==> DateInputValue(r.value) == v
    ensures r.Rejected? ==> r.issues == [Issue(path, INVALID_UNION_MESSAGE)]
  {
    match v
    case Str(s) => Parsed(DateText(s))
    case DateObj(t) => Parsed(DateInstance(t))
    case _ => Rejected([Issue(path, INVALID_UNION_MESSAGE)])
  }

  /** One element of an import file, as `todoSchema` parses it: content is not trimmed. */
  datatype ImportedTodo = ImportedTodo(
    id: string,
    content: string,
    completed: bool,
    priority: Priority,
    createdAt: DateInput)

  /** The values `todoSchema` accepts. */
  predicate IsImportTodoValue(v: Value) {
    && v.Obj?
    && Get(v, "id").Str?
    && IsBoundedString(Get(v, "content"))
    && Get(v, "completed").Bool?
    && IsPriorityValue(Get(v, "priority"))
    && (Get(v, "createdAt").Str? || Get(v, "createdAt").DateObj?)
  }

  /** `todoSchema`, for the element found at `path`. */
  function ParseImportTodo(v: Value, path: Path): (r: Parse<ImportedTodo>)
    ensures r.Parsed? <==> IsImportTodoValue(v)
    ensures r.Parsed? ==> && Get(v, "id") == Str(r.value.id)
                          && Get(v, "content") == Str(r.value.content)
                          && Get(v, "completed") == Bool(r.value.completed)
                          && Get(v, "priority") == Str(PriorityName(r.value.priority))
                          && Get(v, "createdAt") == DateInputValue(r.value.createdAt)
    ensures WellFormed(r, path)
  {
    if !v.Obj? then NotAnObject(v, path)
    else
      var id := ParseString(Get(v, "id"), path + [Key("id")]);
      var content := ParseBoundedString(Get(v, "content"), path + [Key("content")],
                                        InvalidTypeMessage("string", Get(v, "content")),
                                        TOO_SMALL_MESSAGE, TOO_BIG_MESSAGE, false);
      var completed := ParseBoolean(Get(v, "completed"), path + [Key("completed")]);
      var priority := ParsePriority(Get(v, "priority"), path + [Key("priority")]);
      var createdAt := ParseDateInput(Get(v, "createdAt"), path + [Key("createdAt")]);
      if id.Parsed? && content.Parsed? && completed.Parsed? && priority.Parsed? && createdAt.Parsed? then
        Parsed(ImportedTodo(id.value, content.value, completed.value, priority.value, createdAt.value))
      else
        FieldUnder(id, path, "id");
        FieldUnder(content, path, "content");
        FieldUnder(completed, path, "completed");
        FieldUnder(priority, path, "priority");
        FieldUnder(createdAt, path, "createdAt");
        IssuesUnderAppend5(IssuesOf(id), IssuesOf(content), IssuesOf(completed), IssuesOf(priority),
                           IssuesOf(createdAt), path);
        Rejected(IssuesOf(id) + IssuesOf(content) + IssuesOf(completed) + IssuesOf(priority) + IssuesOf(createdAt))
  }

  /** The path of element `i` of the `todos` array. */
  function ElementPath(i: nat): Path {
    [Key("todos"), Index(i)]
  }

  /**
   * `z.array(element)` over `items`, the elements from index `offset` on, for an array found
   * at `base`: every element is checked at its own index and the issues of all invalid ones
   * are reported in index order; there is no partial result.
   */
  function ParseArray<T>(items: seq<Value>, base: Path, offset: nat,
                         element: (Value, Path) -> Parse<T>): (r: Parse<seq<T>>)
    requires forall v, p :: WellFormed(element(v, p), p)
    ensures r.Parsed? <==> forall i :: 0 <= i < |items| ==> element(items[i], base + [Index(offset + i)]).Parsed?
    ensures r.Parsed? ==> |r.value| == |items|
    ensures r.Parsed? ==> forall i :: 0 <= i < |items| ==>
              element(items[i], base + [Index(offset + i)]) == Parsed(r.value[i])
    ensures WellFormed(r, base)
    decreases |items|
  {
    if items == [] then Parsed([])
    else
      var head := element(items[0], base + [Index(offset)]);
      var tail := ParseArray(items[1..], base, offset + 1, element);
      assert forall i :: 1 <= i < |items| ==> items[1..][i - 1] == items[i] && offset + 1 + (i - 1) == offset + i;
      if head.Parsed? && tail.Parsed? then
        Parsed([head.value] + tail.value)
      else
        IssuesUnderPrefix(IssuesOf(head), base, base + [Index(offset)]);
        IssuesUnderAppend(IssuesOf(head), IssuesOf(tail), base);
        Rejected(IssuesOf(head) + IssuesOf(tail))
  }

  /** An import file's payload after validation. */
  datatype ImportData = ImportData(
    version: Option<string>,
    exportedAt: Option<string>,
    todos: seq<ImportedTodo>)

  /** An optional string field: absent, or a string. */
  function ParseOptionalString(v: Value, path: Path): (r: Parse<Option<string>>)
    ensures r.Parsed? <==> v.Undefined? || v.Str?
    ensures r.Parsed? ==> r.value == if v.Str? then Some(v.s) else None
    ensures WellFormed(r, path)
  {
    if v.Undefined? then Parsed(None) else Present(ParseString(v, path))
  }

  /** The payloads `importDataSchema` accepts. */
  predicate IsImportDataValue(v: Value) {
    && v.Obj?
    && (Get(v, "version").Undefined? || Get(v, "version").Str?)
    && (Get(v, "exportedAt").Undefined? || Get(v, "exportedAt").Str?)
    && Get(v, "todos").Arr?
    && forall i :: 0 <= i < |Get(v, "todos").items| ==> IsImportTodoValue(Get(v, "todos").items[i])
  }

  /** `importDataSchema`: optional `version` and `exportedAt` strings and a required `todos` array. */
  function ParseImportData(v: Value): (r: Parse<ImportData>)
    ensures r.Parsed? <==> IsImportDataValue(v)
    ensures r.Parsed? ==> |r.value.todos| == |Get(v, "todos").items|
    ensures r.Parsed? ==> forall i :: 0 <= i < |r.value.todos| ==>
              ParseImportTodo(Get(v, "todos").items[i], ElementPath(i)) == Parsed(r.value.todos[i])
    ensures WellFormed(r, [])
  {
    if !v.Obj? then NotAnObject(v, [])
    else
      var version := ParseOptionalString(Get(v, "version"), [Key("version")]);
      var exportedAt := ParseOptionalString(Get(v, "exportedAt"), [Key("exportedAt")]);
      var t := Get(v, "todos");
      var todos := if t.Arr? then ParseArray(t.items, [Key("todos")], 0, ParseImportTodo)
                   else Rejected([Issue([Key("todos")], InvalidTypeMessage("array", t))]);
      assert forall i: nat :: [Key("todos")] + [Index(0 + i)] == ElementPath(i);
      if version.Parsed? && exportedAt.Parsed? && todos.Parsed? then
        Parsed(ImportData(version.value, exportedAt.value, todos.value))
      else
        Rejected(IssuesOf(version) + IssuesOf(exportedAt) + IssuesOf(todos))
  }
}
