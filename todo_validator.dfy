/**
 * The validator layer over the schemas: `formatZodError`, which files every issue message
 * under its dot-joined path, and the `validate*` / `isSafe*` entry points with their
 * try/catch structure.
 */
module TodoValidator {
  import opened Wrappers
  import opened JsText
  import opened JsValue
  import opened TodoTypes
  import opened TodoSchema

  /** `Record<string, string[]>`: messages grouped by field path. */
  type FieldErrors = map<string, seq<string>>

  /** `ValidationResult<T>`: `{ success: true, data }` or `{ success: false, errors }`. */
  datatype ValidationResult<T> = Valid(data: T) | Invalid(errors: FieldErrors)

  // ---------------------------------------------------------------- formatZodError

  /** A path segment as `Array.prototype.join` writes it. */
  function SegmentText(s: PathSegment): string {
    match s
    case Key(k) => k
    case Index(i) => NatToString(i)
  }

  function PathParts(path: Path): (r: seq<string>)
    ensures |r| == |path|
  {
    if path == [] then [] else [SegmentText(path[0])] + PathParts(path[1..])
  }

  /**
   * `issue.path.join('.')`; the root path gives the empty key. `GroupedKeys` and
   * `PathKeysSnoc` state how these keys file the issues.
   */
  function PathKey(path: Path): (key: string)
    ensures path == [] ==> key == []
    ensures |path| == 1 ==> key == SegmentText(path[0])
    ensures |path| > 1 ==> key == SegmentText(path[0]) + "." + PathKey(path[1..])
  {
    Join(PathParts(path), ".")
  }

  /** The keys some issue is filed under. */
  function PathKeys(issues: seq<Issue>): set<string> {
    set i | 0 <= i < |issues| :: PathKey(issues[i].path)
  }

  /** The messages of the issues filed under `key`, in issue order. */
  function MessagesAt(issues: seq<Issue>, key: string): seq<string> {
    if issues == [] then []
    else
      var last := issues[|issues| - 1];
      MessagesAt(issues[..|issues| - 1], key) + (if PathKey(last.path) == key then [last.message] else [])
  }

  /** The dictionary `formatZodError` builds: each key that occurs, with its messages. */
  function Grouped(issues: seq<Issue>): FieldErrors {
    map k | k in PathKeys(issues) :: MessagesAt(issues, k)
  }

  /** One step of the `forEach`: create the key's list if missing, then push the message. */
  function Pushed(m: FieldErrors, key: string, message: string): (m': FieldErrors)
    ensures m'.Keys == m.Keys + {key}
    ensures forall k :: k in m && k != key ==> m'[k] == m[k]
  {
    m[key := (if key in m then m[key] else []) + [message]]
  }

  /** The loop's two statements, creating the list if missing and then pushing, make one push. */
  lemma PushedInTwoSteps(m: FieldErrors, key: string, message: string)
    ensures var m1 := if key in m then m else m[key := []];
            m1[key := m1[key] + [message]] == Pushed(m, key, message)
  {
  }

  lemma {:induction false} MessagesAtAbsent(issues: seq<Issue>, key: string)
    requires key !in PathKeys(issues)
    ensures MessagesAt(issues, key) == []
  {
    if issues != [] {
      var init := issues[..|issues| - 1];
      assert PathKeys(init) <= PathKeys(issues) by {
        forall k | k in PathKeys(init) ensures k in PathKeys(issues) {
          var i :| 0 <= i < |init| && k == PathKey(init[i].path);
          assert init[i] == issues[i];
        }
      }
      MessagesAtAbsent(init, key);
      assert PathKey(issues[|issues| - 1].path) in PathKeys(issues);
    }
  }

  /** A further issue adds its key to the keys. */
  lemma PathKeysSnoc(issues: seq<Issue>, x: Issue)
    ensures PathKeys(issues + [x]) == PathKeys(issues) + {PathKey(x.path)}
  {
    var s := issues + [x];
    forall j | j in PathKeys(s) ensures j in PathKeys(issues) + {PathKey(x.path)} {
      var i :| 0 <= i < |s| && j == PathKey(s[i].path);
      if i < |issues| {
        assert s[i] == issues[i];
      }
    }
    forall j | j in PathKeys(issues) ensures j in PathKeys(s) {
      var i :| 0 <= i < |issues| && j == PathKey(issues[i].path);
      assert s[i] == issues[i];
    }
    assert s[|issues|] == x;
  }

  /** A further issue appends its message to its own key's messages only. */
  lemma MessagesAtSnoc(issues: seq<Issue>, x: Issue, key: string)
    ensures MessagesAt(issues + [x], key) == MessagesAt(issues, key) + (if PathKey(x.path) == key then [x.message] else [])
  {
    var s := issues + [x];
    assert s[..|s| - 1] == issues;
    assert s[|s| - 1] == x;
  }

  /** Grouping a longer issue list is pushing the new issue onto the grouping of the shorter one. */
  lemma GroupedSnoc(issues: seq<Issue>, x: Issue)
    ensures Grouped(issues + [x]) == Pushed(Grouped(issues), PathKey(x.path), x.message)
  {
    var k := PathKey(x.path);
    PathKeysSnoc(issues, x);
    var g := Grouped(issues + [x]);
    var p := Pushed(Grouped(issues), k, x.message);
    forall j | j in g.Keys ensures g[j] == p[j] {
      MessagesAtSnoc(issues, x, j);
      if j == k && k !in PathKeys(issues) {
        MessagesAtAbsent(issues, k);
      }
    }
  }

  /** `formatZodError(error)` over the issues of the error. */
  method FormatZodError(issues: seq<Issue>) returns (errors: FieldErrors)
    ensures errors == Grouped(issues)
  {
    errors := map[];
    for n := 0 to |issues|
      invariant errors == Grouped(issues[..n])
    {
      var path := PathKey(issues[n].path);
      ghost var before := errors;
      if path !in errors {
        errors := errors[path := []];
      }
      errors := errors[path := errors[path] + [issues[n].message]];
      PushedInTwoSteps(before, path, issues[n].message);
      GroupedSnoc(issues[..n], issues[n]);
      assert issues[..n + 1] == issues[..n] + [issues[n]];
    }
    assert issues[..|issues|] == issues;
  }

  /** Some key of a non-empty dictionary. */
  ghost function AnyKey(m: FieldErrors): (k: string)
    requires |m| > 0
    ensures k in m
  {
    var k :| k in m; k
  }

  /** The number of messages across all keys. */
  ghost function TotalMessages(m: FieldErrors): nat
    decreases |m|
  {
    if |m| == 0 then 0 else |m[AnyKey(m)]| + TotalMessages(m - {AnyKey(m)})
  }

  /** The total does not depend on which key is counted first. */
  lemma TotalMessagesRemove(m: FieldErrors, k: string)
    requires k in m
    ensures TotalMessages(m) == |m[k]| + TotalMessages(m - {k})
    decreases |m|
  {
    var j := AnyKey(m);
    if j != k {
      TotalMessagesRemove(m - {j}, k);
      TotalMessagesRemove(m - {k}, j);
      assert m - {j} - {k} == m - {k} - {j};
    }
  }

  /** Every key of the dictionary has at least one message. */
  lemma {:induction false} GroupedNonEmpty(issues: seq<Issue>)
    ensures forall k :: k in Grouped(issues) ==> Grouped(issues)[k] != []
  {
    if issues != [] {
      var init := issues[..|issues| - 1];
      var x := issues[|issues| - 1];
      assert issues == init + [x];
      GroupedNonEmpty(init);
      GroupedSnoc(init, x);
    }
  }

  /** Replacing a key's list and then dropping the key is dropping it. */
  lemma RemoveUpdated(m: FieldErrors, k: string, v: seq<string>)
    ensures m[k := v] - {k} == m - {k}
  {
    var l, r := m[k := v] - {k}, m - {k};
    assert l.Keys == r.Keys;
    forall j | j in l.Keys ensures l[j] == r[j] {
    }
  }

  /** Giving a key a list and counting: the new list plus the rest without the key. */
  lemma TotalMessagesUpdated(m: FieldErrors, k: string, v: seq<string>)
    ensures TotalMessages(m[k := v]) == |v| + TotalMessages(m - {k})
  {
    TotalMessagesRemove(m[k := v], k);
    RemoveUpdated(m, k, v);
  }

  /** A push adds exactly one message to the total. */
  lemma TotalMessagesPushed(m: FieldErrors, k: string, message: string)
    ensures TotalMessages(Pushed(m, k, message)) == TotalMessages(m) + 1
  {
    var before := if k in m then m[k] else [];
    TotalMessagesUpdated(m, k, before + [message]);
    if k in m {
      TotalMessagesRemove(m, k);
    } else {
      assert m - {k} == m;
    }
  }

  lemma GroupedEmpty()
    ensures Grouped([]) == map[]
  {
    assert PathKeys([]) == {};
  }

  /** No message is lost or duplicated: the lists hold as many messages as there are issues. */
  lemma {:induction false} GroupedTotal(issues: seq<Issue>)
    ensures TotalMessages(Grouped(issues)) == |issues|
  {
    if issues == [] {
      GroupedEmpty();
    } else {
      var init := issues[..|issues| - 1];
      var x := issues[|issues| - 1];
      assert issues == init + [x];
      GroupedTotal(init);
      GroupedSnoc(init, x);
      TotalMessagesPushed(Grouped(init), PathKey(x.path), x.message);
    }
  }

  /** The keys are exactly the dot-joined paths of the issues. */
  lemma GroupedKeys(issues: seq<Issue>)
    ensures Grouped(issues).Keys == PathKeys(issues)
    ensures forall i :: 0 <= i < |issues| ==> PathKey(issues[i].path) in Grouped(issues)
  {
  }

  /** A single issue gives a single key with a single message. */
  lemma GroupedSingle(x: Issue)
    ensures Grouped([x]) == map[PathKey(x.path) := [x.message]]
  {
    var none: seq<Issue> := [];
    var empty: FieldErrors := map[];
    assert [x] == none + [x];
    GroupedSnoc(none, x);
    GroupedEmpty();
    assert [] + [x.message] == [x.message];
    assert Pushed(empty, PathKey(x.path), x.message) == map[PathKey(x.path) := [x.message]];
  }

  // ---------------------------------------------------------------- try / catch

  /** What `catch (error)` receives: a `ZodError` carrying issues, or any other thrown value. */
  datatype Exception = ZodError(issues: seq<Issue>) | OtherError

  /** The outcome of the `try` block. */
  datatype Attempt<T> = Returned(value: T) | Threw(error: Exception)

  /** `schema.parse(data)`: the parsed value, or a thrown `ZodError`. */
  function ParseOrThrow<T>(r: Parse<T>): (a: Attempt<T>)
    ensures a.Returned? <==> r.Parsed?
    ensures a.Returned? ==> a.value == r.value
    ensures a.Threw? ==> a.error == ZodError(r.issues)
  {
    match r
    case Parsed(x) => Returned(x)
    case Rejected(issues) => Threw(ZodError(issues))
  }

  const GENERAL_KEY := "_general"
  const UNKNOWN_ERROR_MESSAGE := "알 수 없는 오류가 발생했습니다."
  const INVALID_ID_MESSAGE := "유효하지 않은 ID입니다."

  /**
   * The `try { ... } catch` shared by the three validators: a returned value succeeds, a
   * `ZodError` is formatted, and anything else becomes one general message.
   */
  function Catch<T>(a: Attempt<T>, generalMessage: string): (v: ValidationResult<T>)
    ensures v.Valid? <==> a.Returned?
    ensures v.Valid? ==> v.data == a.value
    ensures a.Threw? && a.error.ZodError? ==>
              && v.errors.Keys == PathKeys(a.error.issues)
              && TotalMessages(v.errors) == |a.error.issues|
              && (forall k :: k in v.errors ==> v.errors[k] != [])
    ensures a.Threw? && a.error.OtherError? ==>
              v.errors.Keys == {GENERAL_KEY} && v.errors[GENERAL_KEY] == [generalMessage]
  {
    match a
    case Returned(x) => Valid(x)
    case Threw(ZodError(issues)) =>
      GroupedTotal(issues);
      GroupedNonEmpty(issues);
      Invalid(Grouped(issues))
    case Threw(OtherError) => Invalid(map[GENERAL_KEY := [generalMessage]])
  }

  // ---------------------------------------------------------------- entry points

  /** The issues of a parse: none when it succeeded. */
  function IssuesOf<T>(r: Parse<T>): (issues: seq<Issue>)
    ensures r.Rejected? ==> issues == r.issues
    ensures r.Parsed? ==> issues == []
  {
    if r.Rejected? then r.issues else []
  }

  /** `isSafeCreateTodo`: `createTodoSchema.safeParse(data).success`. */
  function IsSafeCreateTodo(data: Value): (b: bool)
    ensures b <==> IsCreateTodoValue(data)
  {
    ParseCreateTodo(data).Parsed?
  }

  /** `isSafeUpdateTodo`: `updateTodoSchema.safeParse(data).success`. */
  function IsSafeUpdateTodo(data: Value): (b: bool)
    ensures b <==> IsUpdateTodoValue(data)
  {
    ParseUpdateTodo(data).Parsed?
  }

  /** `validateCreateTodo`. */
  function ValidateCreateTodo(data: Value): (v: ValidationResult<CreateTodoInput>)
    ensures v.Valid? <==> IsSafeCreateTodo(data)
    ensures v.Valid? ==> v.data == ParseCreateTodo(data).value
    ensures v.Invalid? ==> v.errors == Grouped(ParseCreateTodo(data).issues) && v.errors != map[]
  {
    var r := ParseCreateTodo(data);
    GroupedKeys(IssuesOf(r));
    Catch(ParseOrThrow(r), UNKNOWN_ERROR_MESSAGE)
  }

  /** `validateUpdateTodo`. */
  function ValidateUpdateTodo(data: Value): (v: ValidationResult<UpdateTodoInput>)
    ensures v.Valid? <==> IsSafeUpdateTodo(data)
    ensures v.Valid? ==> v.data == ParseUpdateTodo(data).value
    ensures v.Invalid? ==> v.errors == Grouped(ParseUpdateTodo(data).issues) && v.errors != map[]
  {
    var r := ParseUpdateTodo(data);
    GroupedKeys(IssuesOf(r));
    Catch(ParseOrThrow(r), UNKNOWN_ERROR_MESSAGE)
  }

  /** `validateTodoId`: a rejected id files its one message under the root key `""`. */
  function ValidateTodoId(id: Value, isUuid: string -> bool): (v: ValidationResult<string>)
    ensures v.Valid? <==> id.Str? && isUuid(id.s)
    ensures v.Valid? ==> v.data == id.s
    ensures v.Invalid? && id.Str? ==> v.errors == map["" := [TODO_ID_MESSAGE]]
    ensures v.Invalid? && !id.Str? ==> v.errors == map["" := [InvalidTypeMessage("string", id)]]
  {
    var r := ParseTodoId(id, isUuid);
    GroupedSingle(Issue([], if id.Str? then TODO_ID_MESSAGE else InvalidTypeMessage("string", id)));
    Catch(ParseOrThrow(r), INVALID_ID_MESSAGE)
  }

  // ---------------------------------------------------------------- consequences

  /** A create payload rejected with a single issue reports that one message under its key. */
  lemma CreateRejectedOnce(v: Value, x: Issue)
    requires ParseCreateTodo(v) == Rejected([x])
    ensures ValidateCreateTodo(v) == Invalid(map[PathKey(x.path) := [x.message]])
  {
    GroupedSingle(x);
  }

  /**
   * Content that is non-empty but consists only of whitespace passes `createTodoSchema`,
   * because both length checks run before the trim, and it is stored as the empty string.
   */
  lemma BlankContentAccepted(v: Value)
    requires v.Obj? && Get(v, "content").Str? && IsBlank(Get(v, "content").s)
    requires 1 <= Utf16Length(Get(v, "content").s) <= CONTENT_MAX_LENGTH
    requires IsPriorityValue(Get(v, "priority")) && Get(v, "completed").Undefined?
    ensures ValidateCreateTodo(v).Valid?
    ensures ValidateCreateTodo(v).data.content == ""
    ensures !ValidateCreateTodo(v).data.completed
  {
    TrimEmptyIffBlank(Get(v, "content").s);
  }

  /** An empty `content`, with a valid priority, is reported under `content` with the minimum-length message alone. */
  lemma EmptyContentRejected(v: Value)
    requires v.Obj? && Get(v, "content") == Str("") && IsPriorityValue(Get(v, "priority"))
    requires Get(v, "completed").Undefined? || Get(v, "completed").Bool?
    ensures ValidateCreateTodo(v) == Invalid(map["content" := [CONTENT_MIN_MESSAGE]])
  {
    var x := Issue([Key("content")], CONTENT_MIN_MESSAGE);
    assert ParseCreateTodo(v) == Rejected([x]);
    CreateRejectedOnce(v, x);
    assert PathKey(x.path) == "content";
  }

  /** Content longer than 500 code units, with a valid priority, is reported under `content` with the maximum-length message alone. */
  lemma LongContentRejected(v: Value)
    requires v.Obj? && Get(v, "content").Str? && Utf16Length(Get(v, "content").s) > CONTENT_MAX_LENGTH
    requires IsPriorityValue(Get(v, "priority"))
    requires Get(v, "completed").Undefined? || Get(v, "completed").Bool?
    ensures ValidateCreateTodo(v) == Invalid(map["content" := [CONTENT_MAX_MESSAGE]])
  {
    var x := Issue([Key("content")], CONTENT_MAX_MESSAGE);
    assert ParseCreateTodo(v) == Rejected([x]);
    CreateRejectedOnce(v, x);
    assert PathKey(x.path) == "content";
  }

  /** A priority outside the enum, with valid content, is reported under `priority` alone. */
  lemma BadPriorityRejected(v: Value)
    requires v.Obj? && IsBoundedString(Get(v, "content")) && !IsPriorityValue(Get(v, "priority"))
    requires Get(v, "completed").Undefined? || Get(v, "completed").Bool?
    ensures ValidateCreateTodo(v) == Invalid(map["priority" := [PRIORITY_MESSAGE]])
  {
    var x := Issue([Key("priority")], PRIORITY_MESSAGE);
    assert ParseCreateTodo(v) == Rejected([x]);
    CreateRejectedOnce(v, x);
    assert PathKey(x.path) == "priority";
  }

  /**
   * A well-typed create payload is accepted as its trimmed content, its `completed` flag
   * and its priority; with `completed` absent the flag is `false`.
   */
  lemma CreateAccepted(v: Value, p: Priority)
    requires v.Obj? && IsBoundedString(Get(v, "content")) && Get(v, "priority") == Str(PriorityName(p))
    requires Get(v, "completed").Undefined? || Get(v, "completed").Bool?
    ensures ValidateCreateTodo(v)
         == Valid(CreateTodoInput(Trim(Get(v, "content").s), Get(v, "completed") == Bool(true), p))
  {
  }

  /** Example input: empty content. */
  lemma ExampleEmptyContent()
    ensures ValidateCreateTodo(Obj(map["content" := Str(""), "priority" := Str("medium"),
                                       "completed" := Bool(false)]))
         == Invalid(map["content" := [CONTENT_MIN_MESSAGE]])
  {
    var b := Obj(map["content" := Str(""), "priority" := Str("medium"), "completed" := Bool(false)]);
    assert Get(b, "content") == Str("") && Get(b, "priority") == Str("medium") && Get(b, "completed") == Bool(false);
    EmptyContentRejected(b);
  }

  /** Example input: the priority `'urgent'`. */
  lemma ExampleInvalidPriority()
    ensures ValidateCreateTodo(Obj(map["content" := Str("할 일"), "priority" := Str("urgent"),
                                       "completed" := Bool(false)]))
         == Invalid(map["priority" := [PRIORITY_MESSAGE]])
  {
    var c := Obj(map["content" := Str("할 일"), "priority" := Str("urgent"), "completed" := Bool(false)]);
    assert Get(c, "content") == Str("할 일") && Get(c, "priority") == Str("urgent") && Get(c, "completed") == Bool(false);
    Utf16LengthOfBmp("할 일");
    BadPriorityRejected(c);
  }

  /** Example input: `'a'.repeat(501)`. */
  lemma ExampleTooLongContent()
    ensures ValidateCreateTodo(Obj(map["content" := Str(seq(501, _ => 'a')), "priority" := Str("low"),
                                       "completed" := Bool(false)]))
         == Invalid(map["content" := [CONTENT_MAX_MESSAGE]])
  {
    var long := seq(501, _ => 'a');
    var d := Obj(map["content" := Str(long), "priority" := Str("low"), "completed" := Bool(false)]);
    assert Get(d, "content") == Str(long) && Get(d, "priority") == Str("low") && Get(d, "completed") == Bool(false);
    Utf16LengthOfBmp(long);
    LongContentRejected(d);
  }

  /** A patch holding only `content` is accepted with the trimmed content and nothing else. */
  lemma UpdateContentOnly(s: string)
    requires 1 <= Utf16Length(s) <= CONTENT_MAX_LENGTH
    ensures ValidateUpdateTodo(Obj(map["content" := Str(s)])) == Valid(UpdateTodoInput(Some(Trim(s)), None, None))
  {
    var a := Obj(map["content" := Str(s)]);
    assert Get(a, "content") == Str(s) && Get(a, "priority") == Undefined && Get(a, "completed") == Undefined;
  }

  /** A patch holding only `completed` is accepted with that flag and nothing else. */
  lemma UpdateCompletedOnly(b: bool)
    ensures ValidateUpdateTodo(Obj(map["completed" := Bool(b)])) == Valid(UpdateTodoInput(None, Some(b), None))
  {
    var a := Obj(map["completed" := Bool(b)]);
    assert Get(a, "content") == Undefined && Get(a, "priority") == Undefined && Get(a, "completed") == Bool(b);
  }

  /** The empty patch is accepted and changes nothing. */
  lemma UpdateEmpty()
    ensures ValidateUpdateTodo(Obj(map[])) == Valid(UpdateTodoInput(None, None, None))
  {
    var c := Obj(map[]);
    assert Get(c, "content") == Undefined && Get(c, "priority") == Undefined && Get(c, "completed") == Undefined;
  }
}
