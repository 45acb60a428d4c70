# Todo: a verified model of the list, its validation and its persistence

This project models the core of a Next.js to-do application (TypeScript, React, Zod)
in Dafny and proves properties of that model. It covers:

- the `Todo` entity and its priority tables (`types/todo.ts`);
- the pure helpers (`lib/todoHelpers.ts`): creation, the priority label, the stable
  priority sort and the two completion filters;
- the Zod schemas (`lib/schemas/todoSchema.ts`), as parsers that keep Zod 3's behaviour:
  keys are checked in declaration order and every failing key adds one issue with its
  path and message; a length bound is checked on the UTF-16 length BEFORE `.trim()`;
  `completed` defaults to `false`, and a date field accepts a string or a `Date`;
- the validators (`lib/validators/todoValidator.ts`): `formatZodError` as a loop that groups
  the issues' messages by their dot-joined path, and the `try`/`catch` that turns a thrown
  `ZodError` into that dictionary and any other error into the `_general` message;
- the `useTodos` hook (`hooks/use-todos.ts`) as a class. Its fields are the list, the
  loaded flag and the browser storage. Each operation is followed by the save effect,
  which writes `JSON.stringify(todos)` under `premium-todos` once the initial load has
  happened. The hook also exports a backup file and imports one, validating it with the
  import schema;
- the list view (`TodoList.tsx`): the filter tab, the filtered list, the tab counts and
  the empty-state message;
- the quick-add form (`TodoInput.tsx`) and the add dialog (`TodoAddDialog.tsx`). Both are
  classes over their `useState` fields. Each event handler is a method. The dialog's
  effects run as a step after new props arrive;
- the four example screens (`TodoLayout.example.tsx`, `TodoList.example.tsx`,
  `TodoItem.example.tsx`, `TodoAnimation.example.tsx`). Each is a class over its list state,
  with one method per handler, inline handlers included; the two handlers whose outcome
  `Math.random()` chooses are listed under "Left out".

Things outside the model are parameters:

- the id (`crypto.randomUUID()`, or `Date.now()` digits in the examples);
- the clock (`new Date()`);
- the random choices;
- `JSON.stringify`, `JSON.parse`, `Date#toISOString` and `new Date(text)`. These are
  function values in a `TodoStore.Runtime`. The round-trip lemmas state as requirements
  what they need of those functions.

A `Date` is its millisecond count (`Timestamp = int`), and a string is `seq<char>`. The
UTF-16 length that Zod compares counts characters outside the Basic Multilingual Plane twice.

Three consequences of the code that the model keeps:

- `createTodoSchema` checks `.min(1)`/`.max(500)` before `.trim()`
  (lib/schemas/todoSchema.ts:18-20), so `"   "` is accepted and becomes `""`
  (`TodoValidator.BlankContentAccepted`).
- The import schema's `id` is a plain `z.string()` (lib/schemas/todoSchema.ts:52), so any
  string is accepted as an `id`, including the empty one.
- The save effect writes only once `isLoaded` is set (hooks/use-todos.ts:65-69), so changes
  made before the initial load stay in memory and are not written to storage; the load
  (hooks/use-todos.ts:58-62) then overwrites them.

The model follows the declared `Todo` type of `types/todo.ts` (five fields) and not one
runtime behaviour of the code: the add dialog and the page pass a `dueDate` to `addTodo`,
and `{ id, ...input, createdAt }` copies it into the stored object, which is then saved,
loaded and exported with it. The model drops that field. The code's own export and import
lose it as well, because `importDataSchema` strips keys it does not declare.

## Model

| member | source | states |
|---|---|---|
| TodoTypes.PriorityHasThreeValues | types/todo.ts:4 | a priority is one of exactly three distinct values |
| TodoTypes.PriorityTablesInjective | types/todo.ts:49-62 | different priorities have different names, colours and Korean labels |
| JsText.Trim | lib/schemas/todoSchema.ts:20 | `trim` never lengthens its input |
| JsText.TrimIsCore | lib/schemas/todoSchema.ts:20 | the trim is the middle slice of the input: what is cut off on both sides is whitespace, and a non-empty result starts and ends with non-whitespace |
| JsText.TrimEmptyIffBlank | components/todo/TodoInput.tsx:38-39 | the trimmed text is empty exactly when every character is whitespace |
| JsText.TrimUnchanged | lib/schemas/todoSchema.ts:20 | a string whose ends are not whitespace is its own trim |
| JsText.TrimIdempotent | lib/schemas/todoSchema.ts:20 | trimming twice is trimming once |
| JsText.StripBounds | lib/schemas/todoSchema.ts:20 | the stripped text is `s[a..b]`, with only stripped characters before `a` and from `b` on, and kept ends that are not stripped |
| JsText.StripEmptyIffAll | lib/schemas/todoSchema.ts:20 | stripping leaves nothing exactly when every character is one that is stripped |
| JsText.StripUnchanged | lib/schemas/todoSchema.ts:20 | a string whose ends are not stripped is unchanged |
| JsText.Utf16Length | lib/schemas/todoSchema.ts:18-19 | a string's UTF-16 length lies between its character count and twice that |
| JsText.Utf16LengthOfBmp | lib/schemas/todoSchema.ts:18-19 | for text inside the Basic Multilingual Plane the UTF-16 length is the character count |
| JsText.NatToString | components/todo/TodoLayout.example.tsx:64 | `Date.now().toString()` is a non-empty string of decimal digits, one digit long exactly below 10 |
| JsText.NatToStringRoundTrip | components/todo/TodoLayout.example.tsx:64 | reading the digits back gives the number |
| JsText.NatToStringInjective | components/todo/TodoLayout.example.tsx:64 | different clock readings give different ids |
| JsText.Join | lib/validators/todoValidator.ts:24 | joining no parts gives `""`, joining one part gives that part, and more parts give the first, the separator and the join of the rest |
| JsText.JoinSnoc | lib/validators/todoValidator.ts:24 | joining one more part appends the separator and that part |
| JsArray.Filter | lib/todoHelpers.ts:39-41 | `filter` keeps exactly the elements that pass the predicate and never lengthens |
| JsArray.FilterAppend | lib/todoHelpers.ts:39-41 | filtering a concatenation is concatenating the filtered parts (order is kept) |
| JsArray.FilterAll | lib/todoHelpers.ts:39-41 | the filter keeps the whole list exactly when every element passes |
| JsArray.FilterNone | lib/todoHelpers.ts:39-41 | the filter is empty when no element passes |
| JsArray.FilterIdempotent | lib/todoHelpers.ts:39-41 | filtering twice with one predicate is filtering once |
| JsArray.FilterPartition | lib/todoHelpers.ts:39-48 | a filter and the filter of its negation split the list: their lengths add up and their multisets make the list's |
| JsArray.WithKey | lib/todoHelpers.ts:31-33 | the elements of one sort key are elements of the list with that key |
| JsArray.InsertBy | lib/todoHelpers.ts:31-33 | an insertion step adds exactly the one element |
| JsArray.InsertBySorted | lib/todoHelpers.ts:31-33 | inserting into a sorted list keeps it sorted |
| JsArray.InsertByWithKey | lib/todoHelpers.ts:31-33 | the inserted element goes in front of its equal keys, and the relative order of every key class is kept |
| JsArray.SortBy | lib/todoHelpers.ts:31-33 | the stable sort by an integer key (`Array.prototype.sort` with `a - b`) is a permutation |
| JsArray.SortBySorted | lib/todoHelpers.ts:31-33 | the sorted list is non-decreasing in the key |
| JsArray.SortByStable | lib/todoHelpers.ts:31-33 | elements with equal keys keep their input order |
| TodoHelpers.CreateTodo | lib/todoHelpers.ts:6-12 | the new todo carries the fresh id and the creation time |
| TodoHelpers.CreateTodoInverse | lib/todoHelpers.ts:6-12 | the new todo carries exactly the caller's fields, and every todo is the creation of its own fields, id and time |
| TodoHelpers.GetPriorityLabel | lib/todoHelpers.ts:17-19 | low is `낮음`, medium `보통` and high `높음` |
| TodoHelpers.GetPriorityLabelInjective | lib/todoHelpers.ts:17-19 | two priorities have the same label exactly when they are equal |
| TodoHelpers.PriorityRank | lib/todoHelpers.ts:25-29 | high ranks 0, low ranks 2, and every rank is within 0..2 |
| TodoHelpers.SortByPriority | lib/todoHelpers.ts:24-34 | the sorted copy is a permutation of the list, ordered high, medium, low |
| TodoHelpers.SortByPriorityGroups | lib/todoHelpers.ts:24-34 | after sorting, every high todo precedes every other one and every low todo follows every other one |
| TodoHelpers.SortByPriorityStable | lib/todoHelpers.ts:31-33 | todos of one priority keep their order |
| TodoHelpers.GetIncompleteTodos | lib/todoHelpers.ts:39-41 | the result holds exactly the list's uncompleted todos |
| TodoHelpers.GetCompletedTodos | lib/todoHelpers.ts:46-48 | the result holds exactly the list's completed todos |
| TodoHelpers.CompletionSplit | lib/todoHelpers.ts:39-48 | the two filters split the list: lengths add up and multisets make the list's |
| TodoHelpers.CompletionFiltersKeepOrder | lib/todoHelpers.ts:39-48 | both filters keep list order across concatenation |
| TodoSchema.IssuesUnderPrefix | lib/schemas/todoSchema.ts:51-65 | issues under a path are under each of its prefixes |
| TodoSchema.IssuesUnderAppend | lib/schemas/todoSchema.ts:51-65 | appending issue lists keeps them under a common path |
| TodoSchema.FieldUnder | lib/schemas/todoSchema.ts:51-57 | the issues of a field check lie under the object's path |
| TodoSchema.InvalidTypeMessage | lib/schemas/todoSchema.ts:14-17 | an absent value gets Zod's `Required` message and any other wrong type the type message |
| TodoSchema.Present | lib/schemas/todoSchema.ts:36-40 | an `.optional()` over a present value succeeds exactly when the inner schema does, with the same issues |
| TodoSchema.ParsePriority | lib/schemas/todoSchema.ts:6-8 | a value is accepted exactly when it is one of the three names; a rejection is one issue with the custom message at the field's path |
| TodoSchema.ParseBoundedString | lib/schemas/todoSchema.ts:14-20 | a string of UTF-16 length 1..500 is accepted (and trimmed when the schema trims); otherwise exactly one issue: the type message, the min message for length 0, the max message otherwise |
| TodoSchema.ParseString | lib/schemas/todoSchema.ts:52 | `z.string()` accepts exactly strings, with the type issue otherwise |
| TodoSchema.ParseBoolean | lib/schemas/todoSchema.ts:54 | `z.boolean()` accepts exactly booleans, with the type issue otherwise |
| TodoSchema.NotAnObject | lib/schemas/todoSchema.ts:13 | a non-object is rejected with one issue at the object's path |
| TodoSchema.TodoFieldIssues | lib/schemas/todoSchema.ts:13-25 | the issues of the content, priority and completed parsers, collected in key order, all sit on those three keys |
| TodoSchema.ParseCreateTodo | lib/schemas/todoSchema.ts:13-25 | accepted exactly when content, priority and completed (absent defaults to false) all pass; the content is trimmed; every rejection has issues, each on the `content`, `priority` or `completed` key of an object, or at the root for a value that is not an object |
| TodoSchema.ParseUpdateTodo | lib/schemas/todoSchema.ts:30-41 | accepted exactly when each present field passes; absent fields stay absent and present ones are carried (content trimmed); a rejection has issues, each on the `content`, `priority` or `completed` key of an object, or at the root for a value that is not an object |
| TodoSchema.ParseTodoId | lib/schemas/todoSchema.ts:46 | accepted exactly when a string satisfies the UUID test; otherwise the custom message (string) or the type message (non-string) at the root |
| TodoSchema.ParseDateInput | lib/schemas/todoSchema.ts:56 | the union accepts exactly a string or a `Date`, else Zod's `Invalid input` |
| TodoSchema.ParseImportTodo | lib/schemas/todoSchema.ts:51-57 | accepted exactly for records of the import shape, and the parsed fields equal the record's; rejections have issues under the element's path |
| TodoSchema.ParseArray | lib/schemas/todoSchema.ts:65 | `z.array` accepts exactly when every element does, in order and with the same length; issues carry the element index |
| TodoSchema.ParseOptionalString | lib/schemas/todoSchema.ts:63-64 | an optional string accepts an absent value (as `None`) or a string (as `Some`) |
| TodoSchema.ParseImportData | lib/schemas/todoSchema.ts:62-66 | accepted exactly for import-shaped payloads; the todos are the parsed elements one for one |
| TodoValidator.PathParts | lib/validators/todoValidator.ts:24 | a path gives one text part per segment |
| TodoValidator.Pushed | lib/validators/todoValidator.ts:25-28 | a push adds the key if missing and changes no other key |
| TodoValidator.MessagesAtAbsent | lib/validators/todoValidator.ts:23-29 | a key no issue is filed under collects no messages |
| TodoValidator.PathKeysSnoc | lib/validators/todoValidator.ts:23-29 | one more issue adds exactly its own key to the keys |
| TodoValidator.MessagesAtSnoc | lib/validators/todoValidator.ts:23-29 | one more issue appends its message to its own key's messages and to no other |
| TodoValidator.GroupedSnoc | lib/validators/todoValidator.ts:23-29 | grouping one more issue is pushing its message onto its key |
| TodoValidator.FormatZodError | lib/validators/todoValidator.ts:20-32 | the loop builds exactly the grouping of all issues' messages by dot-joined path, in issue order |
| TodoValidator.TotalMessagesRemove | lib/validators/todoValidator.ts:20-32 | the total count of messages does not depend on which key is counted first |
| TodoValidator.TotalMessagesPushed | lib/validators/todoValidator.ts:28 | a push adds exactly one message to the total |
| TodoValidator.GroupedNonEmpty | lib/validators/todoValidator.ts:25-28 | every key of the dictionary has at least one message |
| TodoValidator.GroupedEmpty | lib/validators/todoValidator.ts:21 | no issues give the empty dictionary |
| TodoValidator.GroupedTotal | lib/validators/todoValidator.ts:20-32 | no message is lost or duplicated: the dictionary holds as many messages as there were issues |
| TodoValidator.GroupedKeys | lib/validators/todoValidator.ts:24 | the keys are exactly the joined paths of the issues |
| TodoValidator.GroupedSingle | lib/validators/todoValidator.ts:20-32 | a single issue gives a single key with a single message |
| TodoValidator.Catch | lib/validators/todoValidator.ts:38-49 | a returned value is a success; a thrown `ZodError` gives its grouped issues; any other error gives the `_general` message |
| TodoValidator.IsSafeCreateTodo | lib/validators/todoValidator.ts:91-93 | the type guard holds exactly for valid creation input |
| TodoValidator.IsSafeUpdateTodo | lib/validators/todoValidator.ts:95-97 | the type guard holds exactly for valid update input |
| TodoValidator.PathKey | lib/validators/todoValidator.ts:24 | the root path gives `""`, one segment gives its text, and a longer path puts a `.` between the first segment and the key of the rest |
| TodoValidator.ParseOrThrow | lib/validators/todoValidator.ts:39 | `parse` returns exactly when the schema accepts, with the parsed value, and otherwise throws a `ZodError` carrying the schema's issues |
| TodoValidator.ValidateCreateTodo | lib/validators/todoValidator.ts:37-50 | success exactly when the guard holds, carrying the parsed data; otherwise the non-empty grouping of the schema's issues |
| TodoValidator.ValidateUpdateTodo | lib/validators/todoValidator.ts:55-68 | success exactly when the guard holds, carrying the parsed data; otherwise the non-empty grouping of the schema's issues |
| TodoValidator.ValidateTodoId | lib/validators/todoValidator.ts:73-86 | success exactly for UUID strings; the error sits under the empty key |
| TodoValidator.CreateRejectedOnce | lib/validators/todoValidator.ts:37-50 | one issue gives one key with one message |
| TodoValidator.BlankContentAccepted | lib/schemas/todoSchema.ts:14-20 | whitespace-only content of length 1..500 passes and is stored as `""`, with `completed` defaulting to false |
| TodoValidator.EmptyContentRejected | lib/schemas/todoSchema.ts:18 | empty content fails with exactly the min message under `content` |
| TodoValidator.LongContentRejected | lib/schemas/todoSchema.ts:19 | content over 500 UTF-16 units fails with exactly the max message under `content` |
| TodoValidator.BadPriorityRejected | lib/schemas/todoSchema.ts:6-8 | a bad priority fails with exactly the priority message under `priority` |
| TodoValidator.CreateAccepted | lib/validators/todoValidator.ts:37-40 | a well-formed input validates to its trimmed content, priority and completion |
| TodoValidator.ExampleEmptyContent | lib/examples/todoValidationExample.ts:25-36 | the documented result for empty content |
| TodoValidator.ExampleInvalidPriority | lib/examples/todoValidationExample.ts:39-50 | the documented result for priority `urgent` |
| TodoValidator.ExampleTooLongContent | lib/examples/todoValidationExample.ts:53-65 | the documented result for 501 characters |
| TodoValidator.UpdateContentOnly | lib/examples/todoValidationExample.ts:68-76 | a content-only patch of valid length validates to just that (trimmed) content |
| TodoValidator.UpdateCompletedOnly | lib/examples/todoValidationExample.ts:79-87 | a completed-only patch validates to just that flag |
| TodoValidator.UpdateEmpty | lib/schemas/todoSchema.ts:30-41 | the empty patch is valid and changes nothing |
| TodoOps.Find | hooks/use-todos.ts:121-126 | `find` is absent exactly when no todo has the id, and otherwise returns the FIRST todo with it |
| TodoOps.PrependKeepsUniqueIds | hooks/use-todos.ts:81 | prepending a todo with a fresh id keeps ids unique |
| TodoOps.WithoutId | hooks/use-todos.ts:88-90 | deleting removes every todo with the id and keeps every other todo |
| TodoOps.DeleteThenFind | hooks/use-todos.ts:88-90 | after a delete the id is not found |
| TodoOps.DeleteAbsent | hooks/use-todos.ts:88-90 | deleting an absent id changes nothing |
| TodoOps.DeleteKeepsOrder | hooks/use-todos.ts:88-90 | delete keeps the list order |
| TodoOps.DeleteUniquePresent | hooks/use-todos.ts:88-90 | with unique ids, deleting a present id removes exactly one todo |
| TodoOps.UniqueIdsTail | hooks/use-todos.ts:88-90 | the tail of a list with unique ids has unique ids and lacks the head's id |
| TodoOps.FilterKeepsAbsentId | hooks/use-todos.ts:139 | filtering cannot bring in an id that was absent |
| TodoOps.FilterKeepsUniqueIds | hooks/use-todos.ts:89 | filtering keeps ids unique |
| TodoOps.Toggled | hooks/use-todos.ts:108-116 | the todos with the id flip `completed`, and all other todos are unchanged, in place |
| TodoOps.ToggleInvolution | hooks/use-todos.ts:108-116 | toggling twice restores the list |
| TodoOps.ToggleFrame | hooks/use-todos.ts:108-116 | a toggle changes only `completed` of the matching todos |
| TodoOps.Merge | hooks/use-todos.ts:99 | `{...todo, ...updates}` keeps the id and the creation time |
| TodoOps.Updated | hooks/use-todos.ts:95-103 | the todos with the id are merged with the patch, and others are unchanged, in place |
| TodoOps.UpdateFrame | hooks/use-todos.ts:95-103 | an update changes exactly the fields the patch names, of the matching todos only |
| TodoOps.UpdateIdempotent | hooks/use-todos.ts:95-103 | applying a patch twice is applying it once |
| TodoOps.UpdateEmptyPatch | hooks/use-todos.ts:95-103 | an empty patch changes nothing |
| TodoOps.MapsKeepUniqueIds | hooks/use-todos.ts:95-116 | toggle and update keep ids unique |
| TodoOps.ClearCompletedIdempotent | hooks/use-todos.ts:138-140 | clearing completed todos twice is clearing once |
| TodoOps.ClearCompletedKeepsAllIffNoneCompleted | hooks/use-todos.ts:138-140 | clearing completed keeps the whole list exactly when none is completed |
| TodoOps.SetAllCompleted | components/todo/TodoList.example.tsx:103-109 | every todo gets the given flag, and nothing else changes |
| TodoOps.SetAllCompletedUniform | components/todo/TodoList.example.tsx:103-109 | afterwards all todos have the flag, and the completed filter is the whole list or nothing |
| TodoOps.PriorityCountsSum | hooks/use-todos.ts:214-218 | the three priority counts add up to the total |
| TodoOps.Stats | hooks/use-todos.ts:210-219 | completed plus incomplete is the total, the priority counts add up to it, and each count (completed, incomplete, high, medium, low) is the length of its filter |
| TodoStore.TodoJson | hooks/use-todos.ts:44 | a todo serialises to an object record |
| TodoStore.TodosJson | hooks/use-todos.ts:44 | the list serialises element by element, in order |
| TodoStore.EncodeTodos | hooks/use-todos.ts:44 | the saved text is `JSON.stringify`, without indentation, of the array of the todos' records in list order |
| TodoStore.Persisted | hooks/use-todos.ts:65-69 | once loaded, the slot holds the list's JSON; before that the storage is untouched; other keys are never touched |
| TodoStore.DecodeStoredTodo | hooks/use-todos.ts:25-28 | a decoded record has the stored fields, with `createdAt` read by `new Date` |
| TodoStore.DecodeStoredList | hooks/use-todos.ts:25-28 | a stored array decodes exactly when every record does, one for one |
| TodoStore.LoadTodos | hooks/use-todos.ts:12-33 | a missing or empty slot, or text that is not JSON, loads as the empty list |
| TodoStore.DecodeTodoJson | hooks/use-todos.ts:25-28 | a todo's record decodes back as the todo when its date survives its ISO text |
| TodoStore.LoadAfterSave | hooks/use-todos.ts:12-48 | loading what the save effect wrote gives back the same list |
| TodoStore.ExportJson | hooks/use-todos.ts:146-150 | the export payload has version `1.0`, the export time and the list |
| TodoStore.DatePart | hooks/use-todos.ts:158 | `split('T')[0]` is the prefix before the first `T` |
| TodoStore.ExportText | hooks/use-todos.ts:146-152 | the backup text is `JSON.stringify` with two-space indentation of the `{ version, exportedAt, todos }` object |
| TodoStore.ImportErrorMessage | hooks/use-todos.ts:180-203 | a read failure rejects with `Failed to read file`, a schema failure with the invalid-format message, and a syntax error with the runtime's own message (none here) |
| TodoStore.ExportFileName | hooks/use-todos.ts:158 | the file name is `todos-backup-` plus that date part plus `.json` |
| TodoStore.FromImported | hooks/use-todos.ts:185-188 | an imported record becomes a todo with the same id, content, completion and priority; a text `createdAt` becomes the date `new Date` reads from it and a `Date` is kept |
| TodoStore.ImportedRecord | hooks/use-todos.ts:185-188 | a record that passes `todoSchema` converts to a todo with the record's id, content, completion and priority, and the date read from its `createdAt` |
| TodoStore.ReadImport | hooks/use-todos.ts:168-207 | a read failure, a syntax error and a schema failure each reject with their error; otherwise the list is replaced by the converted elements, one for one, each with the file's id, content, completion and priority, and the date read from its `createdAt` text or the `Date` it holds |
| TodoStore.TodoJsonImportable | lib/schemas/todoSchema.ts:51-57 | an exported todo passes the import schema exactly when its content has UTF-16 length 1..500 |
| TodoStore.ImportedTodoJson | hooks/use-todos.ts:185-188 | a todo's record imported back is the todo |
| TodoStore.ExportImportRoundTrip | hooks/use-todos.ts:145-207 | importing an export restores the list when every content is of valid length |
| TodoStore.ExportWithEmptyContentNotImportable | hooks/use-todos.ts:178-181 | an export holding a todo with empty content (possible through the create schema's trim) fails on import with the format error |
| TodoStore.TodoStore.constructor | hooks/use-todos.ts:54-55 | the hook starts with an empty list, not loaded, over the given storage |
| TodoStore.TodoStore.Load | hooks/use-todos.ts:58-69 | the load effect sets the loaded list and the flag, then the save effect writes it back |
| TodoStore.TodoStore.AddTodo | hooks/use-todos.ts:74-83 | the new todo is prepended and returned, the rest is unchanged, ids stay unique, and the save effect follows |
| TodoStore.TodoStore.DeleteTodo | hooks/use-todos.ts:88-90 | the list loses the id and the save effect follows |
| TodoStore.TodoStore.UpdateTodo | hooks/use-todos.ts:95-103 | the list is the patched list and the save effect follows |
| TodoStore.TodoStore.ToggleTodo | hooks/use-todos.ts:108-116 | the list is the toggled list and the save effect follows |
| TodoStore.TodoStore.GetTodoById | hooks/use-todos.ts:121-126 | the first todo with the id, absent exactly when there is none |
| TodoStore.TodoStore.ClearAllTodos | hooks/use-todos.ts:131-133 | the list becomes empty and the save effect follows |
| TodoStore.TodoStore.ClearCompletedTodos | hooks/use-todos.ts:138-140 | the list keeps its uncompleted todos and the save effect follows |
| TodoStore.TodoStore.GetStats | hooks/use-todos.ts:210-219 | the statistics of the current list: the counts add up, and each priority count is the length of its filter |
| TodoStore.TodoStore.ExportTodos | hooks/use-todos.ts:145-163 | the two-space-indented JSON text with `exportedAt` from the first clock reading, and the file name dated by the second |
| TodoStore.TodoStore.ImportTodos | hooks/use-todos.ts:168-207 | a successful import replaces the list and the save effect follows; a failed one changes nothing |
| TodoListView.FilteredTodos | components/todo/TodoList.tsx:31-41 | `all` shows the list; `active` and `completed` show exactly the matching todos |
| TodoListView.CountsOf | components/todo/TodoList.tsx:46-52 | the tab counts: the total and the two filter lengths that add up to it |
| TodoListView.FilteredMatchesCount | components/todo/TodoList.tsx:31-52 | the shown list is as long as its tab's count |
| TodoListView.FilteredKeepsOrder | components/todo/TodoList.tsx:31-37 | filtering a concatenation filters each part and keeps their order |
| TodoListView.EmptyMessage | components/todo/TodoList.tsx:57-79 | every tab has a non-empty title and description, and each tab's title is its own text |
| TodoListView.EmptyStateIff | components/todo/TodoList.tsx:126 | the empty state shows exactly when no todo matches the filter |
| TodoListView.EmptyMessageDistinct | components/todo/TodoList.tsx:57-79 | each filter has its own empty-state title |
| TodoListView.TodoListState.constructor | components/todo/TodoList.tsx:26 | the view starts on `all` |
| TodoListView.TodoListState.SetFilter | components/todo/TodoList.tsx:86 | choosing a tab sets the filter |
| TodoListView.TodoListState.Render | components/todo/TodoList.tsx:31-127 | the rendered list, counts, empty flag and message agree with one another |
| TodoInputForm.SubmissionOf | components/todo/TodoInput.tsx:34-49 | nothing is submitted exactly for blank content; otherwise the trimmed, non-empty content with the priority |
| TodoInputForm.SubmitDisabled | components/todo/TodoInput.tsx:132 | the button is disabled exactly when the form is disabled or the content is blank |
| TodoInputForm.EnabledButtonSubmits | components/todo/TodoInput.tsx:34-49 | an enabled button always submits, and on an enabled form the button is disabled exactly when a submit does nothing |
| TodoInputForm.SubmitsOnKey | components/todo/TodoInput.tsx:54-59 | only Enter submits, never with Shift held, and Enter without Shift always does |
| TodoInputForm.TodoInput.constructor | components/todo/TodoInput.tsx:28-29 | the form starts empty at medium priority |
| TodoInputForm.TodoInput.ChangeContent | components/todo/TodoInput.tsx:79 | typing sets the content only |
| TodoInputForm.TodoInput.ChangePriority | components/todo/TodoInput.tsx:92 | choosing a priority sets it only |
| TodoInputForm.TodoInput.HandleSubmit | components/todo/TodoInput.tsx:34-49 | a submit calls back with the trimmed content and resets the form, or does nothing for blank content |
| TodoInputForm.TodoInput.HandleKeyDown | components/todo/TodoInput.tsx:54-59 | Enter without Shift submits; any other key does nothing |
| TodoAddDialogForm.IsValidForm | components/todo/TodoAddDialog.tsx:87 | the form is valid exactly when the content is not blank and a date is chosen |
| TodoAddDialogForm.RequestOf | components/todo/TodoAddDialog.tsx:73-84 | a request exactly for a valid form: trimmed content, the priority, not completed, and the date |
| TodoAddDialogForm.TodoAddDialog.constructor | components/todo/TodoAddDialog.tsx:51-71 | the mount state after both effects: a closed dialog resets to the current date, an open one holds the preset date or the clock reading |
| TodoAddDialogForm.TodoAddDialog.ChangeContent | components/todo/TodoAddDialog.tsx:109 | typing sets the content only |
| TodoAddDialogForm.TodoAddDialog.ChangePriority | components/todo/TodoAddDialog.tsx:126 | choosing a priority sets it only |
| TodoAddDialogForm.TodoAddDialog.SelectDate | components/todo/TodoAddDialog.tsx:184 | the calendar sets or clears the date only |
| TodoAddDialogForm.TodoAddDialog.ReceiveProps | components/todo/TodoAddDialog.tsx:58-71 | a new preset date is taken over; closing resets content, priority and date; other fields are kept |
| TodoAddDialogForm.TodoAddDialog.HandleSubmit | components/todo/TodoAddDialog.tsx:73-84 | a valid form sends its request and asks to close; an invalid one does neither |
| TodoLayoutDemo.SortByDate | components/todo/TodoLayout.example.tsx:102-108 | newest first, as a permutation of the list |
| TodoLayoutDemo.SortByDateStable | components/todo/TodoLayout.example.tsx:102-108 | todos created at the same time keep their order |
| TodoLayoutDemo.MoveCompletedToBottom | components/todo/TodoLayout.example.tsx:127-133 | a permutation in which no completed todo precedes an uncompleted one |
| TodoLayoutDemo.MoveCompletedToBottomKeepsOrder | components/todo/TodoLayout.example.tsx:127-133 | each group keeps its order |
| TodoLayoutDemo.MoveCompletedToBottomIdempotent | components/todo/TodoLayout.example.tsx:127-133 | moving twice is moving once |
| TodoLayoutDemo.NewTodo | components/todo/TodoLayout.example.tsx:62-73 | a new example todo is uncompleted, with the given fields and the clock reading's digits as id |
| TodoLayoutDemo.TodoLayoutExample.constructor | components/todo/TodoLayout.example.tsx:19-60 | the screen starts with its five seed todos |
| TodoLayoutDemo.TodoLayoutExample.AddTodo | components/todo/TodoLayout.example.tsx:62-73 | the new todo is prepended |
| TodoLayoutDemo.TodoLayoutExample.Toggle | components/todo/TodoLayout.example.tsx:75-81 | the list is the toggled list |
| TodoLayoutDemo.TodoLayoutExample.Delete | components/todo/TodoLayout.example.tsx:83-85 | the list loses the id |
| TodoLayoutDemo.TodoLayoutExample.SortByPriorityHandler | components/todo/TodoLayout.example.tsx:90-97 | the list is sorted by priority |
| TodoLayoutDemo.TodoLayoutExample.SortByDateHandler | components/todo/TodoLayout.example.tsx:102-108 | the list is sorted newest first |
| TodoLayoutDemo.TodoLayoutExample.MoveCompletedToBottomHandler | components/todo/TodoLayout.example.tsx:127-133 | completed todos move to the end |
| TodoLayoutDemo.TodoLayoutExample.Stats | components/todo/TodoLayout.example.tsx:135-139 | total, completed and incomplete counts that add up |
| TodoListDemo.TodoListExample.constructor | components/todo/TodoList.example.tsx:15-56 | the screen starts with its seed todos |
| TodoListDemo.TodoListExample.Toggle | components/todo/TodoList.example.tsx:58-64 | the list is the toggled list |
| TodoListDemo.TodoListExample.Delete | components/todo/TodoList.example.tsx:66-68 | the list loses the id |
| TodoListDemo.TodoListExample.CompleteAll | components/todo/TodoList.example.tsx:103-105 | every todo becomes completed |
| TodoListDemo.TodoListExample.UncompleteAll | components/todo/TodoList.example.tsx:107-109 | no todo stays completed |
| TodoListDemo.TodoListExample.DeleteCompleted | components/todo/TodoList.example.tsx:111-113 | the uncompleted todos remain |
| TodoListDemo.TodoListExample.ClearAll | components/todo/TodoList.example.tsx:115-117 | the list becomes empty |
| TodoListDemo.TodoListExample.Stats | components/todo/TodoList.example.tsx:119-123 | total, active and completed counts that add up |
| TodoItemDemo.SampleTodo | components/todo/TodoItem.example.tsx:50-64 | a sample todo is uncompleted, its content is the sample prefix and digits, and its id reads back as the clock reading |
| TodoItemDemo.ToggleAll | components/todo/TodoItem.example.tsx:66-71 | when all are completed all become uncompleted, otherwise all become completed; nothing else changes |
| TodoItemDemo.ToggleAllUniform | components/todo/TodoItem.example.tsx:66-71 | afterwards every todo has the same flag |
| TodoItemDemo.ToggleAllTwice | components/todo/TodoItem.example.tsx:66-71 | a second toggle-all flips the uniform flag |
| TodoItemDemo.TodoItemExample.constructor | components/todo/TodoItem.example.tsx:14-36 | the screen starts with its three seed todos |
| TodoItemDemo.TodoItemExample.Toggle | components/todo/TodoItem.example.tsx:38-44 | the list is the toggled list |
| TodoItemDemo.TodoItemExample.Delete | components/todo/TodoItem.example.tsx:46-48 | the list loses the id |
| TodoItemDemo.TodoItemExample.AddSample | components/todo/TodoItem.example.tsx:50-64 | the sample todo is prepended |
| TodoItemDemo.TodoItemExample.ToggleAllHandler | components/todo/TodoItem.example.tsx:66-71 | the list is toggled as a whole |
| TodoItemDemo.TodoItemExample.DeleteCompleted | components/todo/TodoItem.example.tsx:73-75 | the uncompleted todos remain |
| TodoItemDemo.TodoItemExample.DeleteAll | components/todo/TodoItem.example.tsx:100-106 | the list becomes empty |
| TodoAnimationDemo.NewTodo | components/todo/TodoAnimation.example.tsx:35-46 | a new todo is uncompleted, with the given fields and a digit id |
| TodoAnimationDemo.MultipleId | components/todo/TodoAnimation.example.tsx:60-89 | the id `${Date.now()}-k` is the clock's digits, then `-`, then the digit `k` |
| TodoAnimationDemo.MultipleTodos | components/todo/TodoAnimation.example.tsx:60-89 | three uncompleted todos of high, medium and low priority |
| TodoAnimationDemo.MultipleIdsDistinct | components/todo/TodoAnimation.example.tsx:60-89 | the three ids (`time-1`, `time-2`, `time-3`) are distinct |
| TodoAnimationDemo.SingleAndMultipleIdsDiffer | components/todo/TodoAnimation.example.tsx:35-89 | a single add's id never equals one of the batch ids |
| TodoAnimationDemo.TodoAnimationExample.constructor | components/todo/TodoAnimation.example.tsx:16-33 | the screen starts with its two seed todos |
| TodoAnimationDemo.TodoAnimationExample.AddTodo | components/todo/TodoAnimation.example.tsx:35-46 | the new todo is prepended |
| TodoAnimationDemo.TodoAnimationExample.Toggle | components/todo/TodoAnimation.example.tsx:48-54 | the list is the toggled list |
| TodoAnimationDemo.TodoAnimationExample.Delete | components/todo/TodoAnimation.example.tsx:56-58 | the list loses the id |
| TodoAnimationDemo.TodoAnimationExample.AddMultiple | components/todo/TodoAnimation.example.tsx:60-89 | the three todos are prepended in order |
| TodoAnimationDemo.TodoAnimationExample.DeleteAll | components/todo/TodoAnimation.example.tsx:91-93 | the list becomes empty |

## Left out

- Browser I/O (`localStorage`, `FileReader`, `Blob`, object URLs, the download link, `console.error`) is modelled by its effect on data: storage is a map, and a file is its text or nothing.
- `crypto.randomUUID()`, `new Date()`, `Date.now()` and `Math.random()` are parameters of the operations that use them. Zod's UUID pattern is a predicate parameter (`isUuid`).
- `JSON.stringify`, `JSON.parse`, `Date#toISOString` and `new Date(text)` are runtime functions. Their round-trips are requirements of the lemmas that need them, not facts proved here.
- The `Promise` that `importTodos` returns is not modelled, nor the ordering of reader events. The outcome says which error would be rejected: `TodoStore.ImportErrorMessage` gives the message of the thrown `Error`, and `None` for a `SyntaxError`, whose message belongs to the runtime.
- The rejection branch for values that are not `Error` in `importTodos` cannot be reached: `JSON.parse` and the code both throw `Error`s.
- Invalid dates (`NaN` times) and floating-point numbers are not modelled. A stored `createdAt` number is taken as an integer millisecond count.
- TodoStore.LoadTodos: a stored array element that is not a todo record makes the model load the empty list. The source loads the list anyway: a `null` element makes `todo.createdAt` throw and loads the empty list, a number or boolean becomes `{ createdAt: Invalid Date }`, a string is spread into indexed characters beside an invalid date, and an object with, say, an unknown `priority` is kept with that field and a date read from its `createdAt`.
- React's dependency arrays compare by reference. The model compares by value, so the dialog's preset effect runs when the date's value changes.
- `handleShuffle` in `TodoLayout.example.tsx` (lines 113-122) permutes the list, and `handleAddRandom` in `TodoList.example.tsx` (lines 70-101) prepends one todo built from two `Date.now()` readings and one `new Date()`. Both are not modelled: their outcome (the permutation, the content and the priority) is chosen by `Math.random()`, and the model does not take those choices as parameters.
- JsText.Utf16Length: a Dafny `char` is a Unicode scalar value, so a JavaScript string holding a lone surrogate, which `.length` counts as one code unit, cannot be represented.
- The sample priority in `TodoItem.example.tsx` is a parameter.
- Timers, animations, confetti, the calendar, the statistics widget and the theme are presentation only.
- The runtime `dueDate` field is not modelled: it is not part of the declared `Todo` type. The code copies the `dueDate` passed to `addTodo` into the todo and saves, loads and exports it, the example screens build their todos with one, and the import schema strips it.
- The inputs' `maxLength` is enforced by the browser, not by this code.
- Storage write failures (quota errors that are caught and logged) are not modelled: a write always succeeds.
- Server-side rendering (the `typeof window` guards) is not modelled.
- Object keys shared with `Object.prototype` (such as `__proto__`) are not modelled. In the error dictionary they would read as present before any push.
- A patch with `updates.content` explicitly `undefined` would overwrite the field with `undefined` in the source. The model's patch fields are absent or present.
- Example ids built from `Date.now()` can collide within one millisecond. The model takes the readings as parameters and proves distinctness only where the code's own construction guarantees it: the batch ids, and a single id against a batch id.
