# Task list component, modelled in Dafny

This project models the state machine of the `TodoList` React component
(`src/components/TodoList.tsx`): an in-memory list of tasks, each with an id,
a title, a priority (High, Medium, Low) and a status (To Do, In Progress,
Done), plus the form state used to create and edit tasks.

The component's four state cells become the four fields of the class
`Todos.TodoList`:

- `todos`: the tasks, in insertion order;
- `newTodo`: the draft title;
- `newPriority`: the draft priority;
- `editingId`: `Null` when the form is closed, `Num(0)` in create mode, and
  `Num(n)` while task `n` is being edited (the source's `number | null`).

Every event handler is a method that updates these fields, and each states its
whole new state. The list computations inside the handlers (append, the
map-by-id of `updateStatus` and `saveEdit`, the filter-by-id of `deleteTodo`)
are pure functions with their own contracts: `Todos.WithStatus`,
`Todos.WithDraft` and `Todos.Without`. The class invariant `Valid()` has two
parts. First, task ids are pairwise distinct and never 0: the rows use the id
as their key, and 0 is the create-mode sentinel. Second, no stored title is
empty or white space only (`Todos.TitlesNonBlank`): a title enters the list
only through an add or a save, and both refuse a blank draft. Every method
keeps this invariant, given that each add uses a fresh non-zero id.

`JsString.Trim` models `String.prototype.trim` with ECMAScript's WhiteSpace
and LineTerminator code points. Its contract says the trimmed string is empty
exactly when the input is white space only. The lemma `JsString.TrimIsSlice`
shows that the result is a contiguous slice of the input.

Files:

- `js_string.dfy`: module `JsString`, the trim model;
- `todos.dfy`: module `Todos`, the data model, the list functions and their
  lemmas, the display mappings and the component class;
- `scenarios.dfy`: module `TodoScenarios`, interaction sequences proved from
  the handlers' contracts alone.

Behaviour that follows the code rather than the intent one might read into it:

- `addTodo` resets the draft but leaves `editingId` alone. After a successful
  add the form therefore stays open in create mode (see
  `TodoScenarios.AddFirstTask`).
- The create button only sets `editingId` to 0 and does not clear the draft.
  Pressed while a task is being edited, it leaves that task's title and
  priority in the draft.
- The stored title is the untrimmed draft. Trimming is used only to test for
  emptiness.
- `saveEdit` tests `editingId` for JavaScript truthiness (`Todos.Truthy`), so
  both `Null` and `Num(0)` count as "no edit in progress".
- The form mode is the source's nullable number with 0 as the create
  sentinel, not a three-way variant. The invariant that no task has id 0 is
  what keeps the two meanings of 0 apart.

`TodoList.FormShown` (the form is rendered exactly when `editingId` is not
`Null`) and `TodoList.SubmitAdds` (the submit button adds exactly in create
mode) are plain definitions of the conditions at lines 89 and 113.

## Model

| member | source | states |
|---|---|---|
| `JsString.Trim` | src/components/TodoList.tsx:19 | the trim used as the emptiness test: the result is empty exactly when every character of the input is ECMAScript white space, and otherwise it starts and ends with a non-white character |
| `JsString.TrimIsSlice` | src/components/TodoList.tsx:19 | the trimmed string is the slice of the input between a white-space-only prefix and a white-space-only suffix |
| `JsString.TrimStart` | src/components/TodoList.tsx:19 | the leading part of trim: the result is a suffix of the input, everything dropped is white space, and the result does not start with white space |
| `JsString.TrimEnd` | src/components/TodoList.tsx:19 | the trailing part of trim: the result is a prefix of the input, everything dropped is white space, and the result does not end with white space |
| `Todos.WithStatus` | src/components/TodoList.tsx:35-37 | same length and order; every id, title and priority kept; exactly the tasks with the given id get the new status; when no task has that id the list is identical |
| `Todos.Without` | src/components/TodoList.tsx:41 | a task is in the result exactly when it is in the list and has another id; the list is unchanged when the id is absent |
| `Todos.WithoutCounts` | src/components/TodoList.tsx:41 | exactly the tasks with the given id are removed: they lose every occurrence and every other task keeps its number of occurrences |
| `Todos.WithoutConcat` | src/components/TodoList.tsx:41 | removal distributes over concatenation, so the remaining tasks keep their original relative order |
| `Todos.WithoutIdempotent` | src/components/TodoList.tsx:40-42 | deleting an id twice gives the same list as deleting it once |
| `Todos.WithDraft` | src/components/TodoList.tsx:52-56 | same length and order; the task with the edited id takes the draft title and priority and keeps its id and status; every other task is unchanged; nothing changes when the id is absent |
| `Todos.WithDraftOwnValues` | src/components/TodoList.tsx:44-56 | with distinct ids, saving a task's own title and priority back into it gives the same list |
| `Todos.DistinctCons` | src/components/TodoList.tsx:132 | the ids of a list with a task in front are distinct exactly when the rest's are and the front id does not occur in the rest |
| `Todos.WithoutKeepsValidIds` | src/components/TodoList.tsx:41 | filtering by id keeps the ids pairwise distinct and non-zero |
| `Todos.SameIdsKeepValidIds` | src/components/TodoList.tsx:52-55 | a list with the same ids position by position as a valid list is valid; this covers both id-preserving maps |
| `Todos.AppendKeepsValidIds` | src/components/TodoList.tsx:20-28 | appending a task with a fresh non-zero id keeps the ids pairwise distinct and non-zero |
| `Todos.TitlesNonBlankMembers` | src/components/TodoList.tsx:19 | the recursive title invariant holds exactly when every task's trimmed title is non-empty, the test `addTodo` and `saveEdit` apply before storing a title |
| `Todos.ConsTitles` | src/components/TodoList.tsx:19 | a list with a task in front has non-blank titles exactly when that task's title is not white space only and the rest's titles are non-blank |
| `Todos.WithStatusKeepsTitles` | src/components/TodoList.tsx:35-37 | changing statuses keeps every title non-blank |
| `Todos.WithoutKeepsTitles` | src/components/TodoList.tsx:41 | filtering by id keeps every remaining title non-blank |
| `Todos.WithDraftKeepsTitles` | src/components/TodoList.tsx:51-56 | saving a draft that passes the trim test keeps every title non-blank |
| `Todos.AppendKeepsTitles` | src/components/TodoList.tsx:19-28 | appending a task whose title passes the trim test keeps every title non-blank |
| `Todos.AppendKeepsValid` | src/components/TodoList.tsx:19-28 | appending a task with a fresh non-zero id and a title that passes the trim test keeps both parts of the list invariant |
| `Todos.WithDraftKeepsValid` | src/components/TodoList.tsx:51-56 | saving a draft that passes the trim test keeps both parts of the list invariant |
| `Todos.PriorityClass` | src/components/TodoList.tsx:63-70 | every priority maps to one of the three style classes; the empty default is never produced |
| `Todos.PriorityClassInjective` | src/components/TodoList.tsx:63-70 | different priorities get different style classes |
| `Todos.PriorityLabel` | src/components/TodoList.tsx:137 | every priority maps to one of the three labels Tinggi, Sedang, Rendah |
| `Todos.PriorityLabelInjective` | src/components/TodoList.tsx:137 | different priorities get different labels |
| `Todos.TodoList.constructor` | src/components/TodoList.tsx:13-16 | the initial state: no tasks, empty draft title, priority Medium, form closed; the invariant holds (no tasks, so no ids and no titles) |
| `Todos.TodoList.AddTodo` | src/components/TodoList.tsx:18-32 | with a non-blank draft: exactly one task is appended at the end, with the given id, the untrimmed draft title, the draft priority and status To Do; earlier tasks unchanged; draft reset to "" and Medium; with a blank draft nothing changes; `editingId` is never touched; the invariant is kept, distinct non-zero ids and non-blank titles alike |
| `Todos.TodoList.UpdateStatus` | src/components/TodoList.tsx:34-38 | the list becomes `WithStatus` of the old list; draft and form untouched; the invariant is kept |
| `Todos.TodoList.DeleteTodo` | src/components/TodoList.tsx:40-42 | the list becomes `Without` of the old list; draft and form untouched; the invariant is kept |
| `Todos.TodoList.StartEditing` | src/components/TodoList.tsx:44-48 | edit mode for the task's id with the draft seeded from the task; the list untouched |
| `Todos.TodoList.SaveEdit` | src/components/TodoList.tsx:50-61 | when `editingId` is truthy and the draft is not blank: the list becomes `WithDraft` of the old list and the form closes with the draft reset; otherwise nothing changes; the invariant is kept, because a saved title always passes the trim test |
| `Todos.TodoList.OpenCreate` | src/components/TodoList.tsx:82 | create mode; list and draft untouched |
| `Todos.TodoList.Cancel` | src/components/TodoList.tsx:119-123 | form closed and draft reset to "" and Medium; list untouched |
| `Todos.TodoList.SetNewTodo` | src/components/TodoList.tsx:96 | only the draft title changes, to the given value |
| `Todos.TodoList.SetNewPriority` | src/components/TodoList.tsx:104 | only the draft priority changes, to the given value |
| `Todos.TodoList.Submit` | src/components/TodoList.tsx:113 | in create mode (`editingId` 0) the effect is exactly `AddTodo`'s, in every other mode exactly `SaveEdit`'s |
| `TodoScenarios.EditThenCancel` | src/components/TodoList.tsx:119-123 | starting an edit and cancelling leaves the list exactly as before, the form closed and the draft reset |
| `TodoScenarios.AddFirstTask` | src/components/TodoList.tsx:18-32 | from a fresh component, create "Buy milk" with priority Low: the list is exactly that one task with status To Do, and the form is still open in create mode |
| `TodoScenarios.AddBlankTitle` | src/components/TodoList.tsx:19 | submitting a title of three spaces in create mode leaves the list unchanged and the form open in create mode |
| `TodoScenarios.RenameOnlyTask` | src/components/TodoList.tsx:50-61 | editing the only task and saving a new title yields that task with the new title and its id, priority and status kept, and closes the form |
| `TodoScenarios.EditThenSaveUnchanged` | src/components/TodoList.tsx:50-61 | starting an edit of a listed task and submitting it unchanged leaves the list exactly as before and closes the form; the invariant makes the listed title pass the trim test, so the save goes through |
| `TodoScenarios.DeleteTwice` | src/components/TodoList.tsx:40-42 | two deletes of the same id leave the same list as one |

## Left out

- Rendering (lines 72-173 apart from the form condition at 89, the submit dispatch at 113 and the priority label at 137), Bootstrap classes other than the priority class, and the lucide icons: presentation only, through foreign libraries.
- React's `useState` scheduling and re-rendering: each handler is one atomic transition of the four fields. Within a handler the source reads the values from before the handler; the model reads each field before assigning it, which gives the same result.
- `Date.now()` at line 23 is a clock read. It becomes the `id` parameter of `AddTodo` and `Submit`.
- Todos.TodoList.AddTodo: requires the id to be non-zero and absent from the list. The source assumes this without checking it: it takes the id from `Date.now()`, the wall clock, which can step backwards and returns the same value for two adds in the same millisecond.
- Todos.TodoList.Submit: requires the same of `id` in create mode only, where it reaches `AddTodo`.
- JavaScript numbers are IEEE doubles; ids are unbounded integers here, and NaN, which is also falsy, is not an id.
- The unchecked casts of the select values at lines 104 and 145: the setters and `UpdateStatus` take already-typed values. This is why the empty default of the priority-class switch can never be produced.
- JavaScript strings are UTF-16 code units; here they are sequences of Unicode scalar values.
- The Indonesian display strings other than the priority labels (headings, placeholders, button captions, status option labels).
- Todos.TodoList.StartEditing: the source only calls it with a row of the list; the model accepts any task and does not require it to be in the list.
