# Task list state manager

A Dafny model of the to-do list component `App` (`src/app.tsx`). The
component keeps an ordered list of tasks (`id`, `nameTask`, `dateDue`,
`Status`), the text typed in the task-name field, the id of the task being
edited (or `null`), and a copy of the list in the browser's local storage
under the key `"taskData"`. Its event handlers add a task (rejecting a blank
name), remove one task by id, remove all tasks, enter edit mode on a task
and save the edit.

Layout:

- `wrappers.dfy` — `Option`, for `null` and for an absent storage key.
- `js_semantics.dfy` — module `JsSemantics`: `String.prototype.trim` over the
  ECMA-262 WhiteSpace and LineTerminator code points, and the truthiness of
  a `number | null`.
- `tasks.dfy` — module `Tasks`: the `Task` record and the pure list
  computations the handlers perform (`filter`, `find`, `map`), with lemmas
  about order, idempotence, commutation and provenance of ids and statuses.
- `app.dfy` — module `TaskApp`: class `App` whose fields are the component's
  state and whose methods are its handlers; each handler is one atomic
  transition on the state it was called in. The effect that rewrites the
  storage entry after the list changes is its own method, `PersistData`.
  The ghost field `store` stands for the `"taskData"` entry: `None` is an
  absent key, `Some(list)` the stored list.

Points where the code's behaviour is easy to misread:

- Adding a task does not write the storage itself; only the persist effect
  does. `AddTaskItem` leaves `store` alone and `PersistData` then brings it
  in line.
- Deleting all tasks removes the key. The persist effect that React runs
  afterwards writes `[]` again. Calling `PersistData` after `RemoveAllTasks`
  models that.
- Saving an edit is skipped not only when no edit is active but also when
  the task being edited has id 0 (see Findings).
- A stored value that is not valid JSON makes the initial load throw. It is
  not read as an empty list.

## Model

| member | source | states |
|---|---|---|
| `JsSemantics.IsWhitespace` | src/app.tsx:35 | the characters `trim` removes: the ECMA-262 WhiteSpace and LineTerminator code points (TAB, VT, FF, ZWNBSP, every "Zs" space separator, LF, CR, U+2028, U+2029); each lies in the Basic Multilingual Plane, so it is one UTF-16 unit |
| `JsSemantics.TrimStart` | src/app.tsx:35 | the result is the suffix of the input left after dropping its leading whitespace, and does not itself start with whitespace |
| `JsSemantics.TrimEnd` | src/app.tsx:35 | the result is the prefix of the input left after dropping its trailing whitespace, and does not itself end with whitespace |
| `JsSemantics.Trim` | src/app.tsx:35 | `input.trim()`: a contiguous slice of the input; everything cut before and after it is whitespace, and the slice neither starts nor ends with whitespace |
| `JsSemantics.IsBlank` | src/app.tsx:35 | `input.trim() === ''`: holds exactly when dropping the leading whitespace leaves nothing |
| `JsSemantics.Truthy` | src/app.tsx:75 | JavaScript truthiness of an id that is a number or `null` (`!editItemId` is its negation): an id is falsy exactly when it is null or 0; so it differs from the `!== null` test of line 129 only at 0 |
| `JsSemantics.BlankIffAllWhitespace` | src/app.tsx:35 | `input.trim() === ''` holds exactly when every character of the input is whitespace |
| `Tasks.RemoveById` | src/app.tsx:53 | a task is kept iff it was in the list and has a different id; no task with the id remains; the list is unchanged when no task had the id, strictly shorter when one did, and never longer |
| `Tasks.FindById` | src/app.tsx:64 | the lookup fails iff no task carries the id; when it succeeds it returns a task of the list that carries the id |
| `Tasks.FindByIdIsFirst` | src/app.tsx:64 | the lookup returns the first task in list order that carries the id |
| `Tasks.SaveEdits` | src/app.tsx:76-85 | length and order are kept; every task keeps its id and status; each task with the edited id gets the new name and due date; every other task is unchanged |
| `Tasks.RemoveByIdKeepsOrder` | src/app.tsx:53 | the filtered list is a subsequence of the original: survivors keep their relative order |
| `Tasks.RemoveByIdAppend` | src/app.tsx:53 | filtering a concatenation is the concatenation of the filtered parts |
| `Tasks.SaveEditsIdempotent` | src/app.tsx:76-85 | writing the same edit twice gives the same list as writing it once |
| `Tasks.SaveEditsNoMatch` | src/app.tsx:76-85 | writing an edit for an id no task carries leaves the list unchanged (a save after the edited task was deleted) |
| `Tasks.RemoveByIdAfterSaveEdits` | src/app.tsx:53-85 | filtering by id and writing back an edit commute; removing the edited id discards the edit |
| `Tasks.ListOperationsKeepIdsAndStatus` | src/app.tsx:53-85 | filtering and writing back an edit produce no task whose id and status pair was not already in the list |
| `Tasks.EditThenSaveKeepsNames` | src/app.tsx:63-91 | with unique ids, saving the name that edit mode loaded leaves every task's name as it was |
| `Tasks.DuplicateIdTakesFirstName` | src/app.tsx:64-85 | with two tasks sharing an id, saving the first one's loaded name renames the second one |
| `TaskApp.Load` | src/app.tsx:23 | the initial load of the stored entry: an absent key gives the empty list, a stored list is returned as it was stored |
| `TaskApp.App.constructor` | src/app.tsx:18-24 | an absent key gives the empty list, a stored list is loaded as is; empty input, no edit; reloading would show the same list |
| `TaskApp.App.PersistData` | src/app.tsx:26-28 | the store holds the current list; nothing else changes |
| `TaskApp.App.HandleChange` | src/app.tsx:30-32 | the input becomes the typed value; list, edit target and store are unchanged |
| `TaskApp.App.AddTaskItem` | src/app.tsx:34-44 | blank input: list and input unchanged; otherwise the list becomes the old list plus one task with the given id in [0, 10000), the untrimmed input as name, the formatted date and status "to do", and the input is cleared; edit target and store are untouched |
| `TaskApp.App.RemoveTask` | src/app.tsx:52-56 | the list becomes the filtered list, holds no task with the id, never grows, is unchanged if no task had the id; the store holds the new list; input and edit target unchanged |
| `TaskApp.App.RemoveAllTasks` | src/app.tsx:58-61 | the list is empty and the key is absent; input and edit target unchanged |
| `TaskApp.App.EditTask` | src/app.tsx:63-72 | list and store unchanged; if some task has the id, the edit target becomes the id and the input the name of the task `find` returns, which is the first task carrying the id; otherwise input and edit target are unchanged |
| `TaskApp.App.SaveEditedTask` | src/app.tsx:74-91 | edit target null or 0: nothing changes; otherwise the list becomes the edited list, the store holds it, the input is cleared and edit mode ends |
| `TaskApp.App.SaveEditedTaskIntended` | src/app.tsx:74-91 | the same save guarded by `editItemId !== null`: edit mode always ends, and any active edit is written and stored |
| `TaskApp.EditIdZeroThenSave` | src/app.tsx:63-91 | from a stored list with a task of id 0: editing it, typing a new name and saving leaves the list unchanged and stays in edit mode on id 0 |
| `TaskApp.EditIdZeroThenSaveIntended` | src/app.tsx:63-91 | the same steps under the intended guard write the new name into the task with id 0 and leave edit mode |
| `TaskApp.WalkThroughNames` | src/app.tsx:35 | "Buy milk" passes the blank check and two spaces do not |
| `TaskApp.AddBlankClearWalkThrough` | src/app.tsx:34-61 | from an empty store: adding a name gives a one-task list with status "to do"; adding a blank name changes nothing; deleting all gives the empty list and an absent key, and the persist effect that follows stores the empty list |

## Findings

| source | as written | input that shows it | evidently intended | confidence | as-written member | corrected member |
|---|---|---|---|---|---|---|
| src/app.tsx:75 | the save is skipped when `editItemId` is falsy, and the id 0 is falsy | a task with id 0, which the random draw at line 37 can produce. Its edit button sets `editItemId` to 0, the render at line 129 then offers "Salvar", and saving does nothing: the name is not written and edit mode never ends | skip only when `editItemId` is `null`, the test the render uses at line 129 | not executed; high | `TaskApp.EditIdZeroThenSave` | `TaskApp.App.SaveEditedTaskIntended` |

## Left out

- Rendering (src/app.tsx:93-200): the table, the buttons, the date picker and the styling are UI only.
- The `date` state, `format` from date-fns and `new Date(...)` (lines 17, 20, 48, 67, 89): the formatted due date is a string parameter of `AddTaskItem` and `SaveEditedTask`. `EditTask` does not reload the picked date from the task's `dateDue`.
- `handleSubmit` (lines 46-50): it sets the date to now and calls `addTaskItem`. It is modelled as `AddTaskItem` with the formatted date of the current render.
- `Math.random` (line 37): the new id is a parameter constrained to [0, 10000). Ids are not unique in the code and the model does not assume they are. Deleting a task and then adding one may therefore reuse the deleted id.
- JSON encoding and the local-storage calls (lines 22-23, 27, 55, 60, 87): the stored entry is the ghost value `store`. A failed parse is not modelled. An empty stored string, which the load would treat as no tasks, cannot arise from what the component writes.
- React's batching of state updates and the timing of effects: each handler is one atomic step on the state it was called in. The persist effect is the separate `PersistData`.
- `console.error` when the edit target is missing (line 70): a diagnostic only.
- Ids are integers. The `NaN` case of JavaScript truthiness does not arise. JavaScript strings are UTF-16 while a Dafny `char` is a Unicode scalar value; every code point that `trim` removes is a single UTF-16 unit, so the blank check agrees.
