# Task manager UI core, modelled in Dafny

This project models the logic of a browser task manager's three stateful or
computing widgets:

- the **drag-reorder engine** (`useDragAndDrop`): it remembers the card whose
  drag started and, on a drop, moves that card to the drop index in a copy of
  the list and reports the copy to the list's owner;
- the **task form** (`TodoForm`): a local draft of a task, reset to an empty
  template when the form closes, copied from the task being edited when it
  opens, validated (a title is required), turned into a complete task record
  on submit and dispatched as an add or update intent; it also starts and stops
  time-tracking sessions, appending finished entries to the draft;
- the **recurrence picker** (`RecurrencePicker`): a stateless view of a
  recurrence mode and an optional end date whose two handlers forward one new
  value and pass the other through.

Files, one module each:

- `wrappers.dfy` — `Option`, standing for both `null` and `undefined`.
- `todo_types.dfy` — `Priority`, `Recurrence`, `Status`, `Subtask`,
  `TimeEntry`, `Task`, and JavaScript truthiness of optional strings and numbers.
- `drag_and_drop.dfy` — the reorder specification (`Reorder`, built from
  `IndexOfKey`, `Remove`, `Insert` and `SpliceStart`), its lemmas, and the
  class `DragAndDropState` holding `draggedItem`.
- `recurrence_picker.dfy` — the option list, the view and the two handlers.
- `todo_form.dfy` — the `Draft` (a task with every field optional), the pure
  transitions (`BuildTask`, `Started`, `Stopped`, …) and their lemmas, and the
  class `TodoFormState` with the fields `task`, `errors`, `trackingMode` and
  `countdownDuration`.

Representation choices, where the source is inconsistent or leaves things open:

- A task's `recurrence` is the enumerated `Recurrence` (none, daily, weekly,
  monthly), not the loose `string` the task record declares.
- `sharedWith` is a sequence of strings, as the task record declares it; the
  separate `SharedWith` record is not used.
- A subtask has `id`, `title` and `completed`, the shape the task record holds;
  the standalone `Subtask` type's `createdAt` is dropped.
- `status` is `pending` or `completed`, as the task record types it; the
  `in-progress` value of the standalone status type is not used.
- The running session keeps the source's reserved id `"current"`
  (`ActiveSessionId`). `SessionsWellFormed` says that every stored entry has
  an end and the running session has none; a stored task's entries need not
  satisfy it (an entry's `end` is optional), and the model proves only that
  starting and stopping preserve it for a draft that already satisfies it.
- `null` and `undefined` are both `None`, so "substitute null for a missing
  `activeTracking`" is the identity in the model.
- Dates (`Time`) are opaque integers; ids, the current time, date parsing and
  date formatting are parameters.
- JavaScript's `||` defaults are modelled with its truthiness: an empty title,
  category or editing-task id counts as missing, and a countdown of `0` counts
  as no countdown.
- The drop index goes through JavaScript's `splice` clamping (`SpliceStart`),
  so `HandleDrop` needs no precondition; the list renderer only ever passes a
  valid card index, and the lemmas about a successful drop assume one.

Edge cases of the code that the model keeps:

- An edited task whose id is empty gets a fresh id on submit.
- A countdown of `0` gives elapsed mode and keeps no countdown.
- Opening the form, whether creating or editing, keeps the earlier errors;
  of the effect's branches only closing clears them (`SyncWithProps`), and
  `Validate` replaces them on every submit.

## Model

| member | source | states |
|---|---|---|
| DragAndDrop.IndexOfKey | src/hooks/useDragAndDrop.ts:21-23 | the result is -1 exactly when no item has the dragged key; otherwise the item at the result has the key and no earlier item has it |
| DragAndDrop.Remove | src/hooks/useDragAndDrop.ts:27 | removing one element shortens the list by one, keeps the elements before the index and shifts the later ones down by one |
| DragAndDrop.Insert | src/hooks/useDragAndDrop.ts:28 | inserting lengthens the list by one, puts the item at the index, keeps the earlier elements and shifts the later ones up by one |
| DragAndDrop.SpliceStart | src/hooks/useDragAndDrop.ts:28 | a splice start inside the list is used as given, past the end it becomes the length, a negative one counts from the end and is clamped at 0 |
| DragAndDrop.Reorder | src/hooks/useDragAndDrop.ts:21-28 | a drop emits nothing exactly when the dragged key is missing or already at the target; an emitted list has the input's length |
| DragAndDrop.ReorderPlacesDragged | src/hooks/useDragAndDrop.ts:27-28 | after a successful drop on a card index, the dragged item is at that index |
| DragAndDrop.ReorderKeepsOthers | src/hooks/useDragAndDrop.ts:27-28 | removing the dragged item from the emitted list gives the input without the item found by key, so the other items keep their relative order |
| DragAndDrop.ReorderShifts | src/hooks/useDragAndDrop.ts:27-28 | elements outside the span between old and new index stay put; inside it they shift one place towards the old index |
| DragAndDrop.ReorderPermutes | src/hooks/useDragAndDrop.ts:26-28 | when the recorded item is the list's item with that key, the emitted list is a permutation of the input |
| DragAndDrop.ReorderExample | src/hooks/useDragAndDrop.ts:26-28 | dropping A of [A, B, C] at index 2 gives [B, C, A] |
| DragAndDrop.DragAndDropState.constructor | src/hooks/useDragAndDrop.ts:7 | no item is recorded at first |
| DragAndDrop.DragAndDropState.HandleDragStart | src/hooks/useDragAndDrop.ts:9-11 | the started item becomes the recorded item and nothing else changes |
| DragAndDrop.DragAndDropState.HandleDragOver | src/hooks/useDragAndDrop.ts:13-15 | the recorded item is unchanged |
| DragAndDrop.DragAndDropState.HandleDrop | src/hooks/useDragAndDrop.ts:17-32 | with no recorded item nothing is emitted; otherwise the emitted value is `Reorder` of the list; the record is cleared exactly when a list is emitted; the input array is not modified |
| RecurrencePicker.RecurrenceOptions | src/components/todos/RecurrencePicker.tsx:13-18 | four options with pairwise different modes, the first being "does not repeat" |
| RecurrencePicker.OptionsCoverEveryMode | src/components/todos/RecurrencePicker.tsx:13-18 | every mode is selectable, and the modes come in the order none, daily, weekly, monthly |
| RecurrencePicker.View | src/components/todos/RecurrencePicker.tsx:25-46 | the end-date field is present exactly when the mode is not none, shows the formatted end date when one is set and is empty when there is none; the select shows the mode and the option list |
| RecurrencePicker.OnModeSelected | src/components/todos/RecurrencePicker.tsx:30 | a mode change reports the new mode and the existing end date unchanged |
| RecurrencePicker.OnEndDateInput | src/components/todos/RecurrencePicker.tsx:38-43 | a date change reports the existing mode and the parsed date, or no date when the input is cleared |
| RecurrencePicker.Applied | src/components/todos/TodoForm.tsx:273-277 | the caller stores a reported change as the picker's next mode and end date |
| RecurrencePicker.ReselectIsIdentity | src/components/todos/RecurrencePicker.tsx:30 | selecting the current mode leaves the caller's state as it was |
| RecurrencePicker.HiddenDateSurvives | src/components/todos/RecurrencePicker.tsx:30-33 | switching to none hides the date field but keeps the date, and switching back renders the same view as before |
| RecurrencePicker.ChangesCommute | src/components/todos/RecurrencePicker.tsx:30-43 | a mode change and a date change give the same state in either order |
| TodoForm.InferredCountdown | src/components/todos/TodoForm.tsx:75-77 | the kept countdown is present exactly when the edited task's session has a truthy countdown, and is that countdown |
| TodoForm.InferredMode | src/components/todos/TodoForm.tsx:70-74 | the mode is countdown exactly when a countdown is kept |
| TodoForm.ValidationErrors | src/components/todos/TodoForm.tsx:96-101 | no errors exactly when the title is present and non-empty; otherwise exactly the title error "Title is required" |
| TodoForm.EmptyDraft | src/components/todos/TodoForm.tsx:47-58 | the template has an empty title and description, the first default category, medium priority, no recurrence, pending status, empty subtask, entry and sharing lists, no session, and no identity, dates or notes |
| TodoForm.DraftOf | src/components/todos/TodoForm.tsx:66-69 | the draft holds every field of the edited task: the required ones set to the task's values, the optional ones as the task has them |
| TodoForm.BuildTask | src/components/todos/TodoForm.tsx:107-126 | `updatedAt` is now; createdAt and completed come from the edited task, or are now and false; the id is the edited task's when non-empty, otherwise the fresh id; an unset or empty category becomes the default, unset priority, recurrence and status become medium, none and pending, unset lists become empty; title (or ""), description, due date, notes, recurrence end date and session come from the draft |
| TodoForm.ResubmitIsStable | src/components/todos/TodoForm.tsx:65-126 | for any draft, opening the submitted task and submitting it again unchanged gives the same record with only `updatedAt` refreshed |
| TodoForm.SubmitIntent | src/components/todos/TodoForm.tsx:128-132 | the intent is an update exactly when a task is being edited, an add otherwise, carrying the built task |
| TodoForm.CloseEffects | src/components/todos/TodoForm.tsx:137-140 | closing yields exactly two effects: clearing the store's editing task, then the close request |
| TodoForm.Started | src/components/todos/TodoForm.tsx:142-150 | the session becomes a running entry with id "current", the given start and countdown, no end and no duration; the entries and every other field are unchanged |
| TodoForm.Stopped | src/components/todos/TodoForm.tsx:156-169 | without a session the draft is unchanged; otherwise exactly one entry is appended after the old ones, with the new entry id, the session's start, end now, the given duration and no countdown, and the session is cleared; no other field changes |
| TodoForm.StartThenStop | src/components/todos/TodoForm.tsx:142-171 | a session started at t0 and stopped at t1 appends exactly one entry from t0 to t1 and leaves no session |
| TodoForm.TrackingKeepsSessionsWellFormed | src/components/todos/TodoForm.tsx:142-171 | starting and stopping keep every finished entry finished and the session unfinished, so there is at most one running session |
| TodoForm.EditRoundTrip | src/components/todos/TodoForm.tsx:107-126 | opening a task and submitting it unchanged gives back that task with `updatedAt` refreshed and unset recurrence and lists filled with defaults |
| TodoForm.CreateFromTemplate | src/components/todos/TodoForm.tsx:107-126 | a title typed into the empty template validates and submits as a new task with every default |
| TodoForm.TemplateNeedsTitle | src/components/todos/TodoForm.tsx:96-101 | the empty template fails validation with the title error and has no running session |
| TodoForm.TodoFormState.constructor | src/components/todos/TodoForm.tsx:24-43 | the form starts with the empty template, no errors, elapsed mode and no countdown |
| TodoForm.TodoFormState.SyncWithProps | src/components/todos/TodoForm.tsx:45-94 | closing resets draft, mode, countdown and errors; opening on an edited task copies it and infers mode and countdown; opening to create resets the draft, mode and countdown; the opening branches keep the errors |
| TodoForm.TodoFormState.Validate | src/components/todos/TodoForm.tsx:96-101 | the errors become the draft's validation errors, and the result is true exactly when the title is present |
| TodoForm.TodoFormState.HandleSubmit | src/components/todos/TodoForm.tsx:103-135 | an invalid draft dispatches nothing; a valid one dispatches the add or update of the built task, then clears the editing task and asks to close |
| TodoForm.TodoFormState.HandleClose | src/components/todos/TodoForm.tsx:137-140 | the effects are `CloseEffects`: clearing the store's editing task first, then the close request |
| TodoForm.TodoFormState.HandleStartTracking | src/components/todos/TodoForm.tsx:142-154 | the draft gets the new session; the form's countdown changes only for a truthy argument |
| TodoForm.TodoFormState.HandleStopTracking | src/components/todos/TodoForm.tsx:156-172 | with no session nothing changes; otherwise the draft is `Stopped` and the countdown is cleared |

## Left out

- The JSX markup, styling and the imported UI components (`Modal`, `Input`,
  `Select`, `Button`); the view is modelled only for the recurrence picker.
- `TodoList.tsx`, the list renderer; its only bearing is that a drop index is
  always a card index.
- `ShareModal`, `SubtaskList`, `TimeTracker`, the store's reducer and
  `useTodos` are not part of this model. Dispatch is modelled as the returned
  effects. The elapsed duration is the stop handler's argument.
- The form's per-field input handlers (title, description, priority,
  category, due date, subtasks, sharing and the tracking-mode setter) and
  the share dialog's open flag: each is a plain field assignment in the
  markup. The form's recurrence callback is the exception: `Applied` models
  it as the caller storing a change as the picker's next inputs.
- Durations and countdowns are JavaScript numbers but are modelled as
  integers, so fractional values and `NaN` (which is falsy for the countdown
  checks) are not represented.
- Reading the clock, minting ids with `Date.now()`, and parsing and formatting
  dates: these depend on the clock and time zone, so they are parameters.
- React's effect scheduling and re-rendering, and `preventDefault`: they are
  platform behaviour. Each handler is one atomic step on the current state, so
  stale closures are not modelled.
- A recording of a session replaced by a second start: the source records
  nothing for it, and neither does the model.
- Items without an `id`: the drag engine finds items by a key function
  standing for the `id` field, so every item has one.
