# todonotes in Dafny

A model of the core of *todonotes*, a small client-side web framework and
the demo apps built on it:

- the persisted observable store `State` (todo-notes-app/framework/core/state.js):
  one key of browser storage, a whole-value `setState` that persists the new
  value and calls every subscribed listener with it, and a constructor that
  restores the stored value when it is truthy;
- the freehand drawing session and notes list of the notes page, in its three
  lineages (todo-notes-app, my-todo-notes-app, mytodonotes): pointer capture
  (`startDrawing`/`draw`/`stopDrawing`, Idle → Capturing → Idle), undo and redo
  as moves between the committed-stroke stack and the redo stack, the Clear
  action, and saving, deleting and (in one lineage) editing notes;
- the to-do page (my-todo-notes-app): add, toggle, delete-by-text, and the
  ten-item page with its wrapping `startIndex`;
- the router of framework/core/router.js: trailing-slash normalisation, lookup
  with the `/404` fallback, the no-view error branch, and `navigate`.

Modules, one per source file plus shared definitions:

| file | module | models |
|---|---|---|
| options.dfy | `Options` | `Option`, for missing fields and failed lookups |
| state_store.dfy | `StateStore` | todo-notes-app/framework/core/state.js, and browser storage as class `Storage` |
| sketch.dfy | `Sketch` | the notes store record `{notes, currentPaths, redoStack}`, points, strokes, notes, and the stack moves and list edits the three notes pages share |
| todo_notes_app_notes.dfy | `TodoNotesAppNotes` | todo-notes-app/mytodonotes/pages/notes.js |
| my_todo_notes_app_notes.dfy | `MyTodoNotesAppNotes` | my-todo-notes-app/mytodonotes/pages/notes.js |
| mytodonotes_notes.dfy | `MyTodoNotesNotes` | mytodonotes/pages/notes.js |
| my_todo_notes_app_todos.dfy | `MyTodoNotesAppTodos` | my-todo-notes-app/mytodonotes/pages/todos.js |
| path_router.dfy | `PathRouter` | framework/core/router.js |

Each notes page is a class `NotesPage` whose fields are the page module's
variables (`isDrawing`, `currentPath`, and the current tool, color and line
width where the lineage has them) and whose `store` is the page's
`notesState`; each event handler is one method. Every handler that writes the
store is specified by `State.Wrote(v)`: the store now holds `v`, storage
holds `v` under the store's key and is otherwise unchanged, the listeners are
unchanged, and the notification log has grown by one call per listener, in
subscription order, each with `v`. Handlers that return before `setState`
leave store and storage `unchanged`, and so notify nobody.

The lineages differ exactly where the source does:

- todo-notes-app: styled points; a saved note goes first; the save guard reads
  the capture buffer `currentPath`, which neither Undo nor Clear empties, so
  after any stroke an empty note is saved (`StaleGuardScenario`); reading
  `state.notes` when the stored record has no `notes` field throws a
  `TypeError` (`Outcome.ThrewTypeError`) before anything is written; `editNote`
  hands an existing note to the editor and removes it.
- my-todo-notes-app: styled points; a saved note goes last; the guard reads the
  `drawing` argument; a missing `notes` field reads as empty. The save button
  always passes `canvas.toDataURL()`, which is never empty, so every click
  saves a note (`SaveClicked`).
- mytodonotes: bare `{x, y}` points, no tool selection; otherwise as
  my-todo-notes-app.

## Behaviour worth knowing

- `startDrawing` while capturing discards the capture in progress and starts
  a new one with one point.
- In both styled lineages the color picker sets the color while the eraser is
  selected too.
- `new State` falls back to the initial state only for a missing key or a
  falsy stored value; a stored text that `JSON.parse` rejects makes it throw.
- Notes are deleted by index, to-dos by text: the delete button removes every
  to-do with the clicked item's text, duplicates included.
- In my-todo-notes-app and mytodonotes every click of the save button adds a
  note, even with an empty title, content and canvas.
- Listeners are kept in a JavaScript `Set`: each is called once per
  `setState`, in insertion order, and none can be removed.

## Model

| member | source | states |
|---|---|---|
| StateStore.State.constructor | todo-notes-app/framework/core/state.js:2-6 | the state is the stored value for the key when present and truthy, otherwise the initial state; no listeners, nothing notified |
| StateStore.State.Subscribe | todo-notes-app/framework/core/state.js:8-10 | the listener is registered (once, keeping insertion order) and not called; state and log unchanged; the listeners stay duplicate-free |
| StateStore.Restored | todo-notes-app/framework/core/state.js:4 | the stored value for the key when it is present and truthy; otherwise the initial state |
| StateStore.State.GetState | todo-notes-app/framework/core/state.js:18-20 | returns the current state field, the one `setState` replaced last |
| StateStore.WithListener | todo-notes-app/framework/core/state.js:8-10 | after adding, the listener is registered, exactly the old listeners and it are registered, earlier ones keep their order, and no listener appears twice |
| StateStore.WithListenerIdempotent | todo-notes-app/framework/core/state.js:8-10 | subscribing the same listener twice registers it once |
| StateStore.Storage.SetItem | todo-notes-app/framework/core/state.js:14 | storage maps the key to the value; every other key is unchanged |
| StateStore.State.SetState | todo-notes-app/framework/core/state.js:12-16 | whole replacement (`GetState()` is exactly the new value), written under the store's key only, and every registered listener called exactly once with the new value, in registration order |
| StateStore.Fanout | todo-notes-app/framework/core/state.js:15 | the i-th call goes to the i-th listener in registration order and carries the new state |
| StateStore.FanoutCallsEachListenerOnce | todo-notes-app/framework/core/state.js:15 | with a duplicate-free listener list, each registered listener gets exactly one call and any other gets none |
| StateStore.WriteThenReopen | todo-notes-app/framework/core/state.js:4-14 | after `setState(s)` with `s` truthy, a new store on the same key starts from `s`, not from its own default |
| Sketch.Committed | todo-notes-app/mytodonotes/pages/notes.js:60-67 | the finished stroke becomes the new last committed stroke, earlier ones unchanged; redo stack and notes untouched |
| Sketch.Undone | todo-notes-app/mytodonotes/pages/notes.js:93-102 | the last committed stroke is now the top of the redo stack, the rest of both stacks unchanged, the total stroke count kept, notes untouched |
| Sketch.Redone | todo-notes-app/mytodonotes/pages/notes.js:104-113 | the top of the redo stack is now the last committed stroke, the rest of both stacks unchanged, the total stroke count kept, notes untouched |
| Sketch.UndoThenRedo | todo-notes-app/mytodonotes/pages/notes.js:93-113 | undo then redo restores both stroke stacks exactly, and the notes |
| Sketch.RedoThenUndo | todo-notes-app/mytodonotes/pages/notes.js:93-113 | redo then undo restores both stroke stacks exactly, and the notes |
| Sketch.UndoRedoKeepStrokes | todo-notes-app/mytodonotes/pages/notes.js:93-113 | undo and redo keep the multiset of all strokes over both stacks: none lost or duplicated |
| Sketch.Cleared | todo-notes-app/mytodonotes/pages/notes.js:348-355 | both stroke stacks empty, notes untouched |
| Sketch.NoteSavedFirst | todo-notes-app/mytodonotes/pages/notes.js:146-151 | the new note is first, the old notes follow in order, both stroke stacks empty |
| Sketch.NoteSavedLast | my-todo-notes-app/mytodonotes/pages/notes.js:137-139 | the old notes keep their places, the new note follows them, both stroke stacks empty |
| Sketch.RemoveAt | todo-notes-app/mytodonotes/pages/notes.js:162 | an index in range removes exactly that element, the others in order; any other index leaves the list unchanged |
| Sketch.NoteDeleted | todo-notes-app/mytodonotes/pages/notes.js:162-163 | the notes list becomes the old list (empty if missing) without the element at the index; both stroke stacks are kept |
| Sketch.RemoveAtKeepsOthers | todo-notes-app/mytodonotes/pages/notes.js:162 | every other element survives, at its old position or one earlier |
| Sketch.PngDataUrl | my-todo-notes-app/mytodonotes/pages/notes.js:193 | the canvas data URL is never empty, hence truthy |
| TodoNotesAppNotes.NotesPage.constructor | todo-notes-app/mytodonotes/pages/notes.js:5-13 | store on key "notes" seeded with empty lists unless storage holds a record; idle, empty capture, pen #000000 width 2 |
| TodoNotesAppNotes.NotesPage.StartDrawing | todo-notes-app/mytodonotes/pages/notes.js:34-38 | capturing, and the capture is exactly one point tagged with the current color, width and tool, whatever was being captured |
| TodoNotesAppNotes.NotesPage.Draw | todo-notes-app/mytodonotes/pages/notes.js:48-52 | no change when idle; otherwise exactly one point with the current style appended |
| TodoNotesAppNotes.NotesPage.StopDrawing | todo-notes-app/mytodonotes/pages/notes.js:60-67 | while capturing, the capture is committed as the last stroke (redo stack and notes kept) and listeners notified; idle afterwards; no-op when idle |
| TodoNotesAppNotes.NotesPage.UndoLastStroke | todo-notes-app/mytodonotes/pages/notes.js:93-102 | moves the last committed stroke to the redo stack; nothing written or notified when there is none |
| TodoNotesAppNotes.NotesPage.RedoLastStroke | todo-notes-app/mytodonotes/pages/notes.js:104-113 | moves the top of the redo stack back; nothing written or notified when it is empty |
| TodoNotesAppNotes.NotesPage.SaveNote | todo-notes-app/mytodonotes/pages/notes.js:134-151 | no-op when title, content and capture buffer are all empty; a TypeError and no write when `notes` is missing; otherwise the note (with the snapshot only if something was captured) goes first and both stacks are emptied |
| TodoNotesAppNotes.NotesPage.DeleteNote | todo-notes-app/mytodonotes/pages/notes.js:160-164 | removes only note `index` (an index out of range writes the list unchanged); a TypeError and no write when `notes` is missing |
| TodoNotesAppNotes.NotesPage.EditNote | todo-notes-app/mytodonotes/pages/notes.js:202-224 | an existing note is handed to the editor and removed, the rest kept in order; an index out of range changes nothing; a TypeError when `notes` is missing |
| TodoNotesAppNotes.NotesPage.PenSelected | todo-notes-app/mytodonotes/pages/notes.js:279-283 | pen, #000000, width 2; the capture untouched |
| TodoNotesAppNotes.NotesPage.EraserSelected | todo-notes-app/mytodonotes/pages/notes.js:288-292 | eraser, #ffffff, width 10; the capture untouched |
| TodoNotesAppNotes.NotesPage.ColorPicked | todo-notes-app/mytodonotes/pages/notes.js:309 | only the color changes, also while erasing |
| TodoNotesAppNotes.NotesPage.ClearClicked | todo-notes-app/mytodonotes/pages/notes.js:348-355 | both stroke stacks emptied, notes kept, listeners notified; the capture buffer is not touched |
| TodoNotesAppNotes.CommitScenario | todo-notes-app/mytodonotes/pages/notes.js:34-67 | pen strokes through (10,10), (20,10), (20,20) commit one stroke of exactly those three styled points, with nothing to redo |
| TodoNotesAppNotes.UndoScenario | todo-notes-app/mytodonotes/pages/notes.js:93-102 | undoing the only stroke leaves no committed stroke and that stroke alone on the redo stack |
| TodoNotesAppNotes.StaleGuardScenario | todo-notes-app/mytodonotes/pages/notes.js:134-137 | after a stroke and Clear, saving an empty title and content still saves a note with a drawing |
| MyTodoNotesAppNotes.NotesPage.constructor | my-todo-notes-app/mytodonotes/pages/notes.js:5-13 | store on key "notes" seeded with empty lists unless storage holds a record; idle, empty capture, pen #000000 width 2 |
| MyTodoNotesAppNotes.NotesPage.StartDrawing | my-todo-notes-app/mytodonotes/pages/notes.js:34-38 | capturing, and the capture is exactly one styled point |
| MyTodoNotesAppNotes.NotesPage.Draw | my-todo-notes-app/mytodonotes/pages/notes.js:48-52 | no change when idle; otherwise exactly one styled point appended |
| MyTodoNotesAppNotes.NotesPage.StopDrawing | my-todo-notes-app/mytodonotes/pages/notes.js:60-67 | commits the capture as the last stroke without touching the redo stack; no-op when idle |
| MyTodoNotesAppNotes.NotesPage.UndoLastStroke | my-todo-notes-app/mytodonotes/pages/notes.js:93-102 | moves the last committed stroke to the redo stack; nothing happens when there is none |
| MyTodoNotesAppNotes.NotesPage.RedoLastStroke | my-todo-notes-app/mytodonotes/pages/notes.js:104-113 | moves the top of the redo stack back; nothing happens when it is empty |
| MyTodoNotesAppNotes.NotesPage.SaveNote | my-todo-notes-app/mytodonotes/pages/notes.js:134-140 | no-op only when title, content and drawing are all empty; otherwise the note follows all existing notes (a missing list read as empty) and both stacks are emptied |
| MyTodoNotesAppNotes.NotesPage.SaveClicked | my-todo-notes-app/mytodonotes/pages/notes.js:192-198 | every click appends a note carrying the canvas data URL |
| MyTodoNotesAppNotes.NotesPage.DeleteNote | my-todo-notes-app/mytodonotes/pages/notes.js:143-147 | removes only note `index`, the others in order; a missing list is read as empty |
| MyTodoNotesAppNotes.NotesPage.PenSelected | my-todo-notes-app/mytodonotes/pages/notes.js:162-167 | pen, #000000, width 2 |
| MyTodoNotesAppNotes.NotesPage.EraserSelected | my-todo-notes-app/mytodonotes/pages/notes.js:171-176 | eraser, #ffffff, width 10 |
| MyTodoNotesAppNotes.NotesPage.ColorPicked | my-todo-notes-app/mytodonotes/pages/notes.js:182-186 | only the color changes |
| MyTodoNotesAppNotes.NotesPage.ClearClicked | my-todo-notes-app/mytodonotes/pages/notes.js:202-205 | both stroke stacks emptied, notes kept |
| MyTodoNotesAppNotes.DeleteFromMissingNotes | my-todo-notes-app/mytodonotes/pages/notes.js:143-147 | deleting from a record with no `notes` field leaves an empty list |
| MyTodoNotesNotes.NotesPage.constructor | mytodonotes/pages/notes.js:6-11 | store on key "notes" seeded with empty lists unless storage holds a record; idle, empty capture |
| MyTodoNotesNotes.NotesPage.StartDrawing | mytodonotes/pages/notes.js:32-36 | capturing, and the capture is exactly one bare point |
| MyTodoNotesNotes.NotesPage.Draw | mytodonotes/pages/notes.js:44-48 | no change when idle; otherwise exactly one point appended |
| MyTodoNotesNotes.NotesPage.StopDrawing | mytodonotes/pages/notes.js:54-62 | commits the capture as the last stroke without touching the redo stack; no-op when idle |
| MyTodoNotesNotes.NotesPage.UndoLastStroke | mytodonotes/pages/notes.js:87-96 | moves the last committed stroke to the redo stack; no-op when there is none |
| MyTodoNotesNotes.NotesPage.RedoLastStroke | mytodonotes/pages/notes.js:98-107 | moves the top of the redo stack back; no-op when it is empty |
| MyTodoNotesNotes.NotesPage.SaveNote | mytodonotes/pages/notes.js:126-132 | no-op only when title, content and drawing are all empty; otherwise the note goes last and both stacks are emptied |
| MyTodoNotesNotes.NotesPage.SaveClicked | mytodonotes/pages/notes.js:151-157 | every click appends a note carrying the canvas data URL |
| MyTodoNotesNotes.NotesPage.DeleteNote | mytodonotes/pages/notes.js:135-139 | removes only note `index`, the others in order |
| MyTodoNotesNotes.NotesPage.ClearClicked | mytodonotes/pages/notes.js:161-164 | both stroke stacks emptied, notes kept |
| MyTodoNotesNotes.UndoRedoScenario | mytodonotes/pages/notes.js:87-107 | undo then redo through the page restores both stroke stacks |
| MyTodoNotesAppTodos.WithTodo | my-todo-notes-app/mytodonotes/pages/todos.js:8-11 | one more item, `{text, completed: false}`, after all earlier items, which are unchanged |
| MyTodoNotesAppTodos.Toggled | my-todo-notes-app/mytodonotes/pages/todos.js:14-19 | same length; item `index` has its flag flipped and its text kept; every other item unchanged; an index out of range changes nothing |
| MyTodoNotesAppTodos.ToggledTwice | my-todo-notes-app/mytodonotes/pages/todos.js:14-19 | toggling the same index twice restores the list |
| MyTodoNotesAppTodos.WithoutText | my-todo-notes-app/mytodonotes/pages/todos.js:29-34 | no remaining item has the deleted text; every item with another text remains |
| MyTodoNotesAppTodos.WithoutTextKeepsCounts | my-todo-notes-app/mytodonotes/pages/todos.js:29-34 | an item with another text remains as many times as it occurred |
| MyTodoNotesAppTodos.WithoutTextKeepsOrder | my-todo-notes-app/mytodonotes/pages/todos.js:29-34 | deleting distributes over concatenation, so the survivors keep their order |
| MyTodoNotesAppTodos.SliceBound | my-todo-notes-app/mytodonotes/pages/todos.js:61 | a slice bound lies within the list, and a non-negative one is clamped to its length |
| MyTodoNotesAppTodos.VisibleRows | my-todo-notes-app/mytodonotes/pages/todos.js:61-66 | at most 10 rows; row k shows item `start + k` and toggles absolute index `start + k`; exactly the items from `start` up to ten or the end |
| MyTodoNotesAppTodos.TodoPage.constructor | my-todo-notes-app/mytodonotes/pages/todos.js:54-55 | the page starts at item 0 |
| MyTodoNotesAppTodos.TodoPage.AddTodo | my-todo-notes-app/mytodonotes/pages/todos.js:8-11 | writes the list with the new item appended |
| MyTodoNotesAppTodos.TodoPage.ToggleTodo | my-todo-notes-app/mytodonotes/pages/todos.js:14-19 | writes the list with item `index` toggled |
| MyTodoNotesAppTodos.TodoPage.AddClicked | my-todo-notes-app/mytodonotes/pages/todos.js:45-50 | a non-empty input is appended; an empty one writes nothing |
| MyTodoNotesAppTodos.TodoPage.RowToggled | my-todo-notes-app/mytodonotes/pages/todos.js:65 | a row's toggle flips item `startIndex + row` |
| MyTodoNotesAppTodos.TodoPage.DeleteClicked | my-todo-notes-app/mytodonotes/pages/todos.js:28-35 | writes the list without every item carrying the row's text |
| MyTodoNotesAppTodos.TodoPage.LoadMore | my-todo-notes-app/mytodonotes/pages/todos.js:77-84 | `startIndex` advances by 10, or goes back to 0 once it reaches or passes the length; afterwards it is 0 or inside the list, and stays a non-negative multiple of 10 |
| MyTodoNotesAppTodos.ToggleScenario | my-todo-notes-app/mytodonotes/pages/todos.js:14-19 | toggling row 1 of three flips only that item's flag |
| PathRouter.Normalize | framework/core/router.js:15-18 | the result is the path or the path minus one final "/", and is the path itself exactly when the path is "/" or does not end in "/" |
| PathRouter.NormalizeStripsOneSlash | framework/core/router.js:16-18 | "a//" becomes "a/", "/" stays "/", "/notes/" becomes "/notes" |
| PathRouter.Lookup | framework/core/router.js:19 | the entry for the path when it is present and truthy; otherwise the `/404` entry when present; otherwise nothing |
| PathRouter.SelectView | framework/core/router.js:19-20 | the route's view when it is a function; the `/404` view when the route is missing or falsy; nothing when a truthy non-function hides the fallback or `/404` is no function |
| PathRouter.Router.constructor | framework/core/router.js:3-6 | the route table and the current location; empty history, #app and error output |
| PathRouter.Router.LoadRoute | framework/core/router.js:13-25 | with no view for the normalised path: an error naming it and #app untouched; otherwise #app holds exactly the view's output |
| PathRouter.Router.Navigate | framework/core/router.js:8-11 | the path is pushed on the history and becomes the location before the route for its normalised form is loaded |
| PathRouter.NavigateScenario | framework/core/router.js:8-25 | "/notes/" mounts the "/notes" view; an unknown path mounts the `/404` view |

## Left out

- Canvas painting: the `ctx` calls, `redrawCanvas`, `clearRect`, and the image loading in `editNote`. These are browser drawing APIs; the model keeps only the stroke sequences the canvas is painted from.
- `getPoint` and `handleTouch`: the mapping from client coordinates to canvas coordinates uses the element's floating-point bounding rectangle. Handlers take the mapped coordinates as integers.
- `new Date().toLocaleString()` is an opaque `now` parameter. The canvas image is an opaque `snapshot` string (todo-notes-app), or a PNG data URL around an opaque encoding (the other two lineages).
- `localStorage` and JSON: storage is a map from keys to values, and serialisation is taken to round-trip. A `Storage` holds values of one type, so different stores do not share one storage object. A stored text that `JSON.parse` rejects would make the `State` constructor throw; that is not modelled. Nor is a `setItem` that throws (quota exceeded, storage disabled): `setState` has then already replaced the state, and no listener is called.
- PathRouter.Router.Navigate: the URL resolution `history.pushState` performs (relative paths, a `?query`, a `#fragment`) is not modelled. The argument is taken to be an absolute path with no `?` or `#`, which is what the callers pass.
- Listeners are identifiers. What a listener does when called (re-rendering a list) is not modelled. A listener that subscribes or writes during the fan-out is not modelled either.
- Clearing the title and content inputs after a save, and all page markup: `renderNotes`, `renderTodos`, `NoteCard`, `TodoItem`'s elements, the fullscreen overlay. Each `renderNotes`/`renderTodos` call also subscribes a new render callback with `State.Subscribe`; that call is not modelled separately.
- The `popstate` listener registered by the `Router` constructor (going back in history reloads the route) is not modelled. Neither is a route table key inherited from `Object.prototype`. The model also takes it that the #app element exists.
- todo-notes-app/framework/core/dom.js and todo-notes-app/framework/core/router.js, the app.js route tables, home.js, 404.js and mytodonotes/server.go are not part of this model.
