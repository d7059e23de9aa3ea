/** The notes page of todo-notes-app (todo-notes-app/mytodonotes/pages/notes.js):
    styled points, new notes first, the save guard reads the capture
    buffer, and notes can be taken back into the editor.

    The module-level variables of the page (`isDrawing`, `currentPath`,
    `currentTool`, `currentColor`, `currentLineWidth`) are the fields of
    `NotesPage`; `notesState` is its store. One method per handler. Canvas
    painting is not modelled. */
module TodoNotesAppNotes {

  import opened Options
  import opened Sketch
  import opened StateStore

  /** Whether a handler returned normally or threw a `TypeError` (reading
      `state.notes` when the stored record has no `notes` field). */
  datatype Outcome = Returned | ThrewTypeError

  class NotesPage {
    const store: State<NotesState<StyledPoint>>
    var isDrawing: bool
    var currentPath: Stroke<StyledPoint>
    var currentTool: Tool
    var currentColor: string
    var currentLineWidth: int

    /** The point captured at (x, y) with the current style. */
    function Stamp(x: int, y: int): StyledPoint
      reads this
    {
      StyledPoint(x, y, currentColor, currentLineWidth, currentTool)
    }

    twostate predicate StyleUnchanged()
      reads this
    {
      currentTool == old(currentTool) && currentColor == old(currentColor) && currentLineWidth == old(currentLineWidth)
    }

    /** Loading the module: the store under key "notes" and the default pen. */
    constructor (storage: Storage<NotesState<StyledPoint>>)
      ensures fresh(store) && store.storage == storage && store.key == "notes"
      ensures store.state == if "notes" in storage.items then storage.items["notes"] else EmptyNotesState()
      ensures store.listeners == [] && store.notified == [] && store.Valid()
      ensures !isDrawing && currentPath == []
      ensures currentTool == Pen && currentColor == "#000000" && currentLineWidth == 2
    {
      store := new State(storage, "notes", EmptyNotesState(), (s: NotesState<StyledPoint>) => true);
      isDrawing := false;
      currentPath := [];
      currentTool := Pen;
      currentColor := "#000000";
      currentLineWidth := 2;
    }

    /** Pointer down: a new capture of exactly one point, whatever was being captured. */
    method StartDrawing(x: int, y: int)
      modifies this
      ensures isDrawing && currentPath == [old(Stamp(x, y))]
      ensures StyleUnchanged()
    {
      isDrawing := true;
      currentPath := [];
      currentPath := currentPath + [Stamp(x, y)];
    }

    /** Pointer move: one more point while capturing, nothing otherwise. */
    method Draw(x: int, y: int)
      modifies this
      ensures isDrawing == old(isDrawing) && StyleUnchanged()
      ensures currentPath == if old(isDrawing) then old(currentPath) + [old(Stamp(x, y))] else old(currentPath)
    {
      if !isDrawing {
        return;
      }
      currentPath := currentPath + [Stamp(x, y)];
    }

    /** Pointer up or out: commits a copy of the capture; the redo stack is kept. */
    method StopDrawing()
      modifies this, store, store.storage
      ensures !isDrawing && currentPath == old(currentPath) && StyleUnchanged()
      ensures old(isDrawing) ==> store.Wrote(Committed(old(store.state), old(currentPath)))
      ensures !old(isDrawing) ==> unchanged(store, store.storage)
    {
      if isDrawing {
        var state := store.GetState();
        store.SetState(Committed(state, currentPath));
        isDrawing := false;
      }
    }

    method UndoLastStroke()
      modifies store, store.storage
      ensures Paths(old(store.state)) != [] ==> store.Wrote(Undone(old(store.state)))
      ensures Paths(old(store.state)) == [] ==> unchanged(store, store.storage)
    {
      var state := store.GetState();
      if |Paths(state)| > 0 {
        store.SetState(Undone(state));
      }
    }

    method RedoLastStroke()
      modifies store, store.storage
      ensures Redos(old(store.state)) != [] ==> store.Wrote(Redone(old(store.state)))
      ensures Redos(old(store.state)) == [] ==> unchanged(store, store.storage)
    {
      var state := store.GetState();
      if |Redos(state)| > 0 {
        store.SetState(Redone(state));
      }
    }

    /** Save button. `snapshot` is the canvas image, used only when something
        was captured; `now` is the date text. The guard reads the capture
        buffer, which neither Undo nor Clear empties. */
    method SaveNote(title: string, content: string, snapshot: string, now: string) returns (outcome: Outcome)
      modifies store, store.storage
      ensures title == "" && content == "" && currentPath == [] ==>
        outcome == Returned && unchanged(store, store.storage)
      ensures !(title == "" && content == "" && currentPath == []) && old(store.state.notes).None? ==>
        outcome == ThrewTypeError && unchanged(store, store.storage)
      ensures !(title == "" && content == "" && currentPath == []) && old(store.state.notes).Some? ==>
        outcome == Returned &&
        store.Wrote(NoteSavedFirst(old(store.state),
          Note(title, content, if currentPath == [] then None else Some(snapshot), now)))
    {
      if title == "" && content == "" && |currentPath| == 0 {
        return Returned;
      }
      var drawing := if |currentPath| > 0 then Some(snapshot) else None;
      var state := store.GetState();
      if state.notes.None? {
        return ThrewTypeError;
      }
      store.SetState(NoteSavedFirst(state, Note(title, content, drawing, now)));
      outcome := Returned;
    }

    /** Delete button of the note at `index`; an index out of range still writes the unchanged list. */
    method DeleteNote(index: int) returns (outcome: Outcome)
      modifies store, store.storage
      ensures old(store.state.notes).None? ==> outcome == ThrewTypeError && unchanged(store, store.storage)
      ensures old(store.state.notes).Some? ==> outcome == Returned && store.Wrote(NoteDeleted(old(store.state), index))
    {
      var state := store.GetState();
      if state.notes.None? {
        return ThrewTypeError;
      }
      store.SetState(NoteDeleted(state, index));
      outcome := Returned;
    }

    /** Edit button: an existing note is handed to the editor (`loaded`) and removed from the list. */
    method EditNote(index: int) returns (outcome: Outcome, loaded: Option<Note>)
      modifies store, store.storage
      ensures old(store.state.notes).None? ==>
        outcome == ThrewTypeError && loaded == None && unchanged(store, store.storage)
      ensures old(store.state.notes).Some? && 0 <= index < |Notes(old(store.state))| ==>
        outcome == Returned && loaded == Some(Notes(old(store.state))[index]) &&
        store.Wrote(NoteDeleted(old(store.state), index))
      ensures old(store.state.notes).Some? && !(0 <= index < |Notes(old(store.state))|) ==>
        outcome == Returned && loaded == None && unchanged(store, store.storage)
    {
      var state := store.GetState();
      if state.notes.None? {
        return ThrewTypeError, None;
      }
      var notes := state.notes.value;
      if 0 <= index < |notes| {
        loaded := Some(notes[index]);
        store.SetState(NoteDeleted(state, index));
      } else {
        loaded := None;
      }
      outcome := Returned;
    }

    method PenSelected()
      modifies this
      ensures currentTool == Pen && currentColor == "#000000" && currentLineWidth == 2
      ensures isDrawing == old(isDrawing) && currentPath == old(currentPath)
    {
      currentTool := Pen;
      currentColor := "#000000";
      currentLineWidth := 2;
    }

    method EraserSelected()
      modifies this
      ensures currentTool == Eraser && currentColor == "#ffffff" && currentLineWidth == 10
      ensures isDrawing == old(isDrawing) && currentPath == old(currentPath)
    {
      currentTool := Eraser;
      currentColor := "#ffffff";
      currentLineWidth := 10;
    }

    /** The color picker sets the color only, in eraser mode as well. */
    method ColorPicked(color: string)
      modifies this
      ensures currentColor == color
      ensures currentTool == old(currentTool) && currentLineWidth == old(currentLineWidth)
      ensures isDrawing == old(isDrawing) && currentPath == old(currentPath)
    {
      currentColor := color;
    }

    /** Clear button: both stroke stacks emptied, notes and the capture buffer kept. */
    method ClearClicked()
      modifies store, store.storage
      ensures store.Wrote(Cleared(old(store.state)))
    {
      var state := store.GetState();
      store.SetState(Cleared(state));
    }
  }

  /** Drawing (10,10) -> (20,10) -> (20,20) with the default pen on a fresh
      store commits one stroke of three styled points and nothing to redo. */
  method CommitScenario() returns (paths: seq<Stroke<StyledPoint>>, redos: seq<Stroke<StyledPoint>>)
    ensures paths == [[StyledPoint(10, 10, "#000000", 2, Pen), StyledPoint(20, 10, "#000000", 2, Pen),
                       StyledPoint(20, 20, "#000000", 2, Pen)]]
    ensures redos == []
  {
    var storage := new Storage(map[]);
    var page := new NotesPage(storage);
    page.StartDrawing(10, 10);
    page.Draw(20, 10);
    page.Draw(20, 20);
    assert page.currentPath == [StyledPoint(10, 10, "#000000", 2, Pen), StyledPoint(20, 10, "#000000", 2, Pen),
                                StyledPoint(20, 20, "#000000", 2, Pen)];
    page.StopDrawing();
    paths, redos := Paths(page.store.state), Redos(page.store.state);
  }

  /** Undo of the only stroke leaves nothing committed and that stroke on the redo stack. */
  method UndoScenario(stroke: Stroke<StyledPoint>) returns (paths: seq<Stroke<StyledPoint>>, redos: seq<Stroke<StyledPoint>>)
    ensures paths == [] && redos == [stroke]
  {
    var storage := new Storage(map["notes" := NotesState(Some([]), Some([stroke]), Some([]))]);
    var page := new NotesPage(storage);
    page.UndoLastStroke();
    paths, redos := Paths(page.store.state), Redos(page.store.state);
  }

  /** Because the save guard reads the capture buffer, a note with no title
      and no content is still saved after a stroke was drawn and cleared. */
  method StaleGuardScenario() returns (saved: seq<Note>)
    ensures saved == [Note("", "", Some("image"), "now")]
  {
    var storage := new Storage(map[]);
    var page := new NotesPage(storage);
    page.StartDrawing(1, 1);
    page.StopDrawing();
    page.ClearClicked();
    var outcome := page.SaveNote("", "", "image", "now");
    saved := Notes(page.store.state);
  }
}
