/** The notes page of my-todo-notes-app (my-todo-notes-app/mytodonotes/pages/notes.js):
    styled points, new notes last, the save guard reads the drawing passed
    in, and a missing `notes` field reads as an empty list.

    The module-level variables of the page are the fields of `NotesPage`;
    `notesState` is its store. One method per handler. Canvas painting is
    not modelled. */
module MyTodoNotesAppNotes {

  import opened Options
  import opened Sketch
  import opened StateStore

  class NotesPage {
    const store: State<NotesState<StyledPoint>>
    var isDrawing: bool
    var currentPath: Stroke<StyledPoint>
    var currentTool: Tool
    var currentColor: string
    var currentLineWidth: int

    /** The point captured at (x, y) with the current style. */
    function Stamp(x: int, y: int): StyledPoint
      reads this
    {
      StyledPoint(x, y, currentColor, currentLineWidth, currentTool)
    }

    twostate predicate StyleUnchanged()
      reads this
    {
      currentTool == old(currentTool) && currentColor == old(currentColor) && currentLineWidth == old(currentLineWidth)
    }

    /** Loading the module: the store under key "notes" and the default pen. */
    constructor (storage: Storage<NotesState<StyledPoint>>)
      ensures fresh(store) && store.storage == storage && store.key == "notes"
      ensures store.state == if "notes" in storage.items then storage.items["notes"] else EmptyNotesState()
      ensures store.listeners == [] && store.notified == [] && store.Valid()
      ensures !isDrawing && currentPath == []
      ensures currentTool == Pen && currentColor == "#000000" && currentLineWidth == 2
    {
      store := new State(storage, "notes", EmptyNotesState(), (s: NotesState<StyledPoint>) => true);
      isDrawing := false;
      currentPath := [];
      currentTool := Pen;
      currentColor := "#000000";
      currentLineWidth := 2;
    }

    /** Pointer down: a new capture of exactly one point, whatever was being captured. */
    method StartDrawing(x: int, y: int)
      modifies this
      ensures isDrawing && currentPath == [old(Stamp(x, y))]
      ensures StyleUnchanged()
    {
      isDrawing := true;
      currentPath := [];
      currentPath := currentPath + [Stamp(x, y)];
    }

    /** Pointer move: one more point while capturing, nothing otherwise. */
    method Draw(x: int, y: int)
      modifies this
      ensures isDrawing == old(isDrawing) && StyleUnchanged()
      ensures currentPath == if old(isDrawing) then old(currentPath) + [old(Stamp(x, y))] else old(currentPath)
    {
      if !isDrawing {
        return;
      }
      currentPath := currentPath + [Stamp(x, y)];
    }

    /** Pointer up or out: commits a copy of the capture; the redo stack is kept. */
    method StopDrawing()
      modifies this, store, store.storage
      ensures !isDrawing && currentPath == old(currentPath) && StyleUnchanged()
      ensures old(isDrawing) ==> store.Wrote(Committed(old(store.state), old(currentPath)))
      ensures !old(isDrawing) ==> unchanged(store, store.storage)
    {
      if isDrawing {
        var state := store.GetState();
        store.SetState(Committed(state, currentPath));
        isDrawing := false;
      }
    }

    method UndoLastStroke()
      modifies store, store.storage
      ensures Paths(old(store.state)) != [] ==> store.Wrote(Undone(old(store.state)))
      ensures Paths(old(store.state)) == [] ==> unchanged(store, store.storage)
    {
      var state := store.GetState();
      if |Paths(state)| > 0 {
        store.SetState(Undone(state));
      }
    }

    method RedoLastStroke()
      modifies store, store.storage
      ensures Redos(old(store.state)) != [] ==> store.Wrote(Redone(old(store.state)))
      ensures Redos(old(store.state)) == [] ==> unchanged(store, store.storage)
    {
      var state := store.GetState();
      if |Redos(state)| > 0 {
        store.SetState(Redone(state));
      }
    }

    /** saveNote: rejected only when title, content and drawing are all empty. */
    method SaveNote(title: string, content: string, drawing: string, now: string)
      modifies store, store.storage
      ensures title == "" && content == "" && drawing == "" ==> unchanged(store, store.storage)
      ensures !(title == "" && content == "" && drawing == "") ==>
        store.Wrote(NoteSavedLast(old(store.state), Note(title, content, Some(drawing), now)))
    {
      if title == "" && content == "" && drawing == "" {
        return;
      }
      var state := store.GetState();
      store.SetState(NoteSavedLast(state, Note(title, content, Some(drawing), now)));
    }

    /** Save button: it always passes the canvas data URL, which is never
        empty, so every click saves a note, even an empty one. */
    method SaveClicked(title: string, content: string, encoded: string, now: string)
      modifies store, store.storage
      ensures store.Wrote(NoteSavedLast(old(store.state), Note(title, content, Some(PngDataUrl(encoded)), now)))
    {
      SaveNote(title, content, PngDataUrl(encoded), now);
    }

    /** Delete button of the note at `index`; an index out of range still writes the unchanged list. */
    method DeleteNote(index: int)
      modifies store, store.storage
      ensures store.Wrote(NoteDeleted(old(store.state), index))
    {
      var state := store.GetState();
      store.SetState(NoteDeleted(state, index));
    }

    method PenSelected()
      modifies this
      ensures currentTool == Pen && currentColor == "#000000" && currentLineWidth == 2
      ensures isDrawing == old(isDrawing) && currentPath == old(currentPath)
    {
      currentTool := Pen;
      currentColor := "#000000";
      currentLineWidth := 2;
    }

    method EraserSelected()
      modifies this
      ensures currentTool == Eraser && currentColor == "#ffffff" && currentLineWidth == 10
      ensures isDrawing == old(isDrawing) && currentPath == old(currentPath)
    {
      currentTool := Eraser;
      currentColor := "#ffffff";
      currentLineWidth := 10;
    }

    /** The color picker sets the color only, in eraser mode as well. */
    method ColorPicked(color: string)
      modifies this
      ensures currentColor == color
      ensures currentTool == old(currentTool) && currentLineWidth == old(currentLineWidth)
      ensures isDrawing == old(isDrawing) && currentPath == old(currentPath)
    {
      currentColor := color;
    }

    /** Clear button: both stroke stacks emptied, notes and the capture buffer kept. */
    method ClearClicked()
      modifies store, store.storage
      ensures store.Wrote(Cleared(old(store.state)))
    {
      var state := store.GetState();
      store.SetState(Cleared(state));
    }
  }

  /** Deleting from a restored record that has no `notes` field leaves an empty list. */
  method DeleteFromMissingNotes(index: int) returns (notes: Option<seq<Note>>)
    ensures notes == Some([])
  {
    var storage := new Storage(map["notes" := NotesState(None, Some([]), Some([]))]);
    var page := new NotesPage(storage);
    page.DeleteNote(index);
    notes := page.store.state.notes;
  }
}
