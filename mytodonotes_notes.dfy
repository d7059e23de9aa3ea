/** The notes page of mytodonotes (mytodonotes/pages/notes.js): bare
    points and no tool selection, new notes last, the save guard reads the
    drawing passed in, and a missing `notes` field reads as an empty list.

    The module-level variables `isDrawing` and `currentPath` are the fields
    of `NotesPage`; `notesState` is its store. One method per handler.
    Canvas painting is not modelled. */
module MyTodoNotesNotes {

  import opened Options
  import opened Sketch
  import opened StateStore

  class NotesPage {
    const store: State<NotesState<Point>>
    var isDrawing: bool
    var currentPath: Stroke<Point>

    /** Loading the module: the store under key "notes", nothing captured. */
    constructor (storage: Storage<NotesState<Point>>)
      ensures fresh(store) && store.storage == storage && store.key == "notes"
      ensures store.state == if "notes" in storage.items then storage.items["notes"] else EmptyNotesState()
      ensures store.listeners == [] && store.notified == [] && store.Valid()
      ensures !isDrawing && currentPath == []
    {
      store := new State(storage, "notes", EmptyNotesState(), (s: NotesState<Point>) => true);
      isDrawing := false;
      currentPath := [];
    }

    /** Pointer down: a new capture of exactly one point, whatever was being captured. */
    method StartDrawing(x: int, y: int)
      modifies this
      ensures isDrawing && currentPath == [Point(x, y)]
    {
      isDrawing := true;
      currentPath := [];
      currentPath := currentPath + [Point(x, y)];
    }

    /** Pointer move: one more point while capturing, nothing otherwise. */
    method Draw(x: int, y: int)
      modifies this
      ensures isDrawing == old(isDrawing)
      ensures currentPath == if old(isDrawing) then old(currentPath) + [Point(x, y)] else old(currentPath)
    {
      if !isDrawing {
        return;
      }
      currentPath := currentPath + [Point(x, y)];
    }

    /** Pointer up or out: commits a copy of the capture; the redo stack is kept. */
    method StopDrawing()
      modifies this, store, store.storage
      ensures !isDrawing && currentPath == old(currentPath)
      ensures old(isDrawing) ==> store.Wrote(Committed(old(store.state), old(currentPath)))
      ensures !old(isDrawing) ==> unchanged(store, store.storage)
    {
      if isDrawing {
        var state := store.GetState();
        store.SetState(Committed(state, currentPath));
        isDrawing := false;
      }
    }

    method UndoLastStroke()
      modifies store, store.storage
      ensures Paths(old(store.state)) != [] ==> store.Wrote(Undone(old(store.state)))
      ensures Paths(old(store.state)) == [] ==> unchanged(store, store.storage)
    {
      var state := store.GetState();
      if |Paths(state)| > 0 {
        store.SetState(Undone(state));
      }
    }

    method RedoLastStroke()
      modifies store, store.storage
      ensures Redos(old(store.state)) != [] ==> store.Wrote(Redone(old(store.state)))
      ensures Redos(old(store.state)) == [] ==> unchanged(store, store.storage)
    {
      var state := store.GetState();
      if |Redos(state)| > 0 {
        store.SetState(Redone(state));
      }
    }

    /** saveNote: rejected only when title, content and drawing are all empty. */
    method SaveNote(title: string, content: string, drawing: string, now: string)
      modifies store, store.storage
      ensures title == "" && content == "" && drawing == "" ==> unchanged(store, store.storage)
      ensures !(title == "" && content == "" && drawing == "") ==>
        store.Wrote(NoteSavedLast(old(store.state), Note(title, content, Some(drawing), now)))
    {
      if title == "" && content == "" && drawing == "" {
        return;
      }
      var state := store.GetState();
      store.SetState(NoteSavedLast(state, Note(title, content, Some(drawing), now)));
    }

    /** Save button: it always passes the canvas data URL, which is never
        empty, so every click saves a note, even an empty one. */
    method SaveClicked(title: string, content: string, encoded: string, now: string)
      modifies store, store.storage
      ensures store.Wrote(NoteSavedLast(old(store.state), Note(title, content, Some(PngDataUrl(encoded)), now)))
    {
      SaveNote(title, content, PngDataUrl(encoded), now);
    }

    /** Delete button of the note at `index`; an index out of range still writes the unchanged list. */
    method DeleteNote(index: int)
      modifies store, store.storage
      ensures store.Wrote(NoteDeleted(old(store.state), index))
    {
      var state := store.GetState();
      store.SetState(NoteDeleted(state, index));
    }

    /** Clear button: both stroke stacks emptied, notes and the capture buffer kept. */
    method ClearClicked()
      modifies store, store.storage
      ensures store.Wrote(Cleared(old(store.state)))
    {
      var state := store.GetState();
      store.SetState(Cleared(state));
    }
  }

  /** Undo then redo through the page restores both stroke stacks exactly. */
  method UndoRedoScenario(committed: seq<Stroke<Point>>, redos: seq<Stroke<Point>>)
    returns (pathsAfter: seq<Stroke<Point>>, redosAfter: seq<Stroke<Point>>)
    requires committed != []
    ensures pathsAfter == committed && redosAfter == redos
  {
    var storage := new Storage(map["notes" := NotesState(Some([]), Some(committed), Some(redos))]);
    var page := new NotesPage(storage);
    page.UndoLastStroke();
    page.RedoLastStroke();
    UndoThenRedo(NotesState(Some([]), Some(committed), Some(redos)));
    pathsAfter, redosAfter := Paths(page.store.state), Redos(page.store.state);
  }
}
