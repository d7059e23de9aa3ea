/** The data the three notes pages share: points, strokes, notes, and the
    notes store's state record `{notes, currentPaths, redoStack}`, together
    with the stack moves and list edits their handlers perform on it.

    Any field of the record may be missing from a value restored from
    storage, hence `Option`; the pages read a missing stroke stack as empty
    (`state.currentPaths || []`). */
module Sketch {

  import opened Options

  datatype Tool = Pen | Eraser

  /** A point tagged with the style that was current when it was captured. */
  datatype StyledPoint = StyledPoint(x: int, y: int, color: string, lineWidth: int, tool: Tool)

  /** A bare point, as captured by the unstyled lineage. */
  datatype Point = Point(x: int, y: int)

  type Stroke<P> = seq<P>

  /** `drawing` is `None` for a JavaScript `null`; `date` is the opaque
      `toLocaleString()` text. */
  datatype Note = Note(title: string, content: string, drawing: Option<string>, date: string)

  datatype NotesState<P> = NotesState(
    notes: Option<seq<Note>>,
    currentPaths: Option<seq<Stroke<P>>>,
    redoStack: Option<seq<Stroke<P>>>)

  /** The state every notes page seeds its store with. */
  function EmptyNotesState<P>(): NotesState<P> {
    NotesState(Some([]), Some([]), Some([]))
  }

  /** A missing list field reads as the empty list. */
  function OrEmpty<T>(field: Option<seq<T>>): seq<T> {
    match field
    case Some(s) => s
    case None => []
  }

  function Paths<P>(s: NotesState<P>): seq<Stroke<P>> { OrEmpty(s.currentPaths) }

  function Redos<P>(s: NotesState<P>): seq<Stroke<P>> { OrEmpty(s.redoStack) }

  function Notes<P>(s: NotesState<P>): seq<Note> { OrEmpty(s.notes) }

  /** stopDrawing: the finished stroke becomes the newest committed one. */
  function Committed<P>(s: NotesState<P>, path: Stroke<P>): (r: NotesState<P>)
    ensures |Paths(r)| == |Paths(s)| + 1
    ensures Paths(r)[..|Paths(s)|] == Paths(s) && Paths(r)[|Paths(s)|] == path
    ensures r.redoStack == s.redoStack && r.notes == s.notes
  {
    s.(currentPaths := Some(Paths(s) + [path]))
  }

  /** undoLastStroke: the newest committed stroke moves onto the top of the redo stack. */
  function Undone<P>(s: NotesState<P>): (r: NotesState<P>)
    requires Paths(s) != []
    ensures Redos(r) != [] && Paths(r) + [Redos(r)[|Redos(r)| - 1]] == Paths(s)
    ensures Redos(r)[..|Redos(r)| - 1] == Redos(s)
    ensures |Paths(r)| + |Redos(r)| == |Paths(s)| + |Redos(s)|
    ensures r.notes == s.notes
  {
    var paths := Paths(s);
    s.(currentPaths := Some(paths[..|paths| - 1]), redoStack := Some(Redos(s) + [paths[|paths| - 1]]))
  }

  /** redoLastStroke: the top of the redo stack moves back to the end of the committed strokes. */
  function Redone<P>(s: NotesState<P>): (r: NotesState<P>)
    requires Redos(s) != []
    ensures Paths(r) != [] && Redos(r) + [Paths(r)[|Paths(r)| - 1]] == Redos(s)
    ensures Paths(r)[..|Paths(r)| - 1] == Paths(s)
    ensures |Paths(r)| + |Redos(r)| == |Paths(s)| + |Redos(s)|
    ensures r.notes == s.notes
  {
    var redos := Redos(s);
    s.(currentPaths := Some(Paths(s) + [redos[|redos| - 1]]), redoStack := Some(redos[..|redos| - 1]))
  }

  /** Undo followed by redo gives back both stroke stacks exactly. */
  lemma UndoThenRedo<P>(s: NotesState<P>)
    requires Paths(s) != []
    ensures Redos(Undone(s)) != []
    ensures Paths(Redone(Undone(s))) == Paths(s) && Redos(Redone(Undone(s))) == Redos(s)
    ensures Redone(Undone(s)).notes == s.notes
  {
  }

  /** Redo followed by undo gives back both stroke stacks exactly. */
  lemma RedoThenUndo<P>(s: NotesState<P>)
    requires Redos(s) != []
    ensures Paths(Redone(s)) != []
    ensures Paths(Undone(Redone(s))) == Paths(s) && Redos(Undone(Redone(s))) == Redos(s)
    ensures Undone(Redone(s)).notes == s.notes
  {
  }

  /** Undo and redo only move strokes: none is lost or duplicated. */
  lemma UndoRedoKeepStrokes<P>(s: NotesState<P>)
    ensures Paths(s) != [] ==> multiset(Paths(Undone(s)) + Redos(Undone(s))) == multiset(Paths(s) + Redos(s))
    ensures Redos(s) != [] ==> multiset(Paths(Redone(s)) + Redos(Redone(s))) == multiset(Paths(s) + Redos(s))
  {
  }

  /** The Clear action, also part of every successful save. */
  function Cleared<P>(s: NotesState<P>): (r: NotesState<P>)
    ensures Paths(r) == [] && Redos(r) == []
    ensures r.currentPaths.Some? && r.redoStack.Some?
    ensures r.notes == s.notes
  {
    s.(currentPaths := Some([]), redoStack := Some([]))
  }

  /** saveNote of todo-notes-app: the new note goes first, the drawing stacks are emptied. */
  function NoteSavedFirst<P>(s: NotesState<P>, n: Note): (r: NotesState<P>)
    ensures r.notes.Some? && Notes(r) != []
    ensures Notes(r)[0] == n && Notes(r)[1..] == Notes(s)
    ensures Paths(r) == [] && Redos(r) == []
  {
    Cleared(s).(notes := Some([n] + Notes(s)))
  }

  /** saveNote of the other two lineages: the new note goes last, the drawing stacks are emptied. */
  function NoteSavedLast<P>(s: NotesState<P>, n: Note): (r: NotesState<P>)
    ensures r.notes.Some? && |Notes(r)| == |Notes(s)| + 1
    ensures Notes(r)[..|Notes(s)|] == Notes(s) && Notes(r)[|Notes(s)|] == n
    ensures Paths(r) == [] && Redos(r) == []
  {
    Cleared(s).(notes := Some(Notes(s) + [n]))
  }

  /** The list without the element at `index`; unchanged when `index` is out of range. */
  function RemoveAt<T>(list: seq<T>, index: int): (r: seq<T>)
    ensures 0 <= index < |list| ==> |r| == |list| - 1 && r == list[..index] + list[index + 1..]
    ensures !(0 <= index < |list|) ==> r == list
  {
    if list == [] then []
    else (if index == 0 then [] else [list[0]]) + RemoveAt(list[1..], index - 1)
  }

  /** Every element other than the removed one keeps its relative order. */
  lemma RemoveAtKeepsOthers<T>(list: seq<T>, index: int, j: int)
    requires 0 <= index < |list| && 0 <= j < |list| && j != index
    ensures RemoveAt(list, index)[if j < index then j else j - 1] == list[j]
  {
  }

  /** deleteNote (and the removal step of editNote). */
  function NoteDeleted<P>(s: NotesState<P>, index: int): (r: NotesState<P>)
    ensures r.notes.Some? && Notes(r) == RemoveAt(Notes(s), index)
    ensures r.currentPaths == s.currentPaths && r.redoStack == s.redoStack
  {
    s.(notes := Some(RemoveAt(Notes(s), index)))
  }

  /** What `canvas.toDataURL()` returns for the page's canvas: a PNG data
      URL around an opaque base64 encoding of the pixels. */
  function PngDataUrl(encoded: string): (url: string)
    ensures url != ""
  {
    "data:image/png;base64," + encoded
  }
}
