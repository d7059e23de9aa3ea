/** The to-do page of my-todo-notes-app (my-todo-notes-app/mytodonotes/pages/todos.js).

    `addTodo`, `toggleTodo` and the delete button compute a new list and
    write it to the store under key "todos"; those list computations are
    the functions below. The page keeps a `startIndex` into the list that
    the Load More button advances and wraps. */
module MyTodoNotesAppTodos {

  import opened StateStore

  datatype Todo = Todo(text: string, completed: bool)

  const ItemsPerPage: nat := 10

  /** addTodo: a new, not yet completed item goes at the end of the list. */
  function WithTodo(todos: seq<Todo>, text: string): (r: seq<Todo>)
    ensures |r| == |todos| + 1
    ensures r[..|todos|] == todos && r[|todos|] == Todo(text, false)
  {
    todos + [Todo(text, false)]
  }

  /** toggleTodo: the item at `index` flips its completed flag; every other
      item, and the whole list when `index` is out of range, is unchanged. */
  function Toggled(todos: seq<Todo>, index: int): (r: seq<Todo>)
    ensures |r| == |todos|
    ensures forall i :: 0 <= i < |todos| && i != index ==> r[i] == todos[i]
    ensures 0 <= index < |todos| ==> r[index] == Todo(todos[index].text, !todos[index].completed)
    ensures !(0 <= index < |todos|) ==> r == todos
  {
    if todos == [] then []
    else [if index == 0 then todos[0].(completed := !todos[0].completed) else todos[0]]
         + Toggled(todos[1..], index - 1)
  }

  /** Toggling the same index twice gives back the original list. */
  lemma ToggledTwice(todos: seq<Todo>, index: int)
    ensures Toggled(Toggled(todos, index), index) == todos
  {
  }

  /** Delete button: keeps, in order, exactly the items whose text differs from `text`. */
  function WithoutText(todos: seq<Todo>, text: string): (r: seq<Todo>)
    ensures forall i :: 0 <= i < |r| ==> r[i].text != text
    ensures forall t :: t in todos && t.text != text ==> t in r
    ensures forall t :: t in r ==> t in todos
  {
    if todos == [] then []
    else
      (if todos[0].text == text then [] else [todos[0]]) + WithoutText(todos[1..], text)
  }

  /** Deleting keeps every other item as often as it occurred. */
  lemma {:induction false} WithoutTextKeepsCounts(todos: seq<Todo>, text: string, t: Todo)
    requires t.text != text
    ensures multiset(WithoutText(todos, text))[t] == multiset(todos)[t]
  {
    if todos != [] {
      assert todos == [todos[0]] + todos[1..];
      WithoutTextKeepsCounts(todos[1..], text, t);
    }
  }

  /** Deleting keeps the surviving items in their order: the filter of a
      concatenation is the concatenation of the filters. */
  lemma {:induction false} WithoutTextKeepsOrder(a: seq<Todo>, b: seq<Todo>, text: string)
    ensures WithoutText(a + b, text) == WithoutText(a, text) + WithoutText(b, text)
  {
    if a != [] {
      var head := if a[0].text == text then [] else [a[0]];
      assert (a + b)[0] == a[0] && (a + b)[1..] == a[1..] + b;
      WithoutTextKeepsOrder(a[1..], b, text);
      calc {
        WithoutText(a + b, text);
        head + WithoutText(a[1..] + b, text);
        head + (WithoutText(a[1..], text) + WithoutText(b, text));
        (head + WithoutText(a[1..], text)) + WithoutText(b, text);
      }
    } else {
      assert a + b == b;
    }
  }

  /** A rendered row: its toggle button targets `index` of the whole list. */
  datatype Row = Row(index: int, todo: Todo)

  /** The position `Array.prototype.slice` uses for a bound `i`: counted
      from the end when negative, clamped to the list. */
  function SliceBound(i: int, len: nat): (r: nat)
    ensures r <= len
    ensures 0 <= i ==> r == if i <= len then i else len
  {
    if i < 0 then (if len + i < 0 then 0 else len + i)
    else if i <= len then i else len
  }

  /** renderList: at most one page of items starting at `start`, each row
      toggling the item's index in the whole list. */
  function VisibleRows(todos: seq<Todo>, start: int): (rows: seq<Row>)
    ensures |rows| <= ItemsPerPage
    ensures forall k :: 0 <= k < |rows| ==> rows[k].index == start + k
    ensures 0 <= start ==> |rows| == if |todos| <= start then 0 else if |todos| - start < ItemsPerPage then |todos| - start else ItemsPerPage
    ensures 0 <= start ==> forall k :: 0 <= k < |rows| ==> rows[k].todo == todos[start + k]
  {
    var begin := SliceBound(start, |todos|);
    var end := SliceBound(start + ItemsPerPage, |todos|);
    var page := if begin < end then todos[begin..end] else [];
    seq(|page|, k requires 0 <= k < |page| => Row(start + k, page[k]))
  }

  class TodoPage {
    /** The module's `todoState`. */
    const store: State<seq<Todo>>
    /** The first item shown, local to one rendering of the page. */
    var startIndex: int

    ghost predicate Valid()
      reads this
    {
      0 <= startIndex && startIndex % ItemsPerPage == 0
    }

    constructor (store: State<seq<Todo>>)
      ensures this.store == store && startIndex == 0 && Valid()
    {
      this.store := store;
      startIndex := 0;
    }

    method AddTodo(text: string)
      modifies store, store.storage
      ensures store.Wrote(WithTodo(old(store.state), text))
    {
      store.SetState(WithTodo(store.GetState(), text));
    }

    method ToggleTodo(index: int)
      modifies store, store.storage
      ensures store.Wrote(Toggled(old(store.state), index))
    {
      store.SetState(Toggled(store.GetState(), index));
    }

    /** Add button: only a non-empty input is added. */
    method AddClicked(input: string)
      modifies store, store.storage
      ensures input != "" ==> store.Wrote(WithTodo(old(store.state), input))
      ensures input == "" ==> unchanged(store, store.storage)
    {
      if input != "" {
        AddTodo(input);
      }
    }

    /** Toggle button of the rendered row `row`. */
    method RowToggled(row: int)
      modifies store, store.storage
      ensures store.Wrote(Toggled(old(store.state), startIndex + row))
    {
      ToggleTodo(startIndex + row);
    }

    /** Delete button of a row showing `text`: every item with that text goes. */
    method DeleteClicked(text: string)
      modifies store, store.storage
      ensures store.Wrote(WithoutText(old(store.state), text))
    {
      var todos := store.GetState();
      store.SetState(WithoutText(todos, text));
    }

    /** Load More: the next page, or back to the first one past the end. */
    method LoadMore()
      requires Valid()
      modifies this
      ensures Valid()
      ensures startIndex == if old(startIndex) + ItemsPerPage >= |store.state| then 0 else old(startIndex) + ItemsPerPage
      ensures startIndex == 0 || startIndex < |store.state|
    {
      startIndex := startIndex + ItemsPerPage;
      var todos := store.GetState();
      if startIndex >= |todos| {
        startIndex := 0;
      }
    }
  }

  /** Toggling item 1 of three changes only its completion flag. */
  method ToggleScenario(a: Todo, b: Todo, c: Todo) returns (after: seq<Todo>)
    ensures after == [a, Todo(b.text, !b.completed), c]
  {
    var storage := new Storage(map["todos" := [a, b, c]]);
    var store := new State(storage, "todos", [], (s: seq<Todo>) => true);
    var page := new TodoPage(store);
    page.RowToggled(1);
    after := store.GetState();
  }
}
