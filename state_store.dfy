/** The persisted observable store of the framework (class `State` of
    todo-notes-app/framework/core/state.js).

    Browser storage is a `Storage` object holding a map from keys to values;
    the JSON encoding in between is taken to round-trip, so the map holds the
    values themselves. Listener callbacks are represented by identifiers, and
    every call of a listener is recorded in the `notified` log. */
module StateStore {

  import opened Options

  type ListenerId = nat

  /** One call `listener(state)` made by `setState`. */
  datatype Notification<V> = Notification(listener: ListenerId, state: V)

  ghost predicate NoDuplicates<T>(s: seq<T>) {
    forall i, j :: 0 <= i < j < |s| ==> s[i] != s[j]
  }

  /** The browser's key-value storage (`localStorage`). */
  class Storage<V> {
    var items: map<string, V>

    constructor (items: map<string, V>)
      ensures this.items == items
    {
      this.items := items;
    }

    method SetItem(key: string, value: V)
      modifies this
      ensures items == old(items)[key := value]
    {
      items := items[key := value];
    }
  }

  /** The state a store starts with: the value stored under `key` when there
      is one and it is truthy, otherwise `initialState`. A missing key reads
      as `null`, which is falsy like any falsy stored value. */
  function Restored<V>(items: map<string, V>, key: string, initialState: V, truthy: V -> bool): (s: V)
    ensures key in items && truthy(items[key]) ==> s == items[key]
    ensures !(key in items && truthy(items[key])) ==> s == initialState
  {
    if key in items && truthy(items[key]) then items[key] else initialState
  }

  /** Adding a listener to the `Set` of listeners: a listener already
      present keeps its place, a new one goes last (insertion order). */
  function WithListener(listeners: seq<ListenerId>, l: ListenerId): (r: seq<ListenerId>)
    ensures l in r
    ensures forall m :: m in r <==> m in listeners || m == l
    ensures listeners <= r
    ensures NoDuplicates(listeners) ==> NoDuplicates(r)
  {
    if l in listeners then listeners else listeners + [l]
  }

  /** Subscribing the same listener twice registers it once. */
  lemma WithListenerIdempotent(listeners: seq<ListenerId>, l: ListenerId)
    ensures WithListener(WithListener(listeners, l), l) == WithListener(listeners, l)
  {
  }

  /** The listener calls `setState` makes, one per listener in iteration order, each passed `v`. */
  function Fanout<V>(listeners: seq<ListenerId>, v: V): (log: seq<Notification<V>>)
    ensures |log| == |listeners|
    ensures forall i :: 0 <= i < |listeners| ==> log[i].listener == listeners[i] && log[i].state == v
  {
    if listeners == [] then [] else [Notification(listeners[0], v)] + Fanout(listeners[1..], v)
  }

  /** How many entries of a notification log went to listener `l`. */
  function Deliveries<V>(log: seq<Notification<V>>, l: ListenerId): nat {
    if log == [] then 0 else (if log[0].listener == l then 1 else 0) + Deliveries(log[1..], l)
  }

  /** Every registered listener is called exactly once, and nobody else is called. */
  lemma {:induction false} FanoutCallsEachListenerOnce<V>(listeners: seq<ListenerId>, v: V, l: ListenerId)
    requires NoDuplicates(listeners)
    ensures Deliveries(Fanout(listeners, v), l) == if l in listeners then 1 else 0
  {
    if listeners != [] {
      var log := Fanout(listeners, v);
      assert log[1..] == Fanout(listeners[1..], v);
      assert NoDuplicates(listeners[1..]);
      assert listeners[0] == l ==> l !in listeners[1..];
      assert l in listeners <==> l == listeners[0] || l in listeners[1..];
      FanoutCallsEachListenerOnce(listeners[1..], v, l);
    }
  }

  class State<V> {
    const key: string
    const storage: Storage<V>
    var state: V
    var listeners: seq<ListenerId>
    /** Every listener call made so far, oldest first. */
    var notified: seq<Notification<V>>

    /** The listeners form a set. */
    ghost predicate Valid()
      reads this
    {
      NoDuplicates(listeners)
    }

    /** What `setState(v)` does to the store and to browser storage. */
    twostate predicate Wrote(v: V)
      reads this, storage
    {
      && state == v
      && storage.items == old(storage.items)[key := v]
      && listeners == old(listeners)
      && notified == old(notified) + Fanout(listeners, v)
    }

    constructor (storage: Storage<V>, key: string, initialState: V, truthy: V -> bool)
      ensures this.storage == storage && this.key == key
      ensures state == Restored(storage.items, key, initialState, truthy)
      ensures listeners == [] && notified == []
      ensures Valid()
    {
      this.key := key;
      this.storage := storage;
      state := Restored(storage.items, key, initialState, truthy);
      listeners := [];
      notified := [];
    }

    /** The current state; `setState` replaces it and nothing else does. */
    function GetState(): (s: V)
      reads this
      ensures s == state
    {
      state
    }

    /** Registers a listener without calling it. */
    method Subscribe(l: ListenerId)
      requires Valid()
      modifies this
      ensures Valid()
      ensures listeners == WithListener(old(listeners), l)
      ensures state == old(state) && notified == old(notified)
    {
      if l !in listeners {
        listeners := listeners + [l];
      }
    }

    /** Replaces the whole state, persists it under `key` only, then calls
        every listener with the new state. */
    method SetState(newState: V)
      modifies this, storage
      ensures Wrote(newState)
      ensures GetState() == newState
      ensures Valid() ==> forall l :: Deliveries(notified[|old(notified)|..], l) == if l in listeners then 1 else 0
    {
      state := newState;
      storage.SetItem(key, newState);
      var i := 0;
      while i < |listeners|
        invariant 0 <= i <= |listeners|
        invariant state == newState && listeners == old(listeners)
        invariant storage.items == old(storage.items)[key := newState]
        invariant notified == old(notified) + Fanout(listeners[..i], newState)
      {
        assert Fanout(listeners[..i + 1], newState) == Fanout(listeners[..i], newState) + [Notification(listeners[i], newState)];
        notified := notified + [Notification(listeners[i], state)];
        i := i + 1;
      }
      assert listeners[..i] == listeners;
      assert notified[|old(notified)|..] == Fanout(listeners, newState);
      if Valid() {
        forall l ensures Deliveries(notified[|old(notified)|..], l) == if l in listeners then 1 else 0 {
          FanoutCallsEachListenerOnce(listeners, newState, l);
        }
      }
    }
  }

  /** Write, then open a fresh store on the same key: it starts from the
      written value, not from its own default, whenever that value is truthy. */
  method WriteThenReopen<V>(store: State<V>, s: V, d: V, truthy: V -> bool) returns (reopened: State<V>)
    requires truthy(s)
    modifies store, store.storage
    ensures fresh(reopened) && reopened.GetState() == s
    ensures store.GetState() == s
  {
    store.SetState(s);
    reopened := new State(store.storage, store.key, d, truthy);
  }
}
