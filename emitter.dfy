/** The listener table of `Emitter` (src/utils/emitter.js), which pageable.js
    and index.js each carry a copy of: a dictionary from event name to the
    callbacks registered for it, in registration order. A callback is known
    by its identity `C`; calling it is recorded as an `Invocation`. */
module EventEmitter {
  import opened JsArray

  /** The callbacks registered for `name`; none when the name is unknown. */
  function Listeners<C>(table: map<string, seq<C>>, name: string): seq<C>
  {
    if name in table then table[name] else []
  }

  /** `on(name, cb)`: create the list when absent, then push `cb`. */
  function Subscribe<C>(table: map<string, seq<C>>, name: string, cb: C): (r: map<string, seq<C>>)
    ensures name in r && r[name] == Listeners(table, name) + [cb]
    ensures r.Keys == table.Keys + {name}
    ensures forall n :: n in table && n != name ==> r[n] == table[n]
  {
    table[name := Listeners(table, name) + [cb]]
  }

  /** `off(name, cb)`: nothing for an unknown name; otherwise
      `splice(indexOf(cb), 1)` on that name's list. */
  function Unsubscribe<C(==)>(table: map<string, seq<C>>, name: string, cb: C): (r: map<string, seq<C>>)
    ensures name !in table ==> r == table
    ensures r.Keys == table.Keys
    ensures forall n :: n in table && n != name ==> r[n] == table[n]
    ensures name in table && cb in table[name] ==>
              var list, i := table[name], IndexOf(table[name], cb);
              r[name] == list[..i] + list[i + 1..] && cb !in list[..i]
    ensures name in table && cb !in table[name] ==>
              var list := table[name];
              r[name] == if |list| == 0 then list else list[..|list| - 1]
  {
    if name !in table then table
    else
      var list := table[name];
      SpliceMinusOne(list);
      table[name := SpliceOne(list, IndexOf(list, cb))]
  }

  /** `off` removes exactly one registration: one copy of `cb` when it is
      registered (duplicates stay), and otherwise, because `indexOf` gives -1
      and `splice(-1, 1)` counts from the end, the LAST listener of the name. */
  lemma OffRemovesOneEntry<C>(table: map<string, seq<C>>, name: string, cb: C)
    requires name in table && |table[name]| > 0
    ensures var list, r := table[name], Unsubscribe(table, name, cb)[name];
            if cb in list then multiset(r) == multiset(list) - multiset{cb}
            else multiset(r) == multiset(list) - multiset{list[|list| - 1]}
  {
    var list := table[name];
    if cb in list {
      var i := IndexOf(list, cb);
      assert list == list[..i] + [list[i]] + list[i + 1..];
    } else {
      assert list == list[..|list| - 1] + [list[|list| - 1]];
    }
  }

  /** Registering a callback that was not yet registered and removing it
      again gives back the list the name had (an empty one for a name that
      had none). */
  lemma OnThenOff<C>(table: map<string, seq<C>>, name: string, cb: C)
    requires cb !in Listeners(table, name)
    ensures Unsubscribe(Subscribe(table, name, cb), name, cb) ==
            table[name := Listeners(table, name)]
  {
    var t := Subscribe(table, name, cb);
    var list := Listeners(table, name);
    assert t[name] == list + [cb];
    var i := IndexOf(t[name], cb);
    forall j | 0 <= j < |list|
      ensures t[name][j] != cb
    {
      assert t[name][j] == list[j];
    }
    assert t[name][|list|] == cb;
    assert i == |list|;
    assert t[name][..i] + t[name][i + 1..] == list;
  }

  /** One call of a listener: which callback ran and with what arguments. */
  datatype Invocation<C, A> = Invocation(callback: C, args: seq<A>)

  /** The object that owns a listener table (src/utils/emitter.js). The
      dictionary is created on first use in JavaScript; an absent dictionary
      and an empty one behave alike, so it starts empty here. */
  class Emitter<C(==), A> {
    var listeners: map<string, seq<C>>

    constructor()
      ensures listeners == map[]
    {
      listeners := map[];
    }

    /** `on`: the new callback goes last in its name's list. */
    method On(name: string, cb: C)
      modifies this
      ensures listeners == Subscribe(old(listeners), name, cb)
    {
      if name !in listeners {
        listeners := listeners[name := []];
      }
      listeners := listeners[name := listeners[name] + [cb]];
    }

    /** `off`: the table loses one entry of `name` as `Unsubscribe` says. */
    method Off(name: string, cb: C)
      modifies this
      ensures listeners == Unsubscribe(old(listeners), name, cb)
    {
      if name !in listeners {
        return;
      }
      var list := listeners[name];
      listeners := listeners[name := SpliceOne(list, IndexOf(list, cb))];
    }

    /** `emit(name, ...args)`: every listener of `name` is called once, in
        registration order, with the remaining arguments; an unknown name
        calls nothing. The table itself is not changed. */
    method Emit(name: string, args: seq<A>) returns (calls: seq<Invocation<C, A>>)
      ensures |calls| == |Listeners(listeners, name)|
      ensures forall i :: 0 <= i < |calls| ==> calls[i] == Invocation(Listeners(listeners, name)[i], args)
    {
      calls := [];
      if name !in listeners {
        return;
      }
      var list := listeners[name];
      var i := 0;
      while i < |list|
        invariant 0 <= i <= |list|
        invariant |calls| == i
        invariant forall k :: 0 <= k < i ==> calls[k] == Invocation(list[k], args)
      {
        calls := calls + [Invocation(list[i], args)];
        i := i + 1;
      }
    }
  }
}
