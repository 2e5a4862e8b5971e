/**
  `EventDispatcher`: a table from event type to the ordered list of listeners
  registered for it. Listeners are pointers compared by identity, so they are
  modelled as values of an equality type `L`; what a listener does when it is
  called is not modelled, and dispatching returns the calls it makes.
 */
module Events {

  /** The event handed to each listener; its `std::any` target is not modelled. */
  datatype Event = Event(eventType: string)

  /** One listener invocation made by `dispatchEvent`. */
  datatype Call<L> = Call(listener: L, event: Event)

  /** The list registered for `t`, empty when `t` has no entry. */
  function ListenersOf<L>(m: map<string, seq<L>>, t: string): (r: seq<L>)
    ensures t in m ==> r == m[t]
    ensures t !in m ==> r == []
  {
    if t in m then m[t] else []
  }

  /** `s` without its first occurrence of `l`; `s` itself when `l` does not occur. */
  function RemoveFirst<L(==)>(s: seq<L>, l: L): (r: seq<L>)
    ensures l in s ==> |r| == |s| - 1
    ensures l !in s ==> r == s
  {
    if s == [] then []
    else if s[0] == l then s[1..]
    else [s[0]] + RemoveFirst(s[1..], l)
  }

  /** The table after `addEventListener(t, l)`. */
  function Added<L>(m: map<string, seq<L>>, t: string, l: L): (r: map<string, seq<L>>)
    ensures t in r && r[t] == ListenersOf(m, t) + [l]
    ensures forall u :: u != t ==> (u in r <==> u in m)
    ensures forall u :: u != t && u in m ==> r[u] == m[u]
  {
    m[t := ListenersOf(m, t) + [l]]
  }

  /** The table after `removeEventListener(t, l)`: only an existing entry for `t` changes. */
  function Removed<L(==)>(m: map<string, seq<L>>, t: string, l: L): (r: map<string, seq<L>>)
    ensures r.Keys == m.Keys
    ensures t in m ==> r[t] == RemoveFirst(m[t], l)
    ensures forall u :: u != t && u in m ==> r[u] == m[u]
  {
    if t in m then m[t := RemoveFirst(m[t], l)] else m
  }

  /** What `hasEventListener(t, l)` reports of a table. */
  predicate Registered<L(==)>(m: map<string, seq<L>>, t: string, l: L)
  {
    t in m && l in m[t]
  }

  /** The calls made when dispatching `t` over the list `s`: one per entry, in order. */
  function CallsFor<L>(s: seq<L>, t: string): (r: seq<Call<L>>)
    ensures |r| == |s|
    ensures forall i :: 0 <= i < |s| ==> r[i] == Call(s[i], Event(t))
  {
    seq(|s|, i requires 0 <= i < |s| => Call(s[i], Event(t)))
  }

  /**
    The first position of `l` in `s`, or `|s|` when `l` does not occur: the
    `std::find` over a listener vector.
   */
  method Find<L(==)>(s: seq<L>, l: L) returns (i: nat)
    ensures i <= |s|
    ensures i < |s| ==> s[i] == l
    ensures forall j :: 0 <= j < i ==> s[j] != l
    ensures i == |s| <==> l !in s
  {
    i := 0;
    while i < |s| && s[i] != l
      invariant i <= |s|
      invariant forall j :: 0 <= j < i ==> s[j] != l
    {
      i := i + 1;
    }
  }

  class EventDispatcher<L(==)> {
    var listeners: map<string, seq<L>>

    constructor()
      ensures listeners == map[]
    {
      listeners := map[];
    }

    /** Appends `l` to `t`'s list, creating the entry when there is none. */
    method AddEventListener(t: string, l: L)
      modifies this`listeners
      ensures listeners == Added(old(listeners), t, l)
    {
      var list := if t in listeners then listeners[t] else [];
      listeners := listeners[t := list + [l]];
    }

    /** False for a type with no entry; otherwise whether `l` occurs in its list. */
    method HasEventListener(t: string, l: L) returns (b: bool)
      ensures b <==> Registered(listeners, t, l)
    {
      if t !in listeners {
        return false;
      }
      var list := listeners[t];
      var i := Find(list, l);
      b := i != |list|;
    }

    /** Erases the first occurrence of `l` from `t`'s list, if both exist. */
    method RemoveEventListener(t: string, l: L)
      modifies this`listeners
      ensures listeners == Removed(old(listeners), t, l)
    {
      if t !in listeners {
        return;
      }
      var list := listeners[t];
      var i := Find(list, l);
      if i != |list| {
        RemoveFirstAt(list, l, i);
        listeners := listeners[t := list[..i] + list[i + 1..]];
      } else {
        assert RemoveFirst(list, l) == list;
      }
    }

    /**
      Calls every listener registered for `t`, once each and in registration
      order, over a copy of the list taken before the first call; a type with
      no entry calls nothing. The table is not changed.
     */
    method DispatchEvent(t: string) returns (calls: seq<Call<L>>)
      ensures calls == CallsFor(ListenersOf(listeners, t), t)
      ensures t !in listeners ==> calls == []
    {
      calls := [];
      if t in listeners {
        var e := Event(t);
        var snapshot := listeners[t];
        var i := 0;
        while i < |snapshot|
          invariant i <= |snapshot|
          invariant calls == CallsFor(snapshot[..i], t)
        {
          calls := calls + [Call(snapshot[i], e)];
          i := i + 1;
        }
        assert snapshot[..i] == snapshot;
      }
    }
  }

  /** Removing the first occurrence found at `i` cuts exactly that entry out. */
  lemma {:induction false} RemoveFirstAt<L>(s: seq<L>, l: L, i: nat)
    requires i < |s| && s[i] == l
    requires forall j :: 0 <= j < i ==> s[j] != l
    ensures RemoveFirst(s, l) == s[..i] + s[i + 1..]
  {
    if i > 0 {
      var tail := s[1..];
      RemoveFirstAt(tail, l, i - 1);
      assert s[0] != l;
      assert RemoveFirst(s, l) == [s[0]] + RemoveFirst(tail, l);
      assert tail[..i - 1] == s[1..i];
      assert tail[i..] == s[i + 1..];
      assert s[..i] + s[i + 1..] == [s[0]] + (s[1..i] + s[i + 1..]);
    }
  }

  /** Removal takes exactly one copy of `l` out of the list and no other entry. */
  lemma {:induction false} RemoveFirstMultiset<L>(s: seq<L>, l: L)
    ensures multiset(RemoveFirst(s, l)) == multiset(s) - multiset{l}
  {
    if s != [] {
      assert s == [s[0]] + s[1..];
      if s[0] != l {
        RemoveFirstMultiset(s[1..], l);
      }
    }
  }

  /** Adding a listener that was not in `s` and then removing it gives back `s`. */
  lemma {:induction false} AddThenRemove<L>(s: seq<L>, l: L)
    requires l !in s
    ensures RemoveFirst(s + [l], l) == s
  {
    RemoveFirstAt(s + [l], l, |s|);
    assert (s + [l])[..|s|] == s;
  }

  /**
    On the whole table: add then remove of a new listener restores `t`'s list
    and every other entry; the only trace left is an empty entry for a type
    that had none.
   */
  lemma AddThenRemoveRestores<L>(m: map<string, seq<L>>, t: string, l: L)
    requires !Registered(m, t, l)
    ensures Removed(Added(m, t, l), t, l) == m[t := ListenersOf(m, t)]
  {
    AddThenRemove(ListenersOf(m, t), l);
  }

  /** Removing a listener registered once for `t` leaves it unregistered for `t`. */
  lemma {:induction false} RemoveLastOccurrence<L>(m: map<string, seq<L>>, t: string, l: L)
    requires t in m && multiset(m[t])[l] == 1
    ensures !Registered(Removed(m, t, l), t, l)
  {
    RemoveFirstMultiset(m[t], l);
  }
}
