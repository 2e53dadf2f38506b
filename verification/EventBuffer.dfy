/** The buffer between the interrupts and the input handler. Despite its name in
    the source it gives events back last in, first out. */
module EventBuffer {
  import opened Common

  class Buffer<T(0)> {
    var size: nat
    const capacity: nat
    const items: array<T>

    ghost predicate Valid()
      reads this
    {
      items.Length == capacity && size <= capacity
    }

    ghost function Contents(): seq<T>
      requires Valid()
      reads this, items
    {
      items[..size]
    }

    constructor (capacity: nat)
      ensures Valid() && this.capacity == capacity && Contents() == [] && fresh(items)
    {
      this.capacity := capacity;
      size := 0;
      items := new T[capacity];
    }

    method IsEmpty() returns (empty: bool)
      requires Valid()
      ensures empty <==> Contents() == []
    {
      empty := size == 0;
    }

    /** pushEvent: an event that finds the buffer full is dropped. */
    method Push(event: T)
      requires Valid()
      modifies this, items
      ensures Valid()
      ensures Contents() == if |old(Contents())| < capacity then old(Contents()) + [event] else old(Contents())
    {
      if size == capacity {
        return;
      }
      items[size] := event;
      size := size + 1;
    }

    /** popEvent: the newest event, or none. */
    method Pop() returns (event: Option<T>)
      requires Valid()
      modifies this
      ensures Valid()
      ensures if old(Contents()) == [] then event == None && Contents() == []
              else event == Some(old(Contents())[|old(Contents())| - 1]) &&
                   Contents() == old(Contents())[..|old(Contents())| - 1]
    {
      if size == 0 {
        return None;
      }
      size := size - 1;
      event := Some(items[size]);
    }
  }

  function Reverse<T>(s: seq<T>): seq<T>
    decreases |s|
  {
    if s == [] then [] else Reverse(s[1..]) + [s[0]]
  }

  /** Reversing puts the last element first. */
  lemma {:induction false} ReverseLast<T>(s: seq<T>, x: T)
    ensures Reverse(s + [x]) == [x] + Reverse(s)
    decreases |s|
  {
    if s == [] {
      assert [x][1..] == [];
    } else {
      assert (s + [x])[1..] == s[1..] + [x];
      ReverseLast(s[1..], x);
    }
  }

  /** The inner loop of the main loop: pop and handle until the buffer is
      empty. Every event is handled once, newest first. */
  method HandleAll<T(0)>(b: Buffer<T>) returns (handled: seq<T>)
    requires b.Valid()
    modifies b
    ensures b.Valid() && b.Contents() == []
    ensures handled == Reverse(old(b.Contents()))
  {
    hide Reverse;
    handled := [];
    var empty := b.IsEmpty();
    assert [] + Reverse(b.Contents()) == Reverse(b.Contents());
    while !empty
      invariant b.Valid() && (empty <==> b.Contents() == [])
      invariant handled + Reverse(b.Contents()) == Reverse(old(b.Contents()))
      decreases b.size
    {
      ghost var was, before := b.Contents(), handled;
      var event := b.Pop();
      assert was == b.Contents() + [event.value];
      ReverseLast(b.Contents(), event.value);
      handled := handled + [event.value];
      assert before + ([event.value] + Reverse(b.Contents())) == handled + Reverse(b.Contents());
      empty := b.IsEmpty();
    }
    ReverseNone<T>();
    assert handled + [] == handled;
  }

  lemma ReverseNone<T>()
    ensures Reverse<T>([]) == []
  {
  }

  /** The events one hardware message can raise: a timer tick, a complete mouse
      packet, a key, in the order the interrupts are served. */
  function Raised<T>(tick: Option<T>, mouse: Option<T>, key: Option<T>): seq<T> {
    (if tick.Some? then [tick.value] else []) + (if mouse.Some? then [mouse.value] else []) +
    (if key.Some? then [key.value] else [])
  }

  /** One round of the main loop: the events raised by a message are pushed,
      then the buffer is emptied into the handler. The buffer never holds more
      than three events, it is empty at the head of the loop again, and each
      event is handled once, newest first. */
  method Round<T(0)>(b: Buffer<T>, tick: Option<T>, mouse: Option<T>, key: Option<T>) returns (handled: seq<T>, most: nat)
    requires b.Valid() && b.capacity >= 3 && b.Contents() == []
    modifies b, b.items
    ensures b.Valid() && b.Contents() == []
    ensures most <= 3 && handled == Reverse(Raised(tick, mouse, key))
    ensures handled == (if key.Some? then [key.value] else []) + (if mouse.Some? then [mouse.value] else []) +
                       (if tick.Some? then [tick.value] else [])
  {
    if tick.Some? {
      b.Push(tick.value);
    }
    if mouse.Some? {
      b.Push(mouse.value);
    }
    if key.Some? {
      b.Push(key.value);
    }
    assert b.Contents() == Raised(tick, mouse, key);
    most := b.size;
    handled := HandleAll(b);
    KeyFirst(tick, mouse, key);
  }

  /** Of the events of one message the key is handled first, then the mouse
      packet, then the tick. */
  lemma KeyFirst<T>(tick: Option<T>, mouse: Option<T>, key: Option<T>)
    ensures Reverse(Raised(tick, mouse, key)) ==
            (if key.Some? then [key.value] else []) + (if mouse.Some? then [mouse.value] else []) +
            (if tick.Some? then [tick.value] else [])
  {
    var r := Raised(tick, mouse, key);
    var k := (if key.Some? then [key.value] else []) + (if mouse.Some? then [mouse.value] else []) +
             (if tick.Some? then [tick.value] else []);
    assert |r| == |k| <= 3;
    ReverseAt(r);
    assert Reverse(r) == k;
  }

  lemma {:induction false} ReverseAt<T>(s: seq<T>)
    ensures |Reverse(s)| == |s| && forall i :: 0 <= i < |s| ==> Reverse(s)[i] == s[|s| - 1 - i]
    decreases |s|
  {
    if s != [] {
      ReverseAt(s[1..]);
    }
  }
}
