/** The byte queue: a ring over a fixed array whose front, rear and size are
    8-bit counters. */
module RingBuffer {
  import opened Common

  /** A bounded first-in first-out queue: the view of the ring. */
  function Added(q: seq<Byte>, b: Byte, capacity: nat): seq<Byte> {
    if |q| < capacity then q + [b] else q
  }

  /** The byte removed, or 0 from an empty queue, and what remains. */
  function Removed(q: seq<Byte>): (Byte, seq<Byte>) {
    if q == [] then (0, q) else (q[0], q[1..])
  }

  /** An index at most once past the end wraps by one subtraction. */
  lemma WrapOnce(a: nat, capacity: nat)
    requires 0 < capacity && a < 2 * capacity
    ensures a % capacity == if a < capacity then a else a - capacity
  {
    if a >= capacity {
      assert a == 1 * capacity + (a - capacity);
      ModUnique(a, capacity, 1, a - capacity);
    } else {
      ModUnique(a, capacity, 0, a);
    }
  }

  lemma ModUnique(a: nat, d: nat, q: nat, r: nat)
    requires 0 < d && a == q * d + r && r < d
    ensures a % d == r
  {
    assert a == (a / d) * d + a % d;
    var k := a / d - q;
    assert k * d == r - a % d;
    Multiple(k, d);
  }

  lemma Multiple(k: int, d: nat)
    ensures k > 0 ==> k * d >= d
    ensures k < 0 ==> k * d + d <= 0
  {
  }

  /** The slot after i, as the 8-bit counter has it. */
  function Next(i: Byte, capacity: nat): (n: Byte)
    requires capacity > 0 && (i < capacity || capacity > 255)
    ensures n < capacity
    ensures capacity <= 255 ==> n == if i + 1 < capacity then i + 1 else 0
  {
    WrapOnce(i + 1, capacity);
    (i + 1) % capacity % 256
  }

  class ByteQueue {
    var front: Byte
    var rear: Byte
    var size: Byte
    const capacity: nat
    const bytes: array<Byte>

    /** The counters are in range, and rear is the slot before the next free
        one. */
    ghost predicate Valid()
      reads this
    {
      && capacity <= 255 && bytes.Length == capacity && size <= capacity
      && (capacity > 0 ==>
            && front < capacity && rear < capacity
            && (rear == front + size - 1 || rear == front + size - 1 + capacity || rear == front + size - 1 - capacity))
    }

    /** More slots than the 8-bit counters can tell apart. */
    ghost predicate Wide() {
      capacity > 255 && bytes.Length == capacity
    }

    /** The bytes in the queue, oldest first. */
    ghost function Contents(): (q: seq<Byte>)
      requires Valid()
      reads this, bytes
    {
      seq(size, k requires 0 <= k < size && Valid() reads this, bytes => bytes[Slot(k)])
    }

    /** Where the k-th byte lies. */
    ghost function Slot(k: nat): (s: nat)
      requires Valid() && k < size
      reads this
      ensures s < capacity
    {
      if front + k < capacity then front + k else front + k - capacity
    }

    constructor (capacity: nat)
      ensures this.capacity == capacity && fresh(bytes)
      ensures capacity <= 255 ==> Valid() && Contents() == []
      ensures capacity > 255 ==> Wide() && size == 0
    {
      this.capacity := capacity;
      front := 0;
      size := 0;
      rear := (capacity - 1) % 256;
      bytes := new Byte[capacity];
    }

    method IsFull() returns (full: bool)
      requires Valid()
      ensures full <==> |Contents()| == capacity
    {
      full := size == capacity;
    }

    method IsEmpty() returns (empty: bool)
      requires Valid()
      ensures empty <==> Contents() == []
    {
      empty := size == 0;
    }

    /** The two ends agree modulo the capacity. */
    lemma EndsAgree()
      requires Valid() && capacity > 0
      ensures (rear + 1) % capacity == (front + size) % capacity
    {
      WrapOnce(rear + 1, capacity);
      WrapOnce(front + size, capacity);
    }

    /** With more than 255 slots the queue is never full and its size is
        counted modulo 256. */
    method Add(item: Byte)
      requires Valid() || Wide()
      modifies this, bytes
      ensures old(Valid()) ==> Valid() && Contents() == Added(old(Contents()), item, capacity)
      ensures Wide() ==> size == (old(size) + 1) % 256
    {
      if size == capacity {
        return;
      }
      hide Next;
      rear := Next(rear, capacity);
      bytes[rear] := item;
      size := (size + 1) % 256;
    }

    method Remove() returns (item: Byte)
      requires Valid() || Wide()
      modifies this
      ensures old(Valid()) ==> Valid() && item == Removed(old(Contents())).0 && Contents() == Removed(old(Contents())).1
      ensures Wide() && old(size) == 0 ==> item == 0
    {
      if size == 0 {
        return 0;
      }
      item := bytes[front];
      hide Next;
      front := Next(front, capacity);
      size := size - 1;
    }

    method Front() returns (item: Byte)
      requires Valid()
      ensures item == if Contents() == [] then 0 else Contents()[0]
    {
      if size == 0 {
        return 0;
      }
      item := bytes[front];
    }

    method Rear() returns (item: Byte)
      requires Valid()
      ensures item == if Contents() == [] then 0 else Contents()[|Contents()| - 1]
    {
      if size == 0 {
        return 0;
      }
      item := bytes[rear];
    }
  }

  datatype Op = AddOp(item: Byte) | RemoveOp

  /** What a bounded queue answers to one operation, and what it then holds. */
  function Respond(q: seq<Byte>, capacity: nat, op: Op): (seq<Byte>, seq<Byte>) {
    match op
    case AddOp(item) => ([], Added(q, item, capacity))
    case RemoveOp => ([Removed(q).0], Removed(q).1)
  }

  /** The same for a sequence of operations. */
  function Behaviour(q: seq<Byte>, capacity: nat, ops: seq<Op>): (seq<Byte>, seq<Byte>)
    decreases |ops|
  {
    if ops == [] then ([], q)
    else
      var now := Respond(q, capacity, ops[0]);
      var later := Behaviour(now.1, capacity, ops[1..]);
      (now.0 + later.0, later.1)
  }

  /** One operation on the ring. */
  method Perform(q: ByteQueue, op: Op) returns (answer: seq<Byte>)
    requires q.Valid()
    modifies q, q.bytes
    ensures q.Valid() && (answer, q.Contents()) == Respond(old(q.Contents()), q.capacity, op)
  {
    match op {
      case AddOp(item) =>
        q.Add(item);
        answer := [];
      case RemoveOp =>
        var item := q.Remove();
        answer := [item];
    }
  }

  /** The first i operations answered, the rest still to come. */
  ghost predicate Answered(answers: seq<Byte>, q: seq<Byte>, capacity: nat, ops: seq<Op>, i: nat)
    requires i <= |ops|
  {
    var rest := Behaviour(q, capacity, ops[i..]);
    Behaviour([], capacity, ops) == (answers + rest.0, rest.1)
  }

  lemma AnsweredStep(answers: seq<Byte>, q: seq<Byte>, capacity: nat, ops: seq<Op>, i: nat)
    requires i < |ops| && Answered(answers, q, capacity, ops, i)
    ensures var now := Respond(q, capacity, ops[i]); Answered(answers + now.0, now.1, capacity, ops, i + 1)
  {
    var now := Respond(q, capacity, ops[i]);
    assert ops[i..][0] == ops[i] && ops[i..][1..] == ops[i + 1..];
    var later := Behaviour(now.1, capacity, ops[i + 1..]);
    assert answers + (now.0 + later.0) == answers + now.0 + later.0;
  }

  /** For every capacity up to 255 and every sequence of operations, the ring
      answers as the bounded queue does and ends with the same contents. */
  method Exercise(capacity: nat, ops: seq<Op>) returns (answers: seq<Byte>, q: ByteQueue)
    requires capacity <= 255
    ensures q.Valid() && (answers, q.Contents()) == Behaviour([], capacity, ops)
  {
    q := new ByteQueue(capacity);
    answers := [];
    var i := 0;
    assert ops[0..] == ops;
    assert [] + Behaviour([], capacity, ops).0 == Behaviour([], capacity, ops).0;
    while i < |ops|
      invariant i <= |ops| && q.Valid() && q.capacity == capacity && fresh(q) && fresh(q.bytes)
      invariant Answered(answers, q.Contents(), capacity, ops, i)
    {
      hide Answered, Respond, ByteQueue.Contents, ByteQueue.Valid;
      AnsweredStep(answers, q.Contents(), capacity, ops, i);
      var answer := Perform(q, ops[i]);
      answers := answers + answer;
      i := i + 1;
    }
    assert answers + [] == answers;
  }

  /** Added one after another to an empty queue and then removed, the bytes come
      out in the order in which they went in, as many as there is room for, and
      then zeros. */
  lemma FillAndDrain(s: seq<Byte>, capacity: nat, k: nat)
    ensures var answers := Behaviour([], capacity, Adds(s) + Removals(k)).0;
            |answers| == k && forall i :: 0 <= i < k ==> answers[i] == if i < |s| && i < capacity then s[i] else 0
  {
    FirstIn([], s, capacity, Removals(k));
    DrainOut(s[..Kept(0, s, capacity)], capacity, k);
    assert [] + s[..Kept(0, s, capacity)] == s[..Kept(0, s, capacity)];
  }

  function Adds(s: seq<Byte>): seq<Op> {
    if s == [] then [] else [AddOp(s[0])] + Adds(s[1..])
  }

  function Removals(k: nat): seq<Op> {
    if k == 0 then [] else [RemoveOp] + Removals(k - 1)
  }

  /** How many of the bytes find room. */
  function Kept(used: nat, s: seq<Byte>, capacity: nat): (k: nat)
    ensures k <= |s|
  {
    if used >= capacity then 0 else if capacity - used < |s| then capacity - used else |s|
  }

  lemma NextKept(q: seq<Byte>, s: seq<Byte>, capacity: nat)
    requires |q| <= capacity && s != []
    ensures var q' := Added(q, s[0], capacity);
            |q'| <= capacity && q' + s[1..][..Kept(|q'|, s[1..], capacity)] == q + s[..Kept(|q|, s, capacity)]
  {
    var k := Kept(|q|, s, capacity);
    if k > 0 {
      assert s[..k] == [s[0]] + s[1..][..k - 1];
    }
  }

  lemma {:induction false} FirstIn(q: seq<Byte>, s: seq<Byte>, capacity: nat, then': seq<Op>)
    requires |q| <= capacity
    ensures Behaviour(q, capacity, Adds(s) + then') == Behaviour(q + s[..Kept(|q|, s, capacity)], capacity, then')
    decreases |s|
  {
    if s == [] {
      assert Adds(s) + then' == then' && q + s[..Kept(|q|, s, capacity)] == q;
    } else {
      assert (Adds(s) + then')[1..] == Adds(s[1..]) + then';
      var q' := Added(q, s[0], capacity);
      hide Added, Kept;
      NextKept(q, s, capacity);
      FirstIn(q', s[1..], capacity, then');
      var later := Behaviour(q', capacity, (Adds(s) + then')[1..]);
      assert [] + later.0 == later.0;
    }
  }

  lemma {:induction false} DrainOut(q: seq<Byte>, capacity: nat, k: nat)
    ensures var answers := Behaviour(q, capacity, Removals(k)).0;
            |answers| == k && forall i :: 0 <= i < k ==> answers[i] == if i < |q| then q[i] else 0
    decreases k
  {
    if k > 0 {
      assert Removals(k)[1..] == Removals(k - 1);
      DrainOut(Removed(q).1, capacity, k - 1);
    }
  }

  /** The bound is exact: with more slots, 256 additions count back to an empty
      queue, which answers 0 where the bounded queue holds every byte added. */
  method Overfill(capacity: nat) returns (item: Byte)
    requires capacity > 255
    ensures item == 0
    ensures Removed(Behaviour([], capacity, Additions(256)).1).0 == 1
  {
    var q := new ByteQueue(capacity);
    var i := 0;
    while i < 256
      invariant i <= 256 && q.Wide() && fresh(q) && fresh(q.bytes) && q.size == i % 256
    {
      q.Add(1);
      i := i + 1;
    }
    item := q.Remove();
    AdditionsKept([], capacity, 256);
  }

  function Additions(n: nat): seq<Op> {
    if n == 0 then [] else [AddOp(1)] + Additions(n - 1)
  }

  lemma {:induction false} AdditionsKept(q: seq<Byte>, capacity: nat, n: nat)
    requires |q| + n <= capacity && (q != [] ==> q[0] == 1)
    ensures var r := Behaviour(q, capacity, Additions(n)).1;
            |r| == |q| + n && (r != [] ==> r[0] == 1)
    decreases n
  {
    if n > 0 {
      assert Additions(n)[1..] == Additions(n - 1);
      AdditionsKept(q + [1], capacity, n - 1);
    }
  }
}
