/** Two copies of the program joined by a lossless first-in first-out wire in
    each direction, as a step system. */
module Network {
  import opened Common
  import opened Game
  import RingBuffer

  const QUEUE_CAPACITY := 10

  /** A peer: its program state, its transmit and receive queues, and whether
      it has run the clean-up that follows the main loop. `sent` and `taken`
      are history: every byte handed to the transmit queue, and every byte the
      program has read or cleared on the receiving side. */
  datatype Node = Node(core: Core, tx: seq<Byte>, rx: seq<Byte>, closed: bool, sent: seq<Byte>, taken: seq<Byte>)

  /** The pair seen from one side: `out` is the wire from me to you, `inn` the
      wire from you to me. */
  datatype Net = Net(me: Node, you: Node, out: seq<Byte>, inn: seq<Byte>)

  function Swap(n: Net): Net { Net(n.you, n.me, n.inn, n.out) }

  /** One step of a peer. `arrived` says how much of the incoming wire the
      serial port has ready while the step runs. */
  datatype Action =
    | Write                               // sp_write finds the port ready
    | Read                                // sp_read finds a byte
    | Input(event: Event, arrived: nat)   // inputHandler on one event
    | Close(arrived: nat)                 // sp_clear in sp_unsubscribe_int

  predicate NetShape(n: Net) { Shape(n.me.core) && Shape(n.you.core) }

  /** addToQueue on a queue of ten: a byte that finds no room is dropped. */
  function Enqueue(q: seq<Byte>, b: Byte): seq<Byte> {
    RingBuffer.Added(q, b, QUEUE_CAPACITY)
  }

  function EnqueueAll(q: seq<Byte>, bytes: seq<Byte>): seq<Byte>
    decreases |bytes|
  {
    if bytes == [] then q else EnqueueAll(Enqueue(q, bytes[0]), bytes[1..])
  }

  /** sp_read. */
  function Receive(n: Net): Net {
    if n.inn == [] then n
    else n.(me := n.me.(rx := Enqueue(n.me.rx, n.inn[0])), inn := n.inn[1..])
  }

  /** sp_clear: everything that has arrived is thrown away. */
  function Clear(n: Net, arrived: nat): Net {
    var k := Min(arrived, |n.inn|);
    n.(me := n.me.(rx := [], taken := n.me.taken + n.me.rx + n.inn[..k]), inn := n.inn[k..])
  }

  /** The byte readFromQueue gives to a handler that reads: the next one, or 0
      when the queue is empty or the event does not read. */
  function ByteRead(n: Net, event: Event): Byte {
    if Reads(n.me.core, event) && n.me.rx != [] then n.me.rx[0] else 0
  }

  function TakeByte(n: Net, event: Event): Net {
    if Reads(n.me.core, event) && n.me.rx != []
    then n.(me := n.me.(rx := n.me.rx[1..], taken := n.me.taken + [n.me.rx[0]]))
    else n
  }

  function Send(n: Net, core: Core, bytes: seq<Byte>): Net {
    n.(me := n.me.(core := core, tx := EnqueueAll(n.me.tx, bytes), sent := n.me.sent + bytes))
  }

  /** inputHandler on one event: the byte taken off the receive queue goes to
      the handler, and what the handler sends goes to the transmit queue. */
  ghost function EventStep(n: Net, event: Event, arrived: nat): (r: Net)
    requires NetShape(n)
    ensures NetShape(r)
  {
    var o := Handle(n.me.core, event, ByteRead(n, event));
    var m := Send(TakeByte(n, event), o.core, o.send);
    if o.clear then Clear(m, arrived) else m
  }

  /** waiting_choosing_ih reads the port itself before it takes a byte. */
  ghost function InputStep(n: Net, event: Event, arrived: nat): (r: Net)
    requires NetShape(n)
    ensures NetShape(r)
  {
    if n.me.core.state == WaitChoosingPlayer && event.NewFrame? && arrived > 0
    then EventStep(Receive(n), event, arrived)
    else EventStep(n, event, arrived)
  }

  /** One step of the first peer; a step that is not enabled changes nothing.
      After the main loop a peer still drains its transmit queue. */
  ghost function Act(n: Net, a: Action): (r: Net)
    requires NetShape(n)
    ensures NetShape(r)
  {
    match a
    case Write =>
      if n.me.tx != [] && n.me.core.state != Crashed
      then n.(me := n.me.(tx := n.me.tx[1..]), out := n.out + [n.me.tx[0]]) else n
    case Read =>
      if n.me.core.state != Exit && n.me.core.state != Crashed then Receive(n) else n
    case Input(event, arrived) => InputStep(n, event, arrived)
    case Close(arrived) =>
      if n.me.core.state == Exit then
        var m := Clear(n, arrived);
        m.(me := m.me.(closed := true))
      else n
  }

  /** A step of either peer. */
  ghost function Step(n: Net, first: bool, a: Action): (r: Net)
    requires NetShape(n)
    ensures NetShape(r)
  {
    if first then Act(n, a) else Swap(Act(Swap(n), a))
  }

  type Schedule = seq<(bool, Action)>

  /** Any interleaving of the steps of the two peers. */
  ghost function Run(n: Net, s: Schedule): (r: Net)
    requires NetShape(n)
    ensures NetShape(r)
    decreases |s|
  {
    if s == [] then n else Run(Step(n, s[0].0, s[0].1), s[1..])
  }

  function InitNode(): Node { Node(InitCore(), [], [], false, [], []) }

  function InitNet(): Net { Net(InitNode(), InitNode(), [], []) }

  lemma InitShape()
    ensures NetShape(InitNet())
  {
  }

  /** Bytes under way from me to you, in the order they will be read. */
  function Flow(n: Net): seq<Byte> { n.you.rx + n.out + n.me.tx }

  /** The player presses ENTER, connecting, while the other side's
      VM_CONNECTED is still on its way: the two handshakes cross. A caller can
      see it beforehand: the other peer has connected, and what it sent has
      not all arrived. */
  predicate Crossing(n: Net, a: Action) {
    && a.Input? && Connects(n.me.core, a.event)
    && n.you.core.state != Start && (n.you.tx != [] || |n.inn| > a.arrived)
  }

  /** The step drops a piece and the move touches square (0, 0). */
  ghost predicate CornerMove(n: Net, a: Action)
    requires NetShape(n)
  {
    a.Input? && CornerDrop(n.me.core, a.event)
  }

  ghost predicate CornerDrop(c: Core, event: Event)
    requires Shape(c)
  {
    var send := Handle(c, event, 0).send;
    |send| == 4 && (send[1] == 0 || send[2] == 0)
  }

  /** No two handshakes cross in the run, and with `strict` no move touches
      square (0, 0) either. */
  ghost predicate Clean(strict: bool, n: Net, s: Schedule)
    requires NetShape(n)
    decreases |s|
  {
    s == [] ||
    (var m := if s[0].0 then n else Swap(n);
     !Crossing(m, s[0].1) && (strict ==> !CornerMove(m, s[0].1)) &&
     Clean(strict, Step(n, s[0].0, s[0].1), s[1..]))
  }
}
