/** The invariant of the connected pair and its preservation by every step, so
    that it holds in every interleaving. */
module NetworkInvariant {
  import opened Common
  import opened Game
  import opened GameInvariants
  import opened HandlerSummary
  import opened Network
  import opened Protocol

  ghost predicate NetInv(strict: bool, n: Net) {
    && LocalInv(n.me.core) && LocalInv(n.you.core)
    && Phases(strict, n.me.core, n.you.core, Flow(n), Flow(Swap(n)), n.me.closed, n.you.closed)
    && (n.me.closed ==> n.me.core.state == Exit) && (n.you.closed ==> n.you.core.state == Exit)
    // what one peer has taken, followed by what is under way to it, is what
    // the other peer has sent
    && n.you.taken + Flow(n) == n.me.sent && n.me.taken + Flow(Swap(n)) == n.you.sent
  }

  /** At most six bytes are under way in either direction. */
  lemma FlowBound(strict: bool, p: Core, q: Core, f: seq<Byte>, g: seq<Byte>, pClosed: bool, qClosed: bool)
    requires Shape(p) && Shape(q) && Phases(strict, p, q, f, g, pClosed, qClosed)
    ensures |f| <= 6 && |g| <= 6
  {
  }

  /** Nothing is under way to a player who holds the turn. */
  lemma TurnMeansQuiet(strict: bool, p: Core, q: Core, f: seq<Byte>, g: seq<Byte>, pClosed: bool, qClosed: bool)
    requires LocalInv(p) && Shape(q) && Phases(strict, p, q, f, g, pClosed, qClosed)
    requires p.myTurn
    ensures g == []
  {
    assert Shape(p) && InGame(p.state);
    hide LocalInv, Shape, Parsed, Ahead, Agreed;
  }

  lemma {:induction false} EnqueueAllFits(q: seq<Byte>, bytes: seq<Byte>)
    requires |q| + |bytes| <= QUEUE_CAPACITY
    ensures EnqueueAll(q, bytes) == q + bytes
    decreases |bytes|
  {
    if bytes == [] {
      assert q + bytes == q;
    } else {
      EnqueueAllFits(q + [bytes[0]], bytes[1..]);
      assert q + [bytes[0]] + bytes[1..] == q + bytes;
    }
  }

  lemma SwapKeeps(strict: bool, n: Net)
    requires NetInv(strict, n)
    ensures NetInv(strict, Swap(n))
  {
  }

  /** Moving a byte along its way changes no flow. */
  lemma WriteFlow(n: Net)
    requires n.me.tx != []
    ensures var m := n.(me := n.me.(tx := n.me.tx[1..]), out := n.out + [n.me.tx[0]]);
            Flow(m) == Flow(n) && Flow(Swap(m)) == Flow(Swap(n))
  {
    assert n.me.tx == [n.me.tx[0]] + n.me.tx[1..];
    assert n.you.rx + (n.out + [n.me.tx[0]]) + n.me.tx[1..] == n.you.rx + n.out + ([n.me.tx[0]] + n.me.tx[1..]);
  }

  lemma ReceiveFlow(n: Net)
    requires |n.me.rx| < QUEUE_CAPACITY
    ensures Flow(Receive(n)) == Flow(n) && Flow(Swap(Receive(n))) == Flow(Swap(n))
  {
    if n.inn != [] {
      assert n.inn == [n.inn[0]] + n.inn[1..];
      assert n.me.rx + [n.inn[0]] + n.inn[1..] + n.you.tx == n.me.rx + ([n.inn[0]] + n.inn[1..]) + n.you.tx;
    }
  }

  lemma ReceiveKeeps(strict: bool, n: Net)
    requires NetInv(strict, n)
    ensures NetInv(strict, Receive(n))
  {
    FlowBound(strict, n.me.core, n.you.core, Flow(n), Flow(Swap(n)), n.me.closed, n.you.closed);
    ReceiveFlow(n);
    hide LocalInv, Phases, Flow;
  }

  lemma TakeFlow(n: Net, event: Event)
    ensures var m := TakeByte(n, event);
            && Flow(m) == Flow(n)
            && m.me.taken + Flow(Swap(m)) == n.me.taken + Flow(Swap(n))
            && Reading(n.me.core, event, ByteRead(n, event), Flow(Swap(n)), Flow(Swap(m)))
  {
    if Reads(n.me.core, event) && n.me.rx != [] {
      var b, t := n.me.rx[0], n.me.rx[1..];
      assert n.me.rx == [b] + t;
      assert Flow(Swap(n)) == [b] + (t + n.inn + n.you.tx);
      assert n.me.taken + [b] + (t + n.inn + n.you.tx) == n.me.taken + ([b] + (t + n.inn + n.you.tx));
    }
  }

  lemma SendFlow(n: Net, core: Core, bytes: seq<Byte>)
    requires |n.me.tx| + |bytes| <= QUEUE_CAPACITY
    ensures var m := Send(n, core, bytes);
            Flow(m) == Flow(n) + bytes && Flow(Swap(m)) == Flow(Swap(n))
  {
    EnqueueAllFits(n.me.tx, bytes);
    assert n.you.rx + n.out + (n.me.tx + bytes) == n.you.rx + n.out + n.me.tx + bytes;
  }

  lemma ClearFlow(n: Net, arrived: nat)
    ensures var m := Clear(n, arrived);
            && Flow(m) == Flow(n)
            && Flow(Swap(m)) == n.inn[Min(arrived, |n.inn|)..] + n.you.tx
            && Flow(Swap(m)) == Flow(Swap(n))[|n.me.rx| + Min(arrived, |n.inn|)..]
            && m.me.taken + Flow(Swap(m)) == n.me.taken + Flow(Swap(n))
  {
    var k := Min(arrived, |n.inn|);
    SplitFlow(n.me.taken, n.me.rx, n.inn, n.you.tx, k);
  }

  /** Taking a prefix of what is under way. */
  lemma SplitFlow(taken: seq<Byte>, rx: seq<Byte>, inn: seq<Byte>, tx: seq<Byte>, k: nat)
    requires k <= |inn|
    ensures [] + inn[k..] + tx == inn[k..] + tx == (rx + inn + tx)[|rx| + k..]
    ensures taken + rx + inn[..k] + (inn[k..] + tx) == taken + (rx + inn + tx)
  {
    assert inn == inn[..k] + inn[k..];
  }

  /** The flows and the history after an event whose sends fit the queue. */
  lemma EventFlow(n: Net, event: Event, arrived: nat)
    requires NetShape(n)
    requires |n.me.tx| + |Handle(n.me.core, event, ByteRead(n, event)).send| <= QUEUE_CAPACITY
    ensures var o := Handle(n.me.core, event, ByteRead(n, event));
            var r := EventStep(n, event, arrived);
            && r.me.core == o.core && r.you.core == n.you.core
            && r.me.closed == n.me.closed && r.you.closed == n.you.closed
            && r.me.sent == n.me.sent + o.send && r.you.sent == n.you.sent && r.you.taken == n.you.taken
            && Flow(r) == Flow(n) + o.send && r.you.taken + Flow(r) == n.you.taken + Flow(n) + o.send
            && Flow(Swap(r)) == (if o.clear then n.inn[Min(arrived, |n.inn|)..] + n.you.tx
                                 else Flow(Swap(TakeByte(n, event))))
            && r.me.taken + Flow(Swap(r)) == n.me.taken + Flow(Swap(n))
  {
    var o := Handle(n.me.core, event, ByteRead(n, event));
    TakeFlow(n, event);
    SendFlow(TakeByte(n, event), o.core, o.send);
    var m := Send(TakeByte(n, event), o.core, o.send);
    ClearFlow(m, arrived);
    assert n.you.taken + (Flow(n) + o.send) == n.you.taken + Flow(n) + o.send;
  }

  /** The phases after an event. */
  lemma EventPhases(strict: bool, n: Net, event: Event, arrived: nat)
    requires NetInv(strict, n) && !Crossing(n, Input(event, arrived))
    requires strict ==> !CornerDrop(n.me.core, event)
    ensures var o := Handle(n.me.core, event, ByteRead(n, event));
            && LocalInv(o.core)
            && Phases(strict, o.core, n.you.core, Flow(n) + o.send,
                      if o.clear then [] else Flow(Swap(TakeByte(n, event))), n.me.closed, n.you.closed)
            && (o.clear ==> n.inn[Min(arrived, |n.inn|)..] + n.you.tx == [])
  {
    hide LocalInv, Shape, Handle, Phase, Flow, CornerDrop;
    InvShape(strict, n);
    var p, q, f, g := n.me.core, n.you.core, Flow(n), Flow(Swap(n));
    var byte, left := ByteRead(n, event), Flow(Swap(TakeByte(n, event)));
    TakeFlow(n, event);
    ReadsInTurn(strict, n, event);
    HandleKeeps(p, event, byte);
    OnlyConnectClears(p, event, byte);
    if Phase(strict, p, q, f, g, n.you.closed) {
      LeadsPhase(strict, p, q, f, g, left, event, byte, n.me.closed, n.you.closed);
      if p.state == Start && q.state == Start {
        BothStart(strict, p, q, f, g, n.me.closed, n.you.closed);
      }
    } else {
      FollowsPhase(strict, p, q, f, g, left, event, byte, n.me.closed, n.you.closed);
    }
    ClearedAll(strict, n, event, arrived);
  }

  lemma InvShape(strict: bool, n: Net)
    requires NetInv(strict, n)
    ensures NetShape(n)
  {
  }

  /** When connecting does not cross, nothing that is on its way survives it. */
  lemma ClearedAll(strict: bool, n: Net, event: Event, arrived: nat)
    requires NetInv(strict, n) && !Crossing(n, Input(event, arrived))
    ensures Handle(n.me.core, event, ByteRead(n, event)).clear ==> n.inn[Min(arrived, |n.inn|)..] + n.you.tx == []
  {
    hide LocalInv, Shape, Handle, Phase;
    InvShape(strict, n);
    OnlyConnectClears(n.me.core, event, ByteRead(n, event));
    if n.me.core.state == Start && n.you.core.state == Start {
      BothStart(strict, n.me.core, n.you.core, Flow(n), Flow(Swap(n)), n.me.closed, n.you.closed);
    }
  }

  lemma BothStart(strict: bool, p: Core, q: Core, f: seq<Byte>, g: seq<Byte>, pClosed: bool, qClosed: bool)
    requires Shape(p) && Shape(q) && Phases(strict, p, q, f, g, pClosed, qClosed) && p.state == Start && q.state == Start
    ensures g == []
  {
  }

  /** No byte reaches a player who holds the turn. */
  lemma ReadsInTurn(strict: bool, n: Net, event: Event)
    requires NetInv(strict, n)
    ensures n.me.core.state == Playing && ByteRead(n, event) != 0 ==> !n.me.core.myTurn
  {
    TakeFlow(n, event);
    if n.me.core.myTurn {
      TurnMeansQuiet(strict, n.me.core, n.you.core, Flow(n), Flow(Swap(n)), n.me.closed, n.you.closed);
    }
    hide LocalInv, Phases;
  }

  /** What an event sends always fits the transmit queue. */
  lemma EventFits(strict: bool, n: Net, event: Event, arrived: nat)
    requires NetInv(strict, n) && !Crossing(n, Input(event, arrived))
    requires strict ==> !CornerDrop(n.me.core, event)
    ensures |n.me.tx| + |Handle(n.me.core, event, ByteRead(n, event)).send| <= 6
  {
    EventPhases(strict, n, event, arrived);
    var o := Handle(n.me.core, event, ByteRead(n, event));
    FlowBound(strict, o.core, n.you.core, Flow(n) + o.send,
              if o.clear then [] else Flow(Swap(TakeByte(n, event))), n.me.closed, n.you.closed);
  }

  lemma EventKeeps(strict: bool, n: Net, event: Event, arrived: nat)
    requires NetInv(strict, n) && !Crossing(n, Input(event, arrived))
    requires strict ==> !CornerDrop(n.me.core, event)
    ensures NetInv(strict, EventStep(n, event, arrived))
  {
    assert NetShape(n);
    hide LocalInv, Phases, Handle, Flow, EventStep, Crossing, CornerDrop;
    EventPhases(strict, n, event, arrived);
    EventFits(strict, n, event, arrived);
    EventFlow(n, event, arrived);
    if n.me.closed {
      ExitStays(n.me.core, event, ByteRead(n, event));
    }
  }

  lemma ExitStays(p: Core, event: Event, byte: Byte)
    requires Shape(p) && p.state == Exit
    ensures Handle(p, event, byte).core == p
  {
  }

  /** What the clean-up after the main loop does to the node and the flows. */
  lemma CloseFlow(n: Net, arrived: nat)
    requires NetShape(n) && n.me.core.state == Exit
    ensures var r := Act(n, Close(arrived));
            var k := |n.me.rx| + Min(arrived, |n.inn|);
            && r.me.core == n.me.core && r.me.closed && r.me.sent == n.me.sent && r.you == n.you
            && Flow(r) == Flow(n) && k <= |Flow(Swap(n))| && Flow(Swap(r)) == Flow(Swap(n))[k..]
            && r.me.taken + Flow(Swap(r)) == n.me.taken + Flow(Swap(n))
  {
    ClearFlow(n, arrived);
    hide Shape;
  }

  lemma CloseKeeps(strict: bool, n: Net, arrived: nat)
    requires NetInv(strict, n)
    ensures NetInv(strict, Act(n, Close(arrived)))
  {
    hide LocalInv, Phases, Flow, Shape, Act;
    ShapesHold(strict, n);
    if n.me.core.state == Exit {
      CloseFlow(n, arrived);
      var k := |n.me.rx| + Min(arrived, |n.inn|);
      ClosePhases(strict, n.me.core, n.you.core, Flow(n), Flow(Swap(n)), k, n.me.closed, n.you.closed);
    } else {
      CloseWaits(n, arrived);
    }
  }

  lemma ShapesHold(strict: bool, n: Net)
    requires NetInv(strict, n)
    ensures NetShape(n) && Shape(n.me.core) && Shape(n.you.core)
  {
  }

  lemma CloseWaits(n: Net, arrived: nat)
    requires NetShape(n) && n.me.core.state != Exit
    ensures Act(n, Close(arrived)) == n
  {
    hide Shape;
  }

  /** A peer that has left the game may throw away what reaches it. */
  lemma ClosePhases(strict: bool, p: Core, q: Core, f: seq<Byte>, g: seq<Byte>, k: nat, pClosed: bool, qClosed: bool)
    requires Shape(p) && Shape(q) && p.state == Exit && k <= |g|
    requires Phases(strict, p, q, f, g, pClosed, qClosed)
    ensures Phases(strict, p, q, f, g[k..], true, qClosed)
  {
    if Phase(strict, p, q, f, g, qClosed) {
      assert g == [];
    } else if TransitPhase(strict, q, p, g, f, pClosed) {
      var from: Square, to: Square :| from.OnBoard() && to.OnBoard() && Transit(strict, q, p, g, f, pClosed, from, to);
      assert Transit(strict, q, p, g[k..], f, true, from, to);
    }
  }

  /** Every step of a peer keeps the invariant. */
  lemma ActKeeps(strict: bool, n: Net, a: Action)
    requires NetInv(strict, n) && !Crossing(n, a) && (strict ==> !CornerMove(n, a))
    ensures NetInv(strict, Act(n, a))
  {
    assert NetShape(n);
    hide LocalInv, Phases, Flow, EventStep, Crossing, CornerDrop;
    match a
    case Write =>
      if n.me.tx != [] {
        WriteFlow(n);
      }
    case Read => ReceiveKeeps(strict, n);
    case Close(arrived) => CloseKeeps(strict, n, arrived);
    case Input(event, arrived) =>
      ReceiveKeeps(strict, n);
      if n.me.core.state == WaitChoosingPlayer && event.NewFrame? && arrived > 0 {
        EventKeeps(strict, Receive(n), event, arrived);
      } else {
        EventKeeps(strict, n, event, arrived);
      }
  }

  lemma StepKeeps(strict: bool, n: Net, first: bool, a: Action)
    requires NetInv(strict, n)
    requires var m := if first then n else Swap(n); !Crossing(m, a) && (strict ==> !CornerMove(m, a))
    ensures NetInv(strict, Step(n, first, a))
  {
    if first {
      ActKeeps(strict, n, a);
    } else {
      SwapKeeps(strict, n);
      ActKeeps(strict, Swap(n), a);
      SwapKeeps(strict, Act(Swap(n), a));
    }
  }

  /** The invariant holds at the end of every clean run. */
  lemma {:induction false} RunKeeps(strict: bool, n: Net, s: Schedule)
    requires NetInv(strict, n) && Clean(strict, n, s)
    ensures NetInv(strict, Run(n, s))
    decreases |s|
  {
    assert NetShape(n);
    hide NetInv, NetShape, Step, Crossing, CornerMove;
    if s != [] {
      StepKeeps(strict, n, s[0].0, s[0].1);
      RunKeeps(strict, Step(n, s[0].0, s[0].1), s[1..]);
    }
  }

  lemma InitialNetInv(strict: bool)
    ensures NetInv(strict, InitNet())
  {
    InitialInv();
    var n := InitNet();
    assert Idle(n.me.core, n.you.core, Flow(n), Flow(Swap(n)));
  }
}
