/** The outcome of the handshake, decided by whether two VM_CONNECTED bytes
    cross: every run falls into one of two classes, and each has its own
    invariant. */
module Handshake {
  import opened Common
  import opened Codec
  import opened Geometry
  import opened Chess
  import opened PieceMotion
  import opened Game
  import opened GameInvariants
  import opened HandlerSummary
  import opened Network
  import opened Protocol
  import opened NetworkInvariant
  import opened Theorems

  // ---------------------------------------------------------------------
  // Uncrossed runs

  /** At any moment of an uncrossed run at most one peer is choosing and at
      most one is waiting for the choice, and two players in the game have
      opposite colours. */
  lemma OneSided(s: Schedule, n: Net)
    requires Reached(false, s, n)
    ensures !(n.me.core.state == ChoosingPlayer && n.you.core.state == ChoosingPlayer)
    ensures !(n.me.core.state == WaitChoosingPlayer && n.you.core.state == WaitChoosingPlayer)
    ensures n.me.core.state == WaitChoosingPlayer ==> n.you.core.state == ChoosingPlayer || InGame(n.you.core.state)
    ensures InGame(n.me.core.state) && InGame(n.you.core.state) ==> Opposite(n.me.core, n.you.core)
  {
    ReachedInv(false, s, n);
    var p, q, f, g := n.me.core, n.you.core, Flow(n), Flow(Swap(n));
    if Phase(false, p, q, f, g, n.you.closed) {
      PhaseOneSided(p, q, f, g, n.you.closed);
    } else {
      PhaseOneSided(q, p, g, f, n.me.closed);
    }
  }

  /** p, the leading peer, chooses; q waits for the choice. */
  lemma PhaseOneSided(p: Core, q: Core, f: seq<Byte>, g: seq<Byte>, qClosed: bool)
    requires Shape(p) && Shape(q) && Phase(false, p, q, f, g, qClosed)
    ensures q.state != ChoosingPlayer && p.state != WaitChoosingPlayer
    ensures q.state == WaitChoosingPlayer ==> p.state == ChoosingPlayer || InGame(p.state)
    ensures InGame(p.state) && InGame(q.state) ==> Opposite(p, q)
  {
    hide Shape, Rest, ToMove;
  }

  /** me chooses and you will not: kept from the moment me chooses. */
  ghost predicate Chooser(n: Net) {
    && NetInv(false, n)
    && (n.me.core.state == ChoosingPlayer || InGame(n.me.core.state))
    && (n.you.core.state == Waiting || n.you.core.state == WaitChoosingPlayer || InGame(n.you.core.state))
  }

  /** The states a peer can move to in one step. */
  predicate Follows(a: GameState, b: GameState) {
    match a
    case Start => b == Start || b == Waiting
    case Waiting => b == Waiting || b == ChoosingPlayer || b == WaitChoosingPlayer
    case ChoosingPlayer => b == ChoosingPlayer || b == Playing
    case WaitChoosingPlayer => b == WaitChoosingPlayer || b == Playing
    case _ => InGame(b)
  }

  lemma EventCores(n: Net, event: Event, arrived: nat)
    requires NetShape(n)
    ensures EventStep(n, event, arrived).me.core == Handle(n.me.core, event, ByteRead(n, event)).core
    ensures EventStep(n, event, arrived).you.core == n.you.core
  {
    hide Handle;
  }

  lemma ActFollows(n: Net, a: Action)
    requires NetShape(n)
    ensures Follows(n.me.core.state, Act(n, a).me.core.state)
    ensures Act(n, a).you.core == n.you.core
  {
    hide Handle, EventStep, Shape;
    if a.Input? {
      var m := if n.me.core.state == WaitChoosingPlayer && a.event.NewFrame? && a.arrived > 0 then Receive(n) else n;
      EventCores(m, a.event, a.arrived);
      HandleFollows(m.me.core, a.event, ByteRead(m, a.event));
    }
  }

  /** What one step does to the first peer. */
  lemma StepCore(n: Net, first: bool, a: Action)
    requires NetShape(n)
    ensures var m := if n.me.core.state == WaitChoosingPlayer && a.Input? && a.event.NewFrame? && a.arrived > 0 then Receive(n) else n;
            NetShape(m) && m.me.core == n.me.core &&
            Step(n, first, a).me.core ==
            if first && a.Input? then Handle(n.me.core, a.event, ByteRead(m, a.event)).core else n.me.core
  {
    hide Handle, EventStep, Shape;
    ActFollows(Swap(n), a);
    if a.Input? {
      var m := if n.me.core.state == WaitChoosingPlayer && a.event.NewFrame? && a.arrived > 0 then Receive(n) else n;
      EventCores(m, a.event, a.arrived);
    }
  }

  lemma HandleFollows(c: Core, event: Event, byte: Byte)
    requires Shape(c)
    ensures Follows(c.state, Handle(c, event, byte).core.state)
  {
    if c.state == Playing {
      PlayingStays(c, event, byte);
    }
  }

  lemma PlayingStays(c: Core, event: Event, byte: Byte)
    requires Shape(c) && c.state == Playing
    ensures InGame(OnPlaying(c, event, byte).core.state)
  {
    if event.Mouse? {
      var c0 := Noticed(c);
      MouseStays(c0, event.x, event.y, event.pressed, event.released);
      hide OnPlayingMouse;
    } else {
      var c0 := Noticed(c);
      ReceiveStays(c0.(pieces := UpdateFrom(c0.board, c0.pieces, c0.animation, 0)), byte);
      hide UpdateFrom, ReceiveByte, OnPlayingMouse, Shape;
    }
  }

  lemma MouseStays(c: Core, x: U16, y: U16, pressed: bool, released: bool)
    requires Shape(c)
    ensures OnPlayingMouse(c, x, y, pressed, released).core.state == c.state
  {
    hide Kinds, Painted, PlaceAt, MoveTo, MoveMessage, DropAccepted, DropCells, GetBoardX, GetBoardY;
  }

  lemma ChooserKeeps(n: Net, first: bool, a: Action)
    requires Chooser(n) && !Crossing(if first then n else Swap(n), a)
    ensures Chooser(Step(n, first, a))
  {
    hide NetInv, Crossing, Act, Shape;
    InvShape(false, n);
    StepKeeps(false, n, first, a);
    ActFollows(if first then n else Swap(n), a);
    OneChooses(Step(n, first, a));
  }

  /** Next to a peer that chooses or plays, nobody chooses. */
  lemma OneChooses(n: Net)
    requires NetInv(false, n) && (n.me.core.state == ChoosingPlayer || InGame(n.me.core.state))
    ensures n.you.core.state != ChoosingPlayer
  {
    hide LocalInv, Shape, Phase, Flow;
    InvShape(false, n);
    var p, q, f, g := n.me.core, n.you.core, Flow(n), Flow(Swap(n));
    if Phase(false, p, q, f, g, n.you.closed) {
      PhaseOneSided(p, q, f, g, n.you.closed);
    } else if q.state == ChoosingPlayer {
      ChoosingLeads(q, p, g, f, n.me.closed);
    }
  }

  /** A choosing peer that leads faces a peer that waits. */
  lemma ChoosingLeads(p: Core, q: Core, f: seq<Byte>, g: seq<Byte>, qClosed: bool)
    requires Shape(p) && Shape(q) && Phase(false, p, q, f, g, qClosed) && p.state == ChoosingPlayer
    ensures q.state == Waiting || q.state == WaitChoosingPlayer
  {
  }

  lemma {:induction false} ChooserRun(n: Net, s: Schedule)
    requires Chooser(n) && Clean(false, n, s)
    ensures Chooser(Run(n, s))
    decreases |s|
  {
    if s != [] {
      ChooserKeeps(n, s[0].0, s[0].1);
      ChooserRun(Step(n, s[0].0, s[0].1), s[1..]);
    }
  }

  /** Once one peer is choosing, no continuation of the uncrossed run makes the
      other a chooser, or the chooser wait for a choice. */
  lemma OneChooser(s: Schedule, n: Net, t: Schedule)
    requires Reached(false, s, n) && Clean(false, n, t) && n.me.core.state == ChoosingPlayer
    ensures Run(n, t).you.core.state != ChoosingPlayer && Run(n, t).me.core.state != WaitChoosingPlayer
  {
    hide NetInv, Clean, Run, Step, Shape;
    ReachedInv(false, s, n);
    InvShape(false, n);
    StartsChooser(n);
    ChooserRun(n, t);
  }

  lemma StartsChooser(n: Net)
    requires NetInv(false, n) && n.me.core.state == ChoosingPlayer
    ensures Chooser(n)
  {
    hide LocalInv, Shape, Phase, Flow;
    InvShape(false, n);
    var p, q, f, g := n.me.core, n.you.core, Flow(n), Flow(Swap(n));
    if Phase(false, p, q, f, g, n.you.closed) {
      ChoosingLeads(p, q, f, g, n.you.closed);
    } else {
      PhaseOneSided(q, p, g, f, n.me.closed);
    }
  }

  // ---------------------------------------------------------------------
  // Crossed runs

  /** A waiting peer will find VM_CONNECTED first, and neither peer waits for
      the other's choice. */
  ghost predicate CrossInv(n: Net) {
    && NetShape(n)
    && n.me.core.state != Start && n.me.core.state != WaitChoosingPlayer
    && n.you.core.state != Start && n.you.core.state != WaitChoosingPlayer
    && (n.me.core.state == Waiting ==> StartsConnected(Flow(Swap(n))))
    && (n.you.core.state == Waiting ==> StartsConnected(Flow(n)))
  }

  predicate StartsConnected(f: seq<Byte>) { f != [] && f[0] == VM_CONNECTED }

  lemma EnqueueAllExtends(q: seq<Byte>, bytes: seq<Byte>)
    ensures q <= EnqueueAll(q, bytes)
    decreases |bytes|
  {
    if bytes != [] {
      EnqueueAllExtends(Enqueue(q, bytes[0]), bytes[1..]);
    }
  }

  /** The first byte under way stays first through a read, dropped or not. */
  lemma ReceiveCross(n: Net)
    requires CrossInv(n)
    ensures CrossInv(Receive(n))
  {
    hide Shape;
    var r := Receive(n);
    assert Flow(r) == Flow(n);
    if n.inn != [] {
      assert StartsConnected(Flow(Swap(n))) ==> StartsConnected(Flow(Swap(r))) by {
        assert Flow(Swap(n))[0] == if n.me.rx != [] then n.me.rx[0] else n.inn[0];
        assert r.me.rx != [] && r.me.rx[0] == if n.me.rx != [] then n.me.rx[0] else n.inn[0];
      }
    }
  }

  lemma WriteCross(n: Net)
    requires CrossInv(n)
    ensures CrossInv(Act(n, Write))
  {
    if n.me.tx != [] {
      WriteFlow(n);
    }
    hide Shape, Flow;
  }

  lemma EventCross(n: Net, event: Event, arrived: nat)
    requires CrossInv(n)
    ensures CrossInv(EventStep(n, event, arrived))
  {
    var byte := ByteRead(n, event);
    var o := Handle(n.me.core, event, byte);
    HandleFollows(n.me.core, event, byte);
    WaitingReads(n.me.core, event, byte);
    EnqueueAllExtends(n.me.tx, o.send);
    hide Handle, Shape, EnqueueAll;
    var r := EventStep(n, event, arrived);
    assert Flow(n) <= Flow(r);
    if n.me.core.state == Waiting && n.me.rx != [] {
      assert Flow(Swap(n))[0] == n.me.rx[0];
    }
  }

  /** Only a peer that has not connected clears the port; a waiting peer that
      reads nothing keeps waiting, and one that reads VM_CONNECTED chooses. */
  lemma WaitingReads(c: Core, event: Event, byte: Byte)
    requires Shape(c) && c.state != Start
    ensures !Handle(c, event, byte).clear
    ensures c.state == Waiting && event.NewFrame? && byte == VM_CONNECTED ==>
      Handle(c, event, byte).core.state == ChoosingPlayer
    ensures c.state == Waiting && !(event.NewFrame? && byte == RECEIVE_VM_CONNECTED) ==>
      Handle(c, event, byte).core.state != WaitChoosingPlayer
    ensures c.state != Waiting ==> Handle(c, event, byte).core.state != Waiting
    ensures c.state == Waiting && !event.NewFrame? ==> Handle(c, event, byte).core == c
  {
    hide OnPlaying;
    if c.state == Playing {
      PlayingStays(c, event, byte);
      OnlyFramesRead(c, event, byte);
    }
  }

  lemma CloseCross(n: Net, arrived: nat)
    requires CrossInv(n)
    ensures CrossInv(Act(n, Close(arrived)))
  {
    if n.me.core.state == Exit {
      ClearFlow(n, arrived);
    }
  }

  lemma ActCross(n: Net, a: Action)
    requires CrossInv(n)
    ensures CrossInv(Act(n, a))
  {
    match a
    case Write => WriteCross(n);
    case Read => ReceiveCross(n);
    case Close(arrived) => CloseCross(n, arrived);
    case Input(event, arrived) => EventCross(n, event, arrived);
  }

  lemma SwapCross(n: Net)
    requires CrossInv(n)
    ensures CrossInv(Swap(n))
  {
  }

  lemma {:induction false} CrossRun(n: Net, s: Schedule)
    requires CrossInv(n)
    ensures CrossInv(Run(n, s))
    decreases |s|
  {
    if s != [] {
      SwapCross(n);
      ActCross(if s[0].0 then n else Swap(n), s[0].1);
      if !s[0].0 {
        SwapCross(Act(Swap(n), s[0].1));
      }
      CrossRun(Step(n, s[0].0, s[0].1), s[1..]);
    }
  }

  /** The crossing step itself. */
  lemma CrossingStarts(n: Net, a: Action)
    requires NetInv(false, n) && Crossing(n, a)
    ensures CrossInv(Act(n, a))
  {
    hide LocalInv, Phases, Flow, Shape, Handle, EventStep;
    InvShape(false, n);
    ConnectLast(n.me.core, n.you.core, Flow(n), Flow(Swap(n)), n.me.closed, n.you.closed);
    EnterConnects(n.me.core, a.event);
    StillComing(n, a.arrived);
    FewUnderWay(n);
    EventFlow(n, a.event, a.arrived);
  }

  lemma FewUnderWay(n: Net)
    ensures |n.me.tx| <= |Flow(n)|
  {
  }

  lemma EnterConnects(c: Core, event: Event)
    requires Shape(c) && Connects(c, event)
    ensures Handle(c, event, 0) == Outcome(c.(state := Waiting), [VM_CONNECTED], true) && !Reads(c, event)
  {
  }

  /** A greeting that has not all arrived survives the clearing of the port. */
  lemma StillComing(n: Net, arrived: nat)
    requires Flow(Swap(n)) == [VM_CONNECTED] && (n.you.tx != [] || |n.inn| > arrived)
    ensures n.inn[Min(arrived, |n.inn|)..] + n.you.tx == [VM_CONNECTED]
  {
    assert |n.me.rx| + |n.inn| + |n.you.tx| == 1;
    if n.you.tx != [] {
      assert n.you.tx == Flow(Swap(n));
    } else {
      assert n.inn == Flow(Swap(n));
    }
  }

  /** A peer that connects second finds the other waiting and only the other's
      greeting under way. */
  lemma ConnectLast(p: Core, q: Core, f: seq<Byte>, g: seq<Byte>, pClosed: bool, qClosed: bool)
    requires Shape(p) && Shape(q) && Phases(false, p, q, f, g, pClosed, qClosed)
    requires p.state == Start && q.state != Start
    ensures q.state == Waiting && f == [] && g == [VM_CONNECTED]
  {
    hide Shape;
  }

  /** Every run, of whatever steps, ends in one of the two classes. */
  lemma {:induction false} Dichotomy(n: Net, s: Schedule)
    requires NetInv(false, n)
    ensures if Clean(false, n, s) then NetInv(false, Run(n, s)) else CrossInv(Run(n, s))
    decreases |s|
  {
    if s != [] {
      var first, a := s[0].0, s[0].1;
      SwapKeeps(false, n);
      var m := if first then n else Swap(n);
      if Crossing(m, a) {
        CrossingStarts(m, a);
        if !first {
          SwapCross(Act(m, a));
        }
        CrossRun(Step(n, first, a), s[1..]);
      } else {
        StepKeeps(false, n, first, a);
        Dichotomy(Step(n, first, a), s[1..]);
      }
    }
  }

  /** Exactly the uncrossed handshakes end one-sidedly: if two handshakes cross,
      both peers can only become choosers, in every continuation; so a peer
      that ever waits for the other's choice proves that none crossed. */
  lemma HandshakeOutcome(s: Schedule, n: Net)
    requires n == Run(InitNet(), s)
    ensures !Clean(false, InitNet(), s) ==>
      && n.me.core.state != Start && n.me.core.state != WaitChoosingPlayer
      && n.you.core.state != Start && n.you.core.state != WaitChoosingPlayer
    ensures n.me.core.state == WaitChoosingPlayer || n.you.core.state == WaitChoosingPlayer ==> Clean(false, InitNet(), s)
    ensures n.me.core.state == ChoosingPlayer && n.you.core.state == ChoosingPlayer ==> !Clean(false, InitNet(), s)
  {
    InitialNetInv(false);
    Dichotomy(InitNet(), s);
    if Clean(false, InitNet(), s) {
      OneSided(s, n);
    }
  }
}
