/** Two of the imperative programs joined by two wires go through exactly the
    states of the step system, whatever the schedule. */
module Simulation {
  import opened Common
  import opened Game
  import opened HandlerSummary
  import opened Network
  import opened Framebuffer
  import opened RingBuffer
  import opened Boards
  import opened SerialPort
  import opened Handlers

  /** Everything a program may change, and the records it keeps it in. */
  ghost function Footprint(p: Program): (f: set<object>)
    reads p.board
  {
    {p, p.board, p.port, p.board.cells, p.board.mem} + (set q | q in p.board.roster) + p.port.Owned()
  }

  /** The program is in the state of the node. */
  ghost predicate Shows(p: Program, n: Node)
    requires p.Valid()
    reads p, p.board, p.board.cells, p.board.mem, p.board.roster, p.port, p.port.Owned()
  {
    p.View() == n.core && p.port.Tx() == n.tx && p.port.Rx() == n.rx
  }

  /** sp_write finds the port ready. */
  method WriteOne(p: Program) returns (b: Option<Byte>)
    requires p.Valid()
    modifies p.port.Owned()
    ensures p.Valid() && p.View() == old(p.View()) && p.port.Rx() == old(p.port.Rx())
    ensures if old(p.port.Tx()) != [] then b == Some(old(p.port.Tx())[0]) && p.port.Tx() == old(p.port.Tx())[1..]
            else b == None && p.port.Tx() == []
  {
    hide Ids, States, OrangeSet, Chequered, Board.Valid, ByteQueue.Contents, ByteQueue.Valid;
    b := p.port.Write(true);
  }

  /** inputHandler on one event, with the wire beside it. */
  method InputProgram(p: Program, event: Event, arrived: nat, inn: seq<Byte>, past: int -> bool, ghost n: Net)
    returns (inn': seq<Byte>)
    requires p.Valid() && NetShape(n) && Shows(p, n.me) && inn == n.inn
    modifies Footprint(p) - {p.board, p.port}
    ensures p.Valid() && Footprint(p) == old(Footprint(p))
    ensures var m := InputStep(n, event, arrived);
            Shows(p, m.me) && inn' == m.inn && m.you == n.you && m.out == n.out
  {
    hide Ids, States, OrangeSet, Chequered, Board.Valid, ByteQueue.Contents, ByteQueue.Valid;
    var polls := p.state == WaitChoosingPlayer && event.NewFrame? && arrived > 0 && inn != [];
    var connects := p.state == Start && event.Keyboard? && event.scan == ENTER && p.nameSize > 0;
    var k := Min(arrived, |inn|);
    p.InputHandler(event, if polls then Some(inn[0]) else None, inn[..k], past);
    InputHandled(n, event, arrived, p.View(), p.port.Tx(), p.port.Rx());
    inn' := if polls then inn[1..] else if connects then inn[k..] else inn;
  }

  /** What inputHandler does is what the step system does to the node. */
  lemma InputHandled(n: Net, event: Event, arrived: nat, c': Core, tx': seq<Byte>, rx': seq<Byte>)
    requires NetShape(n)
    requires Handled(n.me.core, n.me.tx, n.me.rx, event, if Polls(n, event, arrived) then Some(n.inn[0]) else None, c', tx', rx')
    ensures var m := InputStep(n, event, arrived);
            && c' == m.me.core && tx' == m.me.tx && rx' == m.me.rx && m.you == n.you && m.out == n.out
            && m.inn == if Polls(n, event, arrived) then n.inn[1..]
                        else if Connects(n.me.core, event) then n.inn[Min(arrived, |n.inn|)..] else n.inn
  {
    var m := if Polls(n, event, arrived) then Receive(n) else n;
    OnlyConnectClears(n.me.core, event, ByteRead(m, event));
    hide Handle, Enqueue, EnqueueAll, Shape;
  }

  /** Does the handler read the port itself, and is there a byte? */
  predicate Polls(n: Net, event: Event, arrived: nat) {
    n.me.core.state == WaitChoosingPlayer && event.NewFrame? && arrived > 0 && n.inn != []
  }

  /** One step of the first peer, on the program and on the two wires. */
  method StepProgram(p: Program, a: Action, out: seq<Byte>, inn: seq<Byte>, past: int -> bool, ghost n: Net)
    returns (out': seq<Byte>, inn': seq<Byte>)
    requires p.Valid() && NetShape(n) && Shows(p, n.me) && out == n.out && inn == n.inn
    modifies Footprint(p) - {p.board, p.port}
    ensures p.Valid() && Footprint(p) == old(Footprint(p))
    ensures var m := Act(n, a); Shows(p, m.me) && out' == m.out && inn' == m.inn && m.you == n.you
  {
    out', inn' := out, inn;
    match a {
      case Write =>
        if p.state != Crashed {
          var b := WriteOne(p);
          if b.Some? {
            out' := out + [b.value];
          }
        }
      case Read =>
        if p.state != Exit && p.state != Crashed && inn != [] {
          p.ReadPort(Some(inn[0]));
          inn' := inn[1..];
        }
      case Input(event, arrived) =>
        inn' := InputProgram(p, event, arrived, inn, past, n);
      case Close(arrived) =>
        if p.state == Exit {
          var k := Min(arrived, |inn|);
          p.ClearPort(inn[..k]);
          inn' := inn[k..];
        }
    }
  }

  /** The two programs and the two wires show the pair. */
  ghost predicate ShowPair(a: Program, b: Program, out: seq<Byte>, inn: seq<Byte>, n: Net)
    reads a, a.board, a.board.cells, a.board.mem, a.board.roster, a.port, a.port.Owned()
    reads b, b.board, b.board.cells, b.board.mem, b.board.roster, b.port, b.port.Owned()
  {
    && a.Valid() && b.Valid() && Footprint(a) !! Footprint(b) && NetShape(n)
    && Shows(a, n.me) && Shows(b, n.you) && out == n.out && inn == n.inn
  }

  /** A step of the first program leaves the second alone. */
  method StepFirst(a: Program, b: Program, action: Action, out: seq<Byte>, inn: seq<Byte>, past: int -> bool, ghost n: Net)
    returns (out': seq<Byte>, inn': seq<Byte>)
    requires ShowPair(a, b, out, inn, n)
    modifies Footprint(a) - {a.board, a.port}
    ensures ShowPair(a, b, out', inn', Act(n, action))
    ensures Footprint(a) == old(Footprint(a)) && Footprint(b) == old(Footprint(b))
  {
    hide Act, Shows, Program.Valid;
    out', inn' := StepProgram(a, action, out, inn, past, n);
  }

  lemma SwapPair(a: Program, b: Program, out: seq<Byte>, inn: seq<Byte>, n: Net)
    requires ShowPair(a, b, out, inn, n)
    ensures ShowPair(b, a, inn, out, Swap(n))
  {
  }

  /** A fresh program shows a fresh node. */
  method StartOne(toggle: Image) returns (p: Program)
    requires WellFormed(toggle)
    ensures p.Valid() && Shows(p, InitNode()) && fresh(Footprint(p))
  {
    hide InitCore, Shape, Program.Valid, Program.View, Port.Owned, Port.Tx, Port.Rx;
    p := new Program(toggle);
  }

  lemma StartsAsPair(a: Program, b: Program)
    requires a.Valid() && b.Valid() && Shows(a, InitNode()) && Shows(b, InitNode()) && Footprint(a) !! Footprint(b)
    ensures ShowPair(a, b, [], [], InitNet())
  {
    assert NetShape(InitNet());
    hide Shows, Program.Valid, InitNode, Footprint, Port.Owned, NetShape;
  }

  /** Two fresh programs. */
  method StartPair(toggle: Image) returns (a: Program, b: Program)
    requires WellFormed(toggle)
    ensures ShowPair(a, b, [], [], InitNet())
    ensures fresh(Footprint(a)) && fresh(Footprint(b))
  {
    hide Shows, Program.Valid, InitNode, ShowPair;
    a := StartOne(toggle);
    ghost var f := Footprint(a);
    b := StartOne(toggle);
    assert Footprint(a) == f;
    StartsAsPair(a, b);
  }

  /** A step of either program. */
  method StepPair(a: Program, b: Program, first: bool, action: Action, out: seq<Byte>, inn: seq<Byte>,
                  past: int -> bool, ghost n: Net)
    returns (out': seq<Byte>, inn': seq<Byte>)
    requires ShowPair(a, b, out, inn, n)
    modifies Footprint(a) - {a.board, a.port}, Footprint(b) - {b.board, b.port}
    ensures NetShape(n) && ShowPair(a, b, out', inn', Step(n, first, action))
    ensures Footprint(a) == old(Footprint(a)) && Footprint(b) == old(Footprint(b))
  {
    assert NetShape(n);
    hide ShowPair, Act, Footprint, Port.Owned;
    if first {
      out', inn' := StepFirst(a, b, action, out, inn, past, n);
    } else {
      SwapPair(a, b, out, inn, n);
      inn', out' := StepFirst(b, a, action, inn, out, past, Swap(n));
      SwapPair(b, a, inn', out', Act(Swap(n), action));
    }
  }

  /** Two programs, started afresh, and two empty wires: after any schedule of
      steps they are in the state the step system reaches. */
  method Simulate(s: Schedule, toggle: Image, past: int -> bool)
    returns (a: Program, b: Program, out: seq<Byte>, inn: seq<Byte>)
    requires WellFormed(toggle)
    ensures ShowPair(a, b, out, inn, Run(InitNet(), s))
  {
    hide ShowPair, Step, Footprint, Port.Owned, InitNet, NetShape, Shows, Program.Valid, Program.View, Port.Valid, Board.Valid;
    InitShape();
    a, b := StartPair(toggle);
    out, inn := [], [];
    ghost var n := InitNet();
    var i := 0;
    assert s[0..] == s;
    while i < |s|
      invariant i <= |s| && NetShape(n) && ShowPair(a, b, out, inn, n)
      invariant fresh(Footprint(a)) && fresh(Footprint(b))
      invariant Run(n, s[i..]) == Run(InitNet(), s)
    {
      assert s[i..][0] == s[i] && s[i..][1..] == s[i + 1..];
      out, inn := StepPair(a, b, s[i].0, s[i].1, out, inn, past, n);
      n := Step(n, s[i].0, s[i].1);
      i := i + 1;
    }
  }
}
