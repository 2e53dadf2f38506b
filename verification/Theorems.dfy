/** The main results about two connected peers, each for every interleaving of
    their steps. */
module Theorems {
  import opened Common
  import opened Codec
  import opened Chess
  import opened Geometry
  import opened PieceMotion
  import opened Game
  import opened GameInvariants
  import opened HandlerSummary
  import opened Network
  import opened Protocol
  import opened NetworkInvariant

  /** n is a pair reached by an uncrossed run, seen from either side; with
      `strict` no move of the run touches square (0, 0). So what is said below
      of n.me is said of both peers. */
  ghost predicate Reached(strict: bool, s: Schedule, n: Net) {
    Clean(strict, InitNet(), s) && (n == Run(InitNet(), s) || Swap(n) == Run(InitNet(), s))
  }

  lemma ReachedInv(strict: bool, s: Schedule, n: Net)
    requires Reached(strict, s, n)
    ensures NetInv(strict, n)
  {
    hide NetInv, Clean, Run, InitNet;
    InitialNetInv(strict);
    InvShape(strict, InitNet());
    RunKeeps(strict, InitNet(), s);
    SwapKeeps(strict, Run(InitNet(), s));
  }

  lemma {:induction false} CleanStrict(n: Net, s: Schedule)
    requires NetShape(n) && Clean(true, n, s)
    ensures Clean(false, n, s)
    decreases |s|
  {
    hide Step, NetShape, Crossing, CornerMove;
    if s != [] {
      CleanStrict(Step(n, s[0].0, s[0].1), s[1..]);
    }
  }

  lemma ReachedStrict(s: Schedule, n: Net)
    requires Reached(true, s, n)
    ensures Reached(false, s, n)
  {
    hide Run, Clean, InitNet;
    InitShape();
    CleanStrict(InitNet(), s);
  }

  // ---------------------------------------------------------------------
  // The turn

  function Bit(b: bool): nat { if b then 1 else 0 }

  /** Turns under way to q: YOUR_TURN bytes, and before q is in the game a
      WHITE byte where q will read its colour. */
  function TurnsUnderWay(q: Core, f: seq<Byte>): nat {
    multiset(f)[YOUR_TURN] +
    Bit(q.state == WaitChoosingPlayer && |f| > 0 && f[0] == WHITE_BYTE) +
    Bit(q.state == Waiting && |f| > 1 && f[1] == WHITE_BYTE)
  }

  function Turns(n: Net): nat {
    Bit(n.me.core.myTurn) + Bit(n.you.core.myTurn) +
    TurnsUnderWay(n.you.core, Flow(n)) + TurnsUnderWay(n.me.core, Flow(Swap(n)))
  }

  lemma RestTurns(f: seq<Byte>, from: Square, to: Square)
    requires from.OnBoard() && to.OnBoard() && Rest(f, from, to)
    ensures multiset(f)[YOUR_TURN] == Bit(f != [])
  {
  }

  lemma ChosenTurns(strict: bool, p: Core, q: Core, f: seq<Byte>, g: seq<Byte>, from: Square, to: Square)
    requires Shape(p) && Shape(q) && from.OnBoard() && to.OnBoard() && Chosen(strict, p, q, f, g, from, to)
    ensures Bit(p.myTurn) + TurnsUnderWay(q, f) == 1 && TurnsUnderWay(p, g) == 0 && !InGame(q.state)
  {
    RestTurns(MoveMessage(from, to), from, to);
    hide Shape, Ahead, MoveMessage;
    var c := if p.player == Black then WHITE_BYTE else BLACK_BYTE;
    if !p.myTurn && p.player == White {
      assert f == Greeting(q) + [c] + MoveMessage(from, to);
    } else {
      assert f == Greeting(q) + [c];
    }
  }

  lemma PhaseTurns(strict: bool, p: Core, q: Core, f: seq<Byte>, g: seq<Byte>, qClosed: bool)
    requires LocalInv(p) && LocalInv(q) && Phase(strict, p, q, f, g, qClosed)
    ensures var t := Bit(p.myTurn) + Bit(q.myTurn) + TurnsUnderWay(q, f) + TurnsUnderWay(p, g);
            t <= 1 && (!qClosed && (InGame(p.state) || InGame(q.state)) ==> t == 1)
  {
    assert Shape(p) && Shape(q);
    assert !InGame(p.state) ==> !p.myTurn;
    assert !InGame(q.state) ==> !q.myTurn;
    hide LocalInv, Shape, Chosen, Transit, Holder, Setup, TurnsUnderWay;
    if Setup(p, q, f, g) || Holder(strict, p, q, f, g) {
      PlainTurns(strict, p, q, f, g);
    } else if ChosenPhase(strict, p, q, f, g) {
      var from: Square, to: Square :| from.OnBoard() && to.OnBoard() && Chosen(strict, p, q, f, g, from, to);
      ChosenTurns(strict, p, q, f, g, from, to);
    } else {
      assert TransitPhase(strict, p, q, f, g, qClosed) by { SetupPhase(p, q, f, g); }
      var from: Square, to: Square :| from.OnBoard() && to.OnBoard() && Transit(strict, p, q, f, g, qClosed, from, to);
      TransitTurns(strict, p, q, f, g, qClosed, from, to);
    }
  }

  lemma SetupPhase(p: Core, q: Core, f: seq<Byte>, g: seq<Byte>)
    ensures Setup(p, q, f, g) <==>
            Idle(p, q, f, g) || OneWaiting(p, q, f, g) || BothWaiting(p, q, f, g) || Choosing(p, q, f, g)
  {
  }

  /** Before a colour is chosen there is no turn; afterwards the holder has it. */
  lemma PlainTurns(strict: bool, p: Core, q: Core, f: seq<Byte>, g: seq<Byte>)
    requires Setup(p, q, f, g) || Holder(strict, p, q, f, g)
    requires (!InGame(p.state) ==> !p.myTurn) && (!InGame(q.state) ==> !q.myTurn)
    ensures TurnsUnderWay(q, f) == 0 && TurnsUnderWay(p, g) == 0
    ensures if Holder(strict, p, q, f, g) then p.myTurn && !q.myTurn
            else !p.myTurn && !q.myTurn && !InGame(p.state) && !InGame(q.state)
  {
    hide Agreed, ToMove;
  }

  lemma TransitTurns(strict: bool, p: Core, q: Core, f: seq<Byte>, g: seq<Byte>, qClosed: bool, from: Square, to: Square)
    requires Shape(p) && Shape(q) && from.OnBoard() && to.OnBoard() && Transit(strict, p, q, f, g, qClosed, from, to)
    ensures !p.myTurn && !q.myTurn && TurnsUnderWay(q, f) == Bit(f != []) && TurnsUnderWay(p, g) == 0
    ensures f == [] ==> qClosed
  {
    RestTurns(f, from, to);
  }

  /** There is never more than one turn, counting those under way, and from the
      colour choice on there is exactly one until a peer leaves the game. So
      both players never hold it, and a piece is held only with the turn. This
      holds for moves touching (0, 0) too. */
  lemma TurnToken(s: Schedule, n: Net)
    requires Reached(false, s, n)
    ensures Turns(n) <= 1
    ensures !n.me.closed && !n.you.closed && (InGame(n.me.core.state) || InGame(n.you.core.state)) ==> Turns(n) == 1
    ensures n.me.core.drag.Some? ==> n.me.core.myTurn
    ensures n.you.core.drag.Some? ==> n.you.core.myTurn
  {
    ReachedInv(false, s, n);
    var p, q, f, g := n.me.core, n.you.core, Flow(n), Flow(Swap(n));
    if Phase(false, p, q, f, g, n.you.closed) {
      PhaseTurns(false, p, q, f, g, n.you.closed);
    } else {
      PhaseTurns(false, q, p, g, f, n.me.closed);
    }
  }

  /** White moves first and the players alternate: whoever holds the turn, the
      moves made so far differ accordingly. */
  lemma TurnsAlternate(s: Schedule, n: Net)
    requires Reached(false, s, n) && n.me.core.myTurn && InGame(n.you.core.state)
    ensures n.me.core.player == White ==> n.me.core.moves == n.you.core.moves
    ensures n.me.core.player == Black ==> n.you.core.moves == n.me.core.moves + 1
  {
    ReachedInv(false, s, n);
    var p, q, f, g := n.me.core, n.you.core, Flow(n), Flow(Swap(n));
    assert InGame(p.state);
    PhaseOfHolder(p, q, f, g, n.me.closed, n.you.closed);
  }

  /** With both players in the game, whoever has the turn leads. */
  lemma PhaseOfHolder(p: Core, q: Core, f: seq<Byte>, g: seq<Byte>, pClosed: bool, qClosed: bool)
    requires Shape(p) && Shape(q) && Phases(false, p, q, f, g, pClosed, qClosed)
    requires p.myTurn && InGame(p.state) && InGame(q.state)
    ensures Holder(false, p, q, f, g)
  {
  }

  // ---------------------------------------------------------------------
  // The wire

  /** No byte is lost: at most six are under way in a direction, a byte that
      arrives finds room, what a handler sends finds room, and what one peer
      has taken is a prefix of what the other has sent. */
  lemma NoByteLost(s: Schedule, n: Net)
    requires Reached(false, s, n)
    ensures |Flow(n)| <= 6 && |n.me.tx| < QUEUE_CAPACITY && |n.me.rx| < QUEUE_CAPACITY
    ensures n.me.sent == n.you.taken + Flow(n)
    ensures n.you.taken <= n.me.sent
    ensures forall event, arrived ::
      !Crossing(n, Input(event, arrived)) ==>
        |n.me.tx| + |Handle(n.me.core, event, ByteRead(n, event)).send| <= QUEUE_CAPACITY
  {
    ReachedInv(false, s, n);
    FlowBound(false, n.me.core, n.you.core, Flow(n), Flow(Swap(n)), n.me.closed, n.you.closed);
    forall event, arrived | !Crossing(n, Input(event, arrived))
      ensures |n.me.tx| + |Handle(n.me.core, event, ByteRead(n, event)).send| <= QUEUE_CAPACITY
    {
      EventFits(false, n, event, arrived);
    }
  }

  // ---------------------------------------------------------------------
  // The boards

  /** A core after reading further bytes in the playing state. */
  function Absorb(c: Core, f: seq<Byte>): (r: Core)
    requires Shape(c)
    ensures Shape(r)
    decreases |f|
  {
    if f == [] then c else Absorb(ReceiveByte(c, f[0]), f[1..])
  }

  /** One move of me's is under way to you, in full or with its head already
      parsed, and carrying it out turns your board into mine. */
  ghost predicate MovePending(n: Net)
    requires NetShape(n)
  {
    exists from: Square, to: Square :: PendingMove(n, from, to)
  }

  predicate PendingMove(n: Net, from: Square, to: Square)
    requires NetShape(n)
  {
    && Movable(n.you.core.board, from, to) && n.me.core.board == MoveCells(n.you.core.board, from, to)
    && Rest(Flow(n), from, to) && |Flow(n)| >= 2 && Flow(Swap(n)) == []
    && (|Flow(n)| == 2 ==> n.you.core.byteOfMove == 1 && n.you.core.oldSq == from)
  }

  /** White's first move is under way to you, behind the bytes that bring you
      into the game. */
  ghost predicate FirstMovePending(n: Net)
    requires NetShape(n)
  {
    exists from: Square, to: Square :: PendingFirst(n, from, to)
  }

  predicate PendingFirst(n: Net, from: Square, to: Square)
    requires NetShape(n)
  {
    && Movable(n.you.core.board, from, to) && n.me.core.board == MoveCells(n.you.core.board, from, to)
    && (n.you.core.state == Waiting || n.you.core.state == WaitChoosingPlayer) && Flow(Swap(n)) == []
    && Flow(n) == Greeting(n.you.core) + [BLACK_BYTE] + MoveMessage(from, to)
  }

  /** What the handler of the current state does with a byte it reads. */
  function Take(c: Core, b: Byte): (r: Core)
    requires Shape(c)
    ensures Shape(r)
  {
    match c.state
    case Waiting => OnWaitingFrame(c, b).core
    case WaitChoosingPlayer => OnWaitChoosingFrame(c, b).core
    case Start => c
    case ChoosingPlayer => c
    case _ => ReceiveByte(c, b)
  }

  function TakeAll(c: Core, f: seq<Byte>): (r: Core)
    requires Shape(c)
    ensures Shape(r)
    decreases |f|
  {
    if f == [] then c else TakeAll(Take(c, f[0]), f[1..])
  }

  lemma TakeStep(c: Core, b: Byte, f: seq<Byte>)
    requires Shape(c)
    ensures TakeAll(c, [b] + f) == TakeAll(Take(c, b), f)
  {
    hide Take;
    assert ([b] + f)[1..] == f;
  }

  lemma {:induction false} TakeIsAbsorb(c: Core, f: seq<Byte>)
    requires Shape(c) && InGame(c.state)
    ensures TakeAll(c, f) == Absorb(c, f)
    decreases |f|
  {
    hide ReceiveByte, Shape;
    if f != [] {
      ReceiveStays(c, f[0]);
      TakeIsAbsorb(ReceiveByte(c, f[0]), f[1..]);
    }
  }

  /** One byte read outside the game leaves the board alone. */
  lemma TakeOutside(c: Core, b: Byte)
    requires Shape(c) && !InGame(c.state)
    ensures TakeAll(c, []).board == TakeAll(c, [b]).board == c.board
  {
    TakeStep(c, b, []);
    assert [b] + [] == [b];
  }

  lemma AbsorbStep(c: Core, b: Byte, f: seq<Byte>)
    requires Shape(c)
    ensures Absorb(c, [b] + f) == Absorb(ReceiveByte(c, b), f)
  {
    assert ([b] + f)[1..] == f;
  }

  lemma AbsorbFour(c: Core, b0: Byte, b1: Byte, b2: Byte, b3: Byte)
    requires Shape(c)
    ensures Absorb(c, [b0, b1, b2, b3]) == ReceiveByte(ReceiveByte(ReceiveByte(ReceiveByte(c, b0), b1), b2), b3)
  {
    hide ReceiveByte, Shape;
    var c1 := ReceiveByte(c, b0);
    var c2 := ReceiveByte(c1, b1);
    var c3 := ReceiveByte(c2, b2);
    assert [b0, b1, b2, b3][1..] == [b1, b2, b3];
    assert [b1, b2, b3][1..] == [b2, b3];
    assert [b2, b3][1..] == [b3];
    assert [b3][1..] == [];
    assert Absorb(c3, [b3]) == ReceiveByte(c3, b3);
    assert Absorb(c2, [b2, b3]) == Absorb(c3, [b3]);
    assert Absorb(c1, [b1, b2, b3]) == Absorb(c2, [b2, b3]);
  }

  /** Reading the rest of a message carries the move out. */
  lemma {:induction false} AbsorbMessage(q: Core, f: seq<Byte>, from: Square, to: Square)
    requires Shape(q) && from.OnBoard() && to.OnBoard() && !IsCorner(from) && !IsCorner(to)
    requires q.board[from.Index()].Some?
    requires Rest(f, from, to) && |f| >= 2
    requires |f| == 3 ==> q.byteOfMove == 0
    requires |f| == 2 ==> q.byteOfMove == 1 && q.oldSq == from
    ensures Absorb(q, f).board == MoveCells(q.board, from, to)
    decreases |f|
  {
    SquareRoundTrip(from);
    SquareRoundTrip(to);
    hide Shape, MoveCells, EncodeSquare, DecodeSquare;
    var r := ReceiveByte(q, f[0]);
    assert f == [f[0]] + f[1..];
    AbsorbStep(q, f[0], f[1..]);
    if |f| > 2 {
      AbsorbMessage(r, f[1..], from, to);
    } else {
      AbsorbStep(r, YOUR_TURN, []);
    }
  }

  /** At every moment of every run in which no handshake crosses and no move
      touches (0, 0) the boards are equal or one move of one player is pending;
      reading what is under way makes them equal. */
  lemma ReplicasAgree(s: Schedule, n: Net)
    requires Reached(true, s, n)
    ensures NetShape(n)
    ensures n.me.core.board == n.you.core.board || MovePending(n) || MovePending(Swap(n))
            || FirstMovePending(n) || FirstMovePending(Swap(n))
    ensures TakeAll(n.you.core, Flow(n)).board == TakeAll(n.me.core, Flow(Swap(n))).board
  {
    hide LocalInv, Shape, Phase, TakeAll, PendingMove;
    ReachedInv(true, s, n);
    InvShape(true, n);
    InvLocal(true, n);
    if Phase(true, n.me.core, n.you.core, Flow(n), Flow(Swap(n)), n.you.closed) {
      PhaseAgrees(n);
    } else {
      PhaseAgrees(Swap(n));
    }
  }

  lemma PhaseAgrees(n: Net)
    requires NetShape(n) && LocalInv(n.me.core) && LocalInv(n.you.core)
    requires Phase(true, n.me.core, n.you.core, Flow(n), Flow(Swap(n)), n.you.closed)
    ensures n.me.core.board == n.you.core.board || MovePending(n) || FirstMovePending(n)
    ensures TakeAll(n.you.core, Flow(n)).board == TakeAll(n.me.core, Flow(Swap(n))).board
  {
    var p, q, f, g := n.me.core, n.you.core, Flow(n), Flow(Swap(n));
    hide LocalInv, Shape, Flow, Phase, Setup, Holder, Chosen, Transit, TakeAll, PendingMove, PendingFirst;
    var from, to := PhaseSquares(true, p, q, f, g, n.you.closed);
    if Setup(p, q, f, g) {
      SetupIsEarly(p, q, f, g);
      FreshKings(p);
      FreshKings(q);
      SetupAgrees(p, q, f, g);
    } else if Holder(true, p, q, f, g) {
      HolderAgrees(p, q, f, g);
    } else if Chosen(true, p, q, f, g, from, to) {
      ChosenAgrees(n, from, to);
    } else {
      TransitAgrees(n, from, to);
    }
  }

  lemma SetupAgrees(p: Core, q: Core, f: seq<Byte>, g: seq<Byte>)
    requires Shape(p) && Shape(q) && Setup(p, q, f, g) && p.board == q.board
    ensures TakeAll(q, f).board == TakeAll(p, g).board
  {
    hide Shape, TakeAll;
    TakeOutside(p, VM_CONNECTED);
    TakeOutside(q, VM_CONNECTED);
    TakeOutside(q, RECEIVE_VM_CONNECTED);
  }

  lemma HolderAgrees(p: Core, q: Core, f: seq<Byte>, g: seq<Byte>)
    requires Shape(p) && Shape(q) && Holder(true, p, q, f, g)
    ensures p.board == q.board && TakeAll(q, f).board == TakeAll(p, g).board
  {
    hide Shape;
  }

  lemma ChosenAgrees(n: Net, from: Square, to: Square)
    requires NetShape(n) && from.OnBoard() && to.OnBoard()
    requires Chosen(true, n.me.core, n.you.core, Flow(n), Flow(Swap(n)), from, to)
    ensures n.me.core.board == n.you.core.board || FirstMovePending(n)
    ensures TakeAll(n.you.core, Flow(n)).board == TakeAll(n.me.core, Flow(Swap(n))).board
  {
    hide Shape, Flow, MoveCells, TakesKing, BothKings, MoveMessage, Fair;
    var p, q, f := n.me.core, n.you.core, Flow(n);
    var c := if p.player == Black then WHITE_BYTE else BLACK_BYTE;
    assert TakeAll(p, []) == p;
    if p.player == White && !p.myTurn {
      assert PendingFirst(n, from, to);
      ColourTaken(q, c, MoveMessage(from, to));
      var r := Take(if q.state == Waiting then Take(q, RECEIVE_VM_CONNECTED) else q, c);
      hide Take, TakeAll, Absorb;
      TakeIsAbsorb(r, MoveMessage(from, to));
      WholeMessage(from, to);
      AbsorbMessage(r, MoveMessage(from, to), from, to);
    } else {
      ColourTaken(q, c, []);
      assert f == Greeting(q) + [c] + [];
    }
  }

  /** The greeting, if it is still to come, and the colour bring the peer into
      the game. */
  lemma ColourTaken(q: Core, c: Byte, f: seq<Byte>)
    requires Shape(q) && (q.state == Waiting || q.state == WaitChoosingPlayer) && (c == WHITE_BYTE || c == BLACK_BYTE)
    ensures var r := Take(if q.state == Waiting then Take(q, RECEIVE_VM_CONNECTED) else q, c);
            && r.state == Playing && r.board == q.board
            && TakeAll(q, Greeting(q) + [c] + f) == TakeAll(r, f)
  {
    hide TakeAll, Shape;
    assert [] + [c] + f == [c] + f;
    assert [RECEIVE_VM_CONNECTED] + [c] + f == [RECEIVE_VM_CONNECTED] + ([c] + f);
    TakeStep(q, RECEIVE_VM_CONNECTED, [c] + f);
    TakeStep(if q.state == Waiting then Take(q, RECEIVE_VM_CONNECTED) else q, c, f);
  }

  lemma TransitAgrees(n: Net, from: Square, to: Square)
    requires NetShape(n) && from.OnBoard() && to.OnBoard()
    requires Transit(true, n.me.core, n.you.core, Flow(n), Flow(Swap(n)), n.you.closed, from, to)
    ensures n.me.core.board == n.you.core.board || MovePending(n)
    ensures TakeAll(n.you.core, Flow(n)).board == TakeAll(n.me.core, Flow(Swap(n))).board
  {
    hide Shape, Flow, MoveCells, EncodeSquare, TakesKing, BothKings, Fair, TakeAll;
    var q, f := n.you.core, Flow(n);
    TakeIsAbsorb(q, f);
    TakeIsAbsorb(n.me.core, []);
    if |f| >= 2 {
      assert PendingMove(n, from, to);
      AbsorbMessage(q, f, from, to);
    } else if f == [YOUR_TURN] {
      AbsorbStep(q, YOUR_TURN, []);
      TagsKeepBoard(q);
    }
  }

  /** When nothing is under way the boards show the same pieces. */
  lemma QuietBoardsEqual(s: Schedule, n: Net)
    requires Reached(true, s, n) && Flow(n) == [] && Flow(Swap(n)) == []
    ensures NetShape(n) && n.me.core.board == n.you.core.board && Kinds(n.me.core) == Kinds(n.you.core)
  {
    hide Reached, TakeAll, Flow;
    ReplicasAgree(s, n);
    ReachedInv(true, s, n);
  }

  /** And then either the game goes on for both players, or one has taken the
      other's king: it knows that it has won, and the other has left, having
      lost. */
  lemma QuietGames(s: Schedule, n: Net)
    requires Reached(true, s, n) && InGame(n.me.core.state) && InGame(n.you.core.state)
    requires Flow(n) == [] && Flow(Swap(n)) == []
    ensures || (Running(n.me.core) && Running(n.you.core))
            || (Winning(n.me.core) && Lost(n.you.core)) || (Winning(n.you.core) && Lost(n.me.core))
  {
    hide LocalInv, Shape, Flow, Phase, Chosen;
    ReachedInv(true, s, n);
    InvShape(true, n);
    var p, q := n.me.core, n.you.core;
    if Phase(true, p, q, [], [], n.you.closed) {
      var from, to := PhaseSquares(true, p, q, [], [], n.you.closed);
      SetupIsEarly(p, q, [], []);
      ChosenIsEarly(p, q, [], [], from, to);
    } else {
      var from, to := PhaseSquares(true, q, p, [], [], n.me.closed);
      SetupIsEarly(q, p, [], []);
      ChosenIsEarly(q, p, [], [], from, to);
    }
    hide Setup;
  }

  /** The player has taken the king, whether it has noticed that or not. */
  predicate Winning(c: Core) { c.endGame && (c.state == Playing || (c.state == Exit && c.won)) }

  predicate Lost(c: Core) { c.state == Exit && !c.won }

  /** A received move never starts from an empty square: no run dereferences a
      null piece. */
  lemma NoCrash(s: Schedule, n: Net)
    requires Reached(true, s, n)
    ensures n.me.core.state != Crashed && n.you.core.state != Crashed
  {
    ReachedInv(true, s, n);
    var p, q, f, g := n.me.core, n.you.core, Flow(n), Flow(Swap(n));
    if Phase(true, p, q, f, g, n.you.closed) {
      PhaseAlive(p, q, f, g, n.you.closed);
    } else {
      PhaseAlive(q, p, g, f, n.me.closed);
    }
  }

  lemma PhaseAlive(p: Core, q: Core, f: seq<Byte>, g: seq<Byte>, qClosed: bool)
    requires Shape(p) && Shape(q) && Phase(true, p, q, f, g, qClosed)
    ensures p.state != Crashed && q.state != Crashed
  {
    if TransitPhase(true, p, q, f, g, qClosed) {
      var from: Square, to: Square :| from.OnBoard() && to.OnBoard() && Transit(true, p, q, f, g, qClosed, from, to);
    }
  }

  /** Both kings stay on both boards until one is taken, and the two players
      never end with the same result. */
  lemma WinnerAgreement(s: Schedule, n: Net)
    requires Reached(true, s, n)
    ensures n.me.core.state == Exit && n.you.core.state == Exit ==> n.me.core.won != n.you.core.won
    ensures n.me.core.state == Playing && n.you.core.state == Playing && !n.me.core.endGame && !n.you.core.endGame ==>
      BothKings(n.me.core.board) && BothKings(n.you.core.board)
  {
    ReachedInv(true, s, n);
    var p, q, f, g := n.me.core, n.you.core, Flow(n), Flow(Swap(n));
    if Phase(true, p, q, f, g, n.you.closed) {
      PhaseWinner(p, q, f, g, n.you.closed);
    } else {
      PhaseWinner(q, p, g, f, n.me.closed);
    }
  }

  lemma PhaseWinner(p: Core, q: Core, f: seq<Byte>, g: seq<Byte>, qClosed: bool)
    requires LocalInv(p) && LocalInv(q) && Phase(true, p, q, f, g, qClosed)
    ensures p.state == Exit && q.state == Exit ==> p.won != q.won
    ensures p.state == Playing && q.state == Playing && !p.endGame && !q.endGame ==>
      BothKings(p.board) && BothKings(q.board)
  {
    if TransitPhase(true, p, q, f, g, qClosed) {
      var from: Square, to: Square :| from.OnBoard() && to.OnBoard() && Transit(true, p, q, f, g, qClosed, from, to);
      if |f| >= 2 && !p.endGame {
        KingsStay(q.board, from, to);
      }
    }
  }

  /** Per move, agreement holds exactly when neither square is (0, 0): from
      equal boards, the receiver of the whole message has the sender's board
      if and only if no corner is touched. */
  lemma MoveArrivesIff(p: Core, q: Core, from: Square, to: Square)
    requires Shape(p) && Shape(q) && Distinct(q.board) && Movable(q.board, from, to)
    requires p.board == MoveCells(q.board, from, to)
    ensures Absorb(q, MoveMessage(from, to)).board == p.board <==> !IsCorner(from) && !IsCorner(to)
  {
    if !IsCorner(from) && !IsCorner(to) {
      AbsorbMessage(q, MoveMessage(from, to), from, to);
    } else {
      MoveConserves(q.board, from, to, 0);
      CornerIsSkipped(q, from, to);
    }
  }

  /** After BEGIN_MESSAGE one square byte is only stored, and 0 is skipped. */
  lemma SquareIsStored(c: Core, b: Byte)
    requires Shape(c) && c.byteOfMove == 0 && b < 64
    ensures ReceiveByte(c, b).board == c.board
    ensures b == 0 ==> ReceiveByte(c, b) == c
  {
  }

  lemma TagsKeepBoard(c: Core)
    requires Shape(c)
    ensures ReceiveByte(c, BEGIN_MESSAGE).board == c.board && ReceiveByte(c, BEGIN_MESSAGE).byteOfMove == 0
    ensures ReceiveByte(c, YOUR_TURN).board == c.board
    ensures ReceiveByte(c, 0) == c
  {
  }

  /** A message with a corner square leaves the receiver's board alone. */
  lemma CornerIsSkipped(q: Core, from: Square, to: Square)
    requires Shape(q) && from.OnBoard() && to.OnBoard() && (IsCorner(from) || IsCorner(to))
    ensures Absorb(q, MoveMessage(from, to)).board == q.board
  {
    SquareRoundTrip(from);
    SquareRoundTrip(to);
    hide Shape, Absorb, ReceiveByte, EncodeSquare, DecodeSquare;
    var a, b := EncodeSquare(from), EncodeSquare(to);
    var q1 := ReceiveByte(q, BEGIN_MESSAGE);
    var q2 := ReceiveByte(q1, a);
    AbsorbFour(q, BEGIN_MESSAGE, a, b, YOUR_TURN);
    TagsKeepBoard(q);
    SquareIsStored(q1, a);
    if a == 0 {
      SquareIsStored(q1, b);
    } else {
      TagsKeepBoard(q2);
    }
    TagsKeepBoard(ReceiveByte(q2, b));
  }

  // ---------------------------------------------------------------------
  // Moves, pieces and the screen, in every uncrossed run

  lemma DraggedKinds(c: Core, x: U16, y: U16, pressed: bool)
    requires Shape(c)
    ensures Kinds(Dragged(Noticed(c), x, y, pressed)) == Kinds(c)
  {
    assert Kinds(Dragged(Noticed(c), x, y, pressed)) == Kinds(c) by { hide Painted, GetBoardX, GetBoardY; }
  }

  /** A release sends a move exactly when the drop test accepts it. */
  lemma SendsIffAccepted(c: Core, x: U16, y: U16, pressed: bool)
    requires Shape(c) && c.state == Playing && Dragged(Noticed(c), x, y, pressed).drag.Some?
    ensures Handle(c, Mouse(x, y, pressed, true), 0).send != [] <==>
            DropAccepted(Dragged(Noticed(c), x, y, pressed), Square(GetBoardX(x), GetBoardY(y)))
  {
    hide Painted, PlaceAt, PickUp, DropAccepted, GetBoardX, GetBoardY, MoveTo, DropCells, Kinds;
  }

  /** A move is sent exactly when letting go of the piece over the square is a
      pseudo-legal move of it on the sender's board at that moment, with the
      one exception of a white pawn taking the black king. */
  lemma SentMovesAreLegal(s: Schedule, n: Net, x: U16, y: U16, pressed: bool)
    requires Reached(false, s, n) && n.me.core.state == Playing
    requires Shape(n.me.core) && Dragged(Noticed(n.me.core), x, y, pressed).drag.Some?
    ensures var d := Dragged(Noticed(n.me.core), x, y, pressed);
            var p := d.pieces[d.drag.value];
            var to := Square(GetBoardX(x), GetBoardY(y));
            && Kinds(d) == Kinds(n.me.core)
            && (Handle(n.me.core, Mouse(x, y, pressed, true), 0).send != [] <==>
                  && to.OnBoard() && PseudoLegal(Kinds(d), p.kind, p.pawnMoved, d.from, to)
                  && !WhitePawnTakesKing(Kinds(d), p.kind, d.from, to))
  {
    ReachedInv(false, s, n);
    var c := Noticed(n.me.core);
    var d := Dragged(c, x, y, pressed);
    var to := Square(GetBoardX(x), GetBoardY(y));
    ControlKeeps(n.me.core, c);
    DraggedKeeps(c, x, y, pressed);
    DraggedKinds(n.me.core, x, y, pressed);
    SendsIffAccepted(n.me.core, x, y, pressed);
    hide LocalInv, Dragged, Handle, GetBoardX, GetBoardY, PseudoLegal, WhitePawnTakesKing, Kinds, Shape;
    if to.OnBoard() {
      DropIffLegal(d, to);
    } else {
      assert !DropAccepted(d, to);
    }
  }

  /** The orange squares are the move set of the piece held, on the current
      board, and there are none when no piece is held. */
  lemma HighlightsAreMoves(s: Schedule, n: Net)
    requires Reached(false, s, n)
    ensures Shape(n.me.core)
    ensures n.me.core.drag.None? ==> n.me.core.lit == {}
    ensures n.me.core.drag.Some? ==>
      var p := n.me.core.pieces[n.me.core.drag.value];
      n.me.core.lit == Painted(Kinds(n.me.core), p.kind, p.pawnMoved, n.me.core.from)
  {
    ReachedInv(false, s, n);
    hide Painted, OnScreen, Kinds;
  }

  /** No piece stands on two squares, and every piece not held is drawn on, or
      is heading for, the one square that holds it. */
  lemma ScreenFollowsBoard(s: Schedule, n: Net, at: Square)
    requires Reached(false, s, n) && at.OnBoard()
    ensures Shape(n.me.core) && Distinct(n.me.core.board)
    ensures n.me.core.board[at.Index()].Some? ==>
      var p := n.me.core.pieces[n.me.core.board[at.Index()].value];
      if p.moving then p.targetX == GetScreenX(at.col) && p.targetY == GetScreenY(at.row)
      else n.me.core.drag == n.me.core.board[at.Index()] || (p.x == GetScreenX(at.col) && p.y == GetScreenY(at.row))
  {
    ReachedInv(false, s, n);
    ScreenIsLinear(at.col);
    ScreenIsLinear(at.row);
    hide Painted, Kinds, DragInv;
  }

  /** A byte that reaches a playing peer and is not one of the tags belongs to
      the other's move: the second square carries it out, on a board on which
      the mover moves its own piece and takes none of its own. */
  lemma ReceivedIsFair(n: Net, event: Event) returns (from: Square, to: Square)
    requires NetInv(true, n) && n.me.core.state == Playing && ByteRead(n, event) != 0
    requires Shape(n.me.core) && Receives(n.me.core, Handle(n.me.core, event, ByteRead(n, event)).core, ByteRead(n, event))
    ensures from.OnBoard() && to.OnBoard() && Opposite(n.me.core, n.you.core)
    ensures var c, r := n.me.core, Handle(n.me.core, event, ByteRead(n, event)).core;
            r.board == c.board ||
            (c.board[from.Index()].Some? && r.board == MoveCells(c.board, from, to) && r.board == n.you.core.board &&
             Fair(n.you.core.player, c.board, from, to))
  {
    hide NetInv, LocalInv, Handle, Shape, Receives, Setup, Transit, Holder, Chosen, Phase, Phases, Flow;
    InvShape(true, n);
    var p, q, f, g := n.me.core, n.you.core, Flow(n), Flow(Swap(n));
    from, to := FollowsTransit(n, event);
    ReadIsFair(p, q, Handle(p, event, ByteRead(n, event)).core, g, f, n.me.closed, from, to);
  }

  /** A playing peer that reads something follows a move under way to it. */
  lemma FollowsTransit(n: Net, event: Event) returns (from: Square, to: Square)
    requires NetInv(true, n) && n.me.core.state == Playing && ByteRead(n, event) != 0
    ensures NetShape(n) && from.OnBoard() && to.OnBoard()
    ensures Transit(true, n.you.core, n.me.core, Flow(Swap(n)), Flow(n), n.me.closed, from, to)
    ensures Flow(Swap(n)) != [] && Flow(Swap(n))[0] == ByteRead(n, event)
  {
    hide LocalInv, Shape, Setup, Transit, Holder, Chosen, Phase;
    InvShape(true, n);
    var p, q, f, g := n.me.core, n.you.core, Flow(n), Flow(Swap(n));
    assert g[0] == n.me.rx[0];
    if Phase(true, p, q, f, g, n.you.closed) {
      from, to := PhaseSquares(true, p, q, f, g, n.you.closed);
      SetupIsEarly(p, q, f, g);
      LeadsReadNothing(true, p, q, f, g, n.you.closed, from, to);
    } else {
      from, to := PhaseSquares(true, q, p, g, f, n.me.closed);
      SetupIsEarly(q, p, g, f);
      ChosenIsEarly(q, p, g, f, from, to);
      LeadsReadNothing(true, q, p, g, f, n.me.closed, from, to);
    }
  }

  lemma SetupIsEarly(p: Core, q: Core, f: seq<Byte>, g: seq<Byte>)
    ensures Setup(p, q, f, g) ==> !InGame(p.state) && !InGame(q.state)
  {
  }

  lemma ChosenIsEarly(p: Core, q: Core, f: seq<Byte>, g: seq<Byte>, from: Square, to: Square)
    requires Shape(p) && Shape(q) && from.OnBoard() && to.OnBoard()
    ensures Chosen(true, p, q, f, g, from, to) ==> !InGame(q.state)
  {
    hide Shape, Ahead, MoveMessage;
  }

  lemma ReadIsFair(p: Core, q: Core, r: Core, f: seq<Byte>, g: seq<Byte>, pClosed: bool, from: Square, to: Square)
    requires Shape(p) && Shape(q) && from.OnBoard() && to.OnBoard()
    requires Transit(true, q, p, f, g, pClosed, from, to) && f != [] && f[0] != 0 && Receives(p, r, f[0])
    ensures Opposite(p, q)
    ensures r.board == p.board ||
            (p.board[from.Index()].Some? && r.board == MoveCells(p.board, from, to) && r.board == q.board &&
             Fair(q.player, p.board, from, to))
  {
    hide Shape, MoveCells, TakesKing, BothKings, EncodeSquare, DecodeSquare, Fair, Rest, CaughtUp;
    SquareRoundTrip(from);
    SquareRoundTrip(to);
    RestTail(f, from, to);
  }

  /** Every change of a board in a run without corner moves is a pseudo-legal
      move that takes none of the mover's own pieces: by the peer itself when it
      sends one, by the other when it has read one. */
  lemma MovesAreFair(s: Schedule, n: Net, event: Event) returns (from: Square, to: Square)
    requires Reached(true, s, n)
    ensures from.OnBoard() && to.OnBoard() && NetShape(n)
    ensures var c, o := n.me.core, Handle(n.me.core, event, ByteRead(n, event));
            o.core.board == c.board ||
            (&& c.board[from.Index()].Some? && o.core.board == MoveCells(c.board, from, to)
             && Fair(if o.send != [] then c.player else n.you.core.player, c.board, from, to)
             && (o.send == [] ==> Opposite(c, n.you.core)))
  {
    hide NetInv, LocalInv, Handle, Shape, Receives, Drops, Quiet, Fair, MoveCells;
    ReachedInv(true, s, n);
    InvShape(true, n);
    var c, byte := n.me.core, ByteRead(n, event);
    var o := Handle(c, event, byte);
    from, to := Square(0, 0), Square(0, 0);
    if c.state != Playing {
      SetupBoard(c, event, byte);
    } else {
      InvLocal(true, n);
      from, to := PlayingSummary(c, event, byte);
      if o.send != [] {
        DropIsFair(c, o.core, from, to);
        TakenPiece(c, o.core, from, to);
      } else if byte == 0 {
        QuietBoard(c, o.core);
      } else {
        from, to := ReceivedIsFair(n, event);
      }
    }
  }

  lemma InvLocal(strict: bool, n: Net)
    requires NetInv(strict, n)
    ensures LocalInv(n.me.core) && LocalInv(n.you.core)
  {
  }

  lemma QuietBoard(c: Core, r: Core)
    requires Quiet(c, r)
    ensures r.board == c.board
  {
  }

  /** No piece is lost but one of the other team than the mover's, on the send
      path and on the receive path. */
  lemma OnlyOpponentsTaken(s: Schedule, n: Net, event: Event) returns (taken: Option<nat>)
    requires Reached(true, s, n)
    ensures var c, o := n.me.core, Handle(n.me.core, event, ByteRead(n, event));
            && Loses(c.board, o.core.board, taken)
            && (taken.Some? ==> taken.value < PIECES)
            && (taken.Some? && o.send != [] ==> !Owns(c.player, KindOf(taken.value)))
            && (taken.Some? && o.send == [] ==> Owns(c.player, KindOf(taken.value)))
  {
    hide NetInv, LocalInv, Handle, Shape, MoveCells, Loses, KindOf, Fair, Distinct, Opposite;
    ReachedInv(true, s, n);
    InvShape(true, n);
    InvLocal(true, n);
    InvBoard(n.me.core);
    var c := n.me.core;
    var o := Handle(c, event, ByteRead(n, event));
    var from, to := MovesAreFair(s, n, event);
    taken := None;
    LosesNone(c.board);
    if o.core.board != c.board {
      taken := c.board[to.Index()];
      MoveLoses(c.board, from, to);
      FairTakes(c, n.you.core, from, to);
    }
  }

  lemma FairTakes(c: Core, d: Core, from: Square, to: Square)
    requires Shape(c) && from.OnBoard() && to.OnBoard()
    ensures var taken := c.board[to.Index()];
            && (taken.Some? ==> taken.value < PIECES)
            && (taken.Some? && Fair(c.player, c.board, from, to) ==> !Owns(c.player, KindOf(taken.value)))
            && (taken.Some? && Fair(d.player, c.board, from, to) && Opposite(c, d) ==> Owns(c.player, KindOf(taken.value)))
  {
    hide KindOf;
  }

  /** One step of a peer: no piece appears, at most one disappears, and one that
      the player's own move takes is of the other team. */
  lemma PiecesConserved(s: Schedule, n: Net, event: Event, byte: Byte) returns (taken: Option<nat>)
    requires Reached(false, s, n) && (!event.NewFrame? ==> byte == 0)
    ensures var r := Handle(n.me.core, event, byte);
            && Loses(n.me.core.board, r.core.board, taken)
            && (r.send != [] && taken.Some? && n.me.core.state == Playing ==>
                  taken.value < PIECES && !Owns(n.me.core.player, KindOf(taken.value)))
  {
    ReachedInv(false, s, n);
    taken := ConservedBy(n.me.core, event, byte);
  }

  /** The pieces of b but the taken one are those of r. */
  ghost predicate Loses(b: seq<Option<nat>>, r: seq<Option<nat>>, taken: Option<nat>) {
    forall id: nat :: Some(id) in r <==> Some(id) in b && taken != Some(id)
  }

  lemma MoveLoses(b: seq<Option<nat>>, src: Square, dst: Square)
    requires |b| == 64 && src.OnBoard() && dst.OnBoard() && Distinct(b) && b[src.Index()].Some?
    ensures Loses(b, MoveCells(b, src, dst), b[dst.Index()])
  {
    hide MoveCells, Distinct;
    forall id: nat
      ensures Some(id) in MoveCells(b, src, dst) <==> Some(id) in b && b[dst.Index()] != Some(id)
    {
      MoveTakes(b, src, dst, id);
    }
  }

  lemma LosesNone(b: seq<Option<nat>>)
    ensures Loses(b, b, None)
  {
  }

  lemma ConservedBy(c: Core, event: Event, byte: Byte) returns (taken: Option<nat>)
    requires LocalInv(c) && (!event.NewFrame? ==> byte == 0)
    ensures var r := Handle(c, event, byte);
            && Loses(c.board, r.core.board, taken)
            && (r.send != [] && taken.Some? && c.state == Playing ==>
                  taken.value < PIECES && !Owns(c.player, KindOf(taken.value)))
  {
    hide LocalInv, Handle, Shape, Distinct, MoveCells, Loses, KindOf, Quiet, Drops, Receives, MoveMessage, Owns;
    taken := None;
    LosesNone(c.board);
    InvBoard(c);
    if c.state == Playing {
      var from, to := PlayingSummary(c, event, byte);
      var o := Handle(c, event, byte);
      if o.send != [] {
        taken := c.board[to.Index()];
        TakenPiece(c, o.core, from, to);
        MoveLoses(c.board, from, to);
      } else if byte == 0 {
        QuietBoard(c, o.core);
      } else {
        ReceivedBoard(c, o.core, byte);
        if o.core.board != c.board {
          taken := c.board[DecodeSquare(byte).Index()];
          MoveLoses(c.board, c.oldSq, DecodeSquare(byte));
        }
      }
    } else {
      SetupBoard(c, event, byte);
    }
  }

  lemma ReceivedBoard(c: Core, r: Core, byte: Byte)
    requires Shape(c) && Receives(c, r, byte)
    ensures r.board == c.board ||
            (c.board[c.oldSq.Index()].Some? && r.board == MoveCells(c.board, c.oldSq, DecodeSquare(byte)))
  {
    hide MoveCells;
  }

  lemma InvBoard(c: Core)
    requires LocalInv(c)
    ensures Shape(c) && Distinct(c.board) && |c.board| == 64 && c.oldSq.OnBoard()
  {
  }

  lemma SetupBoard(c: Core, event: Event, byte: Byte)
    requires Shape(c) && c.state != Playing
    ensures Handle(c, event, byte).core.board == c.board
  {
  }

  /** What a drop takes is a piece of the other team. */
  lemma TakenPiece(c: Core, r: Core, from: Square, to: Square)
    requires Shape(c) && Drops(c, r, from, to)
    ensures to.OnBoard() && from.OnBoard() && c.board[from.Index()].Some? && r.board == MoveCells(c.board, from, to)
    ensures var taken := c.board[to.Index()];
            taken.Some? ==> taken.value < PIECES && !Owns(c.player, KindOf(taken.value))
  {
    hide MoveCells, KindOf;
  }
}
