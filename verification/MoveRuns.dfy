/** A whole move as a run: the player drags a piece and drops it, and the four
    bytes of the move reach the other peer one by one. */
module MoveRuns {
  import opened Common
  import opened Codec
  import opened Geometry
  import opened Chess
  import opened PieceMotion
  import opened Game
  import opened GameInvariants
  import opened HandlerSummary
  import opened Network
  import opened NetworkInvariant
  import opened Theorems

  // ---------------------------------------------------------------------
  // Runs

  lemma {:induction false} RunAll(n: Net, u: Schedule, v: Schedule)
    requires NetShape(n)
    ensures Run(n, u + v) == Run(Run(n, u), v)
    decreases |u|
  {
    hide Step, NetShape;
    if u == [] {
      assert u + v == v;
    } else {
      assert (u + v)[1..] == u[1..] + v;
      RunAll(Step(n, u[0].0, u[0].1), u[1..], v);
    }
  }

  lemma RunOne(n: Net, first: bool, a: Action)
    requires NetShape(n)
    ensures Run(n, [(first, a)]) == Step(n, first, a)
  {
    hide Step, NetShape;
    assert [(first, a)][1..] == [];
  }

  lemma {:induction false} CleanAll(strict: bool, n: Net, u: Schedule, v: Schedule)
    requires NetShape(n)
    ensures Clean(strict, n, u + v) <==> Clean(strict, n, u) && Clean(strict, Run(n, u), v)
    decreases |u|
  {
    hide Step, NetShape, Crossing, CornerMove;
    if u == [] {
      assert u + v == v;
    } else {
      assert (u + v)[1..] == u[1..] + v;
      CleanAll(strict, Step(n, u[0].0, u[0].1), u[1..], v);
    }
  }

  /** The same steps with the sides exchanged. */
  function Flip(u: Schedule): Schedule {
    if u == [] then [] else [(!u[0].0, u[0].1)] + Flip(u[1..])
  }

  lemma {:induction false} FlipRun(strict: bool, n: Net, u: Schedule)
    requires NetShape(n)
    ensures NetShape(Swap(n)) && Run(Swap(n), Flip(u)) == Swap(Run(n, u))
    ensures Clean(strict, Swap(n), Flip(u)) <==> Clean(strict, n, u)
    decreases |u|
  {
    if u != [] {
      var r := Step(n, u[0].0, u[0].1);
      assert Step(Swap(n), !u[0].0, u[0].1) == Swap(r) && NetShape(Swap(n)) && NetShape(r);
      assert Flip(u)[1..] == Flip(u[1..]);
      hide Step, NetShape, Crossing, CornerMove;
      FlipRun(strict, r, u[1..]);
    }
  }

  /** A run continued, from either side. */
  lemma Continue(strict: bool, s: Schedule, n: Net, u: Schedule) returns (t: Schedule)
    requires NetShape(n) && Reached(strict, s, n) && Clean(strict, n, u)
    ensures Reached(strict, t, Run(n, u))
  {
    hide Run, Clean, InitNet;
    InitShape();
    if n == Run(InitNet(), s) {
      t := s + u;
      RunAll(InitNet(), s, u);
      CleanAll(strict, InitNet(), s, u);
    } else {
      FlipRun(strict, n, u);
      t := s + Flip(u);
      RunAll(InitNet(), s, Flip(u));
      CleanAll(strict, InitNet(), s, Flip(u));
    }
  }

  // ---------------------------------------------------------------------
  // Drag and drop

  /** Pixel (x, y) is one of the square's. */
  predicate Over(x: U16, y: U16, s: Square) { GetBoardX(x) == s.col && GetBoardY(y) == s.row }

  /** The two mouse events of a move, at the first pixels of the squares. */
  function PressAt(s: Square): Event
    requires s.OnBoard()
  {
    Mouse(LEFT + TILE * s.col, TOP + TILE * s.row, true, false)
  }

  function DropAt(s: Square): Event
    requires s.OnBoard()
  {
    Mouse(LEFT + TILE * s.col, TOP + TILE * s.row, false, true)
  }

  lemma OverSquare(s: Square)
    requires s.OnBoard()
    ensures Over(LEFT + TILE * s.col, TOP + TILE * s.row, s)
  {
    BoardInvertsScreen(s.col, s.row, 0, 0);
    ScreenIsLinear(s.col);
    ScreenIsLinear(s.row);
  }

  /** In the game, with nothing in hand. */
  predicate AtRest(c: Core) {
    Shape(c) && c.state == Playing && !c.endGame && c.drag.None? && c.lit == {}
  }

  /** Pieces of the same kinds and, with `flags`, with the same pawnMoved
      flags. */
  predicate SamePieces(a: seq<PieceState>, b: seq<PieceState>, flags: bool) {
    |a| == |b| && forall k :: 0 <= k < |a| ==> a[k].kind == b[k].kind && (flags ==> a[k].pawnMoved == b[k].pawnMoved)
  }

  /** The player may pick up the piece on `from` and drop it on `to`. */
  ghost predicate MayPlay(c: Core, from: Square, to: Square)
    requires Shape(c)
  {
    && from.OnBoard() && to.OnBoard() && c.board[from.Index()].Some? && c.myTurn
    && (var p := c.pieces[c.board[from.Index()].value];
        Owns(c.player, p.kind) && Accepts(Kinds(c), p.kind, p.pawnMoved, from, to))
  }

  lemma Pressed(c: Core, from: Square, x: U16, y: U16)
    requires AtRest(c) && from.OnBoard() && Over(x, y, from) && c.myTurn && c.board[from.Index()].Some?
    requires Owns(c.player, c.pieces[c.board[from.Index()].value].kind)
    ensures var id := c.board[from.Index()].value;
            var p := c.pieces[id];
            Handle(c, Mouse(x, y, true, false), 0) ==
            Outcome(c.(drag := Some(id), from := from, pieces := c.pieces[id := p.(priority := true, change := true)],
                       lit := Painted(Kinds(c), p.kind, p.pawnMoved, from)), [], false)
  {
    hide Handle, GetBoardX, GetBoardY, Painted, Kinds, Owns, OnPlayingMouse, Shape;
    MouseEvent(c, x, y, true, false);
    PickedUp(c, x, y, from);
  }

  lemma MouseEvent(c: Core, x: U16, y: U16, pressed: bool, released: bool)
    requires Shape(c) && c.state == Playing && !c.endGame
    ensures Handle(c, Mouse(x, y, pressed, released), 0) == OnPlayingMouse(c, x, y, pressed, released)
  {
    hide OnPlayingMouse, Shape;
  }

  lemma PickedUp(c: Core, x: U16, y: U16, from: Square)
    requires AtRest(c) && c.myTurn && from.OnBoard() && Over(x, y, from)
    requires c.board[from.Index()].Some? && Owns(c.player, c.pieces[c.board[from.Index()].value].kind)
    ensures var id := c.board[from.Index()].value;
            var p := c.pieces[id];
            OnPlayingMouse(c, x, y, true, false) ==
            Outcome(c.(drag := Some(id), from := from, pieces := c.pieces[id := p.(priority := true, change := true)],
                       lit := Painted(Kinds(c), p.kind, p.pawnMoved, from)), [], false)
  {
    hide GetBoardX, GetBoardY, Painted, Kinds, Owns;
    assert forall t: set<Square> :: {} + t == t;
    assert Square(GetBoardX(x), GetBoardY(y)) == from;
  }

  lemma Dropped(c: Core, to: Square, x: U16, y: U16)
    requires Shape(c) && c.state == Playing && !c.endGame && c.drag.Some? && to.OnBoard() && DropAccepted(c, to)
    requires Over(x, y, to)
    ensures var o := Handle(c, Mouse(x, y, false, true), 0);
            var captured := c.board[to.Index()];
            && o.send == MoveMessage(c.from, to) && !o.clear && SamePieces(c.pieces, o.core.pieces, true)
            && o.core == c.(pieces := o.core.pieces, board := DropCells(c.board, c.drag.value, c.from, to),
                            endGame := captured.Some? && IsKing(c.pieces[captured.value].kind),
                            myTurn := false, drag := None, lit := {}, moves := c.moves + 1)
  {
    hide GetBoardX, GetBoardY, GetScreenX, GetScreenY, DropCells, MoveMessage;
    assert Square(GetBoardX(x), GetBoardY(y)) == to;
  }

  /** The state after the player's own move. */
  function Moved(c: Core, from: Square, to: Square): (r: Core)
    requires Shape(c) && from.OnBoard() && to.OnBoard() && c.board[from.Index()].Some?
    ensures Shape(r)
  {
    var captured := c.board[to.Index()];
    c.(board := DropCells(c.board, c.board[from.Index()].value, from, to), from := from,
       endGame := captured.Some? && IsKing(c.pieces[captured.value].kind),
       myTurn := false, moves := c.moves + 1)
  }

  /** Pressing anywhere on a square and letting go anywhere over another plays
      the move. */
  lemma DragAndDrop(c: Core, from: Square, to: Square, x: U16, y: U16, x': U16, y': U16)
    requires AtRest(c) && MayPlay(c, from, to) && Over(x, y, from) && Over(x', y', to)
    ensures var o := Handle(c, Mouse(x, y, true, false), 0);
            var r := Handle(o.core, Mouse(x', y', false, true), 0);
            && o.send == [] && !o.clear && o.core.state == Playing
            && r.send == MoveMessage(from, to) && !r.clear && SamePieces(c.pieces, r.core.pieces, true)
            && r.core == Moved(c, from, to).(pieces := r.core.pieces)
  {
    Pressed(c, from, x, y);
    var d := Handle(c, Mouse(x, y, true, false), 0).core;
    hide Handle, Kinds, DropCells, MoveMessage, Painted, Over;
    assert DropAccepted(d, to);
    Dropped(d, to, x', y');
  }

  // ---------------------------------------------------------------------
  // Delivery

  /** The same state but for the drawing of the pieces. */
  predicate Alike(a: Core, b: Core, flags: bool) {
    b == a.(pieces := b.pieces) && SamePieces(a.pieces, b.pieces, flags)
  }

  lemma {:induction false} UpdateSame(board: seq<Option<nat>>, pieces: seq<PieceState>, animation: bool, k: nat)
    requires |board| == 64 && k <= 64
    requires forall i :: 0 <= i < 64 && board[i].Some? ==> board[i].value < |pieces|
    ensures SamePieces(pieces, UpdateFrom(board, pieces, animation, k), !animation)
    decreases 64 - k
  {
    if k < 64 {
      if board[k].Some? {
        UpdateSame(board, pieces[board[k].value := Frame(pieces[board[k].value], animation)], animation, k + 1);
      } else {
        UpdateSame(board, pieces, animation, k + 1);
      }
    }
  }

  lemma ReceiveAlike(a: Core, b: Core, byte: Byte, flags: bool)
    requires Shape(a) && Shape(b) && Alike(a, b, flags)
    ensures Alike(ReceiveByte(a, byte), ReceiveByte(b, byte), flags)
  {
    hide ApplyMove, DecodeSquare, SamePieces;
    if byte != BEGIN_MESSAGE && byte != YOUR_TURN && byte != 0 && a.byteOfMove != 0 {
      ApplyAlike(a.(newSq := DecodeSquare(byte)), b.(newSq := DecodeSquare(byte)), flags);
    }
  }

  lemma ApplyAlike(a: Core, b: Core, flags: bool)
    requires Shape(a) && Shape(b) && Alike(a, b, flags)
    ensures Alike(ApplyMove(a), ApplyMove(b), flags)
  {
    hide GetScreenX, GetScreenY, MoveCells, MoveTo, SamePieces, IsKing, Shape;
    SameKinds(a, b, flags);
    if a.board[a.oldSq.Index()].Some? {
      SameMove(a.pieces, b.pieces, a.board[a.oldSq.Index()].value, GetScreenX(a.newSq.col), GetScreenY(a.newSq.row), flags);
    }
  }

  lemma SameMove(p: seq<PieceState>, q: seq<PieceState>, id: nat, x: int, y: int, flags: bool)
    requires SamePieces(p, q, flags) && id < |p|
    ensures SamePieces(p[id := MoveTo(p[id], x, y)], q[id := MoveTo(q[id], x, y)], flags)
  {
  }

  lemma SameKinds(a: Core, b: Core, flags: bool)
    requires Shape(a) && Shape(b) && Alike(a, b, flags)
    ensures |a.board| == 64 && a.newSq.OnBoard() && a.oldSq.OnBoard()
    ensures forall k :: 0 <= k < 64 && a.board[k].Some? ==>
      a.board[k].value < |a.pieces| && a.board[k].value < |b.pieces| &&
      a.pieces[a.board[k].value].kind == b.pieces[a.board[k].value].kind
  {
  }

  /** A frame reads a byte as ReceiveByte does. */
  lemma FrameReads(c: Core, byte: Byte)
    requires Shape(c) && c.state == Playing && !c.endGame
    ensures var o := Handle(c, NewFrame, byte);
            o.send == [] && !o.clear && Alike(ReceiveByte(c, byte), o.core, !c.animation)
  {
    UpdateSame(c.board, c.pieces, c.animation, 0);
    ReceiveAlike(c, Updated(c), byte, !c.animation);
    hide UpdateFrom, ReceiveByte;
  }

  /** k bytes go from me over the wire to you, who handles a frame after
      each. */
  function Delivery(k: nat): Schedule {
    if k == 0 then [] else [(true, Write), (false, Read), (false, Input(NewFrame, 0))] + Delivery(k - 1)
  }

  /** The receiver stays in the game while it reads. */
  predicate Alive(c: Core, f: seq<Byte>)
    requires Shape(c)
    decreases |f|
  {
    f == [] || (c.state == Playing && !c.endGame && Alive(ReceiveByte(c, f[0]), f[1..]))
  }

  /** Nothing is on its way from me to you but what I have still to send. */
  predicate Idle(n: Net) { n.out == [] && n.you.rx == [] && n.me.core.state != Crashed }

  lemma DeliverOne(strict: bool, n: Net)
    requires NetShape(n) && Idle(n) && n.me.tx != [] && n.you.core.state == Playing && !n.you.core.endGame
    ensures var m := Run(n, Delivery(1));
            && m.me == n.me.(tx := n.me.tx[1..]) && m.out == [] && m.inn == n.inn
            && m.you.core == Handle(n.you.core, NewFrame, n.me.tx[0]).core
            && m.you.rx == [] && m.you.tx == n.you.tx
    ensures Clean(strict, n, Delivery(1))
  {
    hide Handle, Shape, Alike;
    var b := n.me.tx[0];
    FrameReads(n.you.core, b);
    FrameReads(n.you.core, 0);
    var n1 := n.(me := n.me.(tx := n.me.tx[1..]), out := [b]);
    assert Step(n, true, Write) == n1;
    var n2 := n1.(you := n1.you.(rx := [b]), out := []);
    assert Step(n1, false, Read) == n2;
    var u := [(true, Write), (false, Read), (false, Input(NewFrame, 0))];
    assert Delivery(1) == u && u[1..] == [(false, Read), (false, Input(NewFrame, 0))] && u[1..][1..] == [(false, Input(NewFrame, 0))];
    assert u[1..][1..][1..] == [];
    var n3 := Step(n2, false, Input(NewFrame, 0));
    assert Run(n, u) == Run(n1, u[1..]) == Run(n2, u[1..][1..]) == Run(n3, []);
  }

  lemma {:induction false} AbsorbAlike(a: Core, b: Core, f: seq<Byte>, flags: bool)
    requires Shape(a) && Shape(b) && Alike(a, b, flags)
    ensures Alike(Absorb(a, f), Absorb(b, f), flags)
    ensures Alive(a, f) ==> Alive(b, f)
    decreases |f|
  {
    hide ReceiveByte, Shape, SamePieces;
    if f != [] {
      ReceiveAlike(a, b, f[0], flags);
      AbsorbAlike(ReceiveByte(a, f[0]), ReceiveByte(b, f[0]), f[1..], flags);
    }
  }

  lemma ChainAlike(a: Core, b: Core, c: Core, flags: bool)
    requires Alike(a, b, flags) && Alike(b, c, flags)
    ensures Alike(a, c, flags)
  {
  }

  lemma SameSwitch(c: Core, byte: Byte)
    requires Shape(c)
    ensures ReceiveByte(c, byte).animation == c.animation
  {
    hide MoveCells, MoveTo, DecodeSquare;
  }

  lemma DeliveryStep(k: nat)
    requires k > 0
    ensures Delivery(k) == Delivery(1) + Delivery(k - 1)
  {
    assert Delivery(1) == [(true, Write), (false, Read), (false, Input(NewFrame, 0))] + Delivery(0);
  }

  /** The bytes f, first in the transmit queue of me, are read by you as
      Absorb reads them. */
  lemma {:induction false} Deliver(strict: bool, n: Net, f: seq<Byte>)
    requires NetShape(n) && Idle(n) && f <= n.me.tx && Alive(n.you.core, f)
    ensures var m := Run(n, Delivery(|f|));
            && m.me == n.me.(tx := n.me.tx[|f|..]) && m.out == [] && m.inn == n.inn
            && m.you.rx == [] && m.you.tx == n.you.tx
            && Alike(Absorb(n.you.core, f), m.you.core, !n.you.core.animation)
    ensures Clean(strict, n, Delivery(|f|))
    decreases |f|
  {
    hide Step, ReceiveByte, Shape, Handle, Alike, Crossing, CornerMove;
    if f == [] {
      AlikeItself(n.you.core);
    } else {
      var q, flags := n.you.core, !n.you.core.animation;
      DeliverOne(strict, n);
      DeliveryStep(|f|);
      FrameReads(q, f[0]);
      SameSwitch(q, f[0]);
      var n1 := Run(n, Delivery(1));
      var q1 := ReceiveByte(q, f[0]);
      SwitchAlike(q1, n1.you.core, flags);
      AbsorbAlike(q1, n1.you.core, f[1..], flags);
      hide Alive, Delivery;
      Deliver(strict, n1, f[1..]);
      RunAll(n, Delivery(1), Delivery(|f| - 1));
      CleanAll(strict, n, Delivery(1), Delivery(|f| - 1));
      ChainAlike(Absorb(q1, f[1..]), Absorb(n1.you.core, f[1..]), Run(n, Delivery(|f|)).you.core, flags);
      assert n.me.tx[1..][|f| - 1..] == n.me.tx[|f|..];
    }
  }

  lemma AlikeItself(c: Core)
    ensures Alike(c, c, !c.animation)
  {
  }

  lemma SwitchAlike(a: Core, b: Core, flags: bool)
    requires Alike(a, b, flags)
    ensures b.animation == a.animation && b.board == a.board && b.state == a.state && b.endGame == a.endGame
    ensures b.byteOfMove == a.byteOfMove && b.oldSq == a.oldSq && b.player == a.player && b.myTurn == a.myTurn
  {
  }

  // ---------------------------------------------------------------------
  // Reading a whole message

  /** What reading bytes leaves alone. */
  predicate Spared(c: Core, r: Core) {
    && r.drag == c.drag && r.lit == c.lit && r.player == c.player && r.animation == c.animation
    && r.endGame == c.endGame && SamePieces(c.pieces, r.pieces, true)
  }

  lemma ReceiveSpares(c: Core, byte: Byte)
    requires Shape(c)
    ensures Spared(c, ReceiveByte(c, byte))
  {
    hide ApplyMove, DecodeSquare, SamePieces;
    SameItself(c.pieces);
    if byte != BEGIN_MESSAGE && byte != YOUR_TURN && byte != 0 && c.byteOfMove != 0 {
      ApplySpares(c.(newSq := DecodeSquare(byte)));
    }
  }

  lemma SameItself(p: seq<PieceState>)
    ensures SamePieces(p, p, true)
  {
  }

  lemma ApplySpares(c: Core)
    requires Shape(c)
    ensures Spared(c, ApplyMove(c))
  {
    hide MoveCells, GetScreenX, GetScreenY;
  }

  lemma {:induction false} AbsorbSpares(c: Core, f: seq<Byte>)
    requires Shape(c)
    ensures Spared(c, Absorb(c, f))
    decreases |f|
  {
    hide ReceiveByte, Shape, SamePieces;
    SameItself(c.pieces);
    if f != [] {
      var c1 := ReceiveByte(c, f[0]);
      ReceiveSpares(c, f[0]);
      AbsorbSpares(c1, f[1..]);
      SameChain(c.pieces, c1.pieces, Absorb(c, f).pieces);
    }
  }

  lemma SameChain(p: seq<PieceState>, q: seq<PieceState>, r: seq<PieceState>)
    requires SamePieces(p, q, true) && SamePieces(q, r, true)
    ensures SamePieces(p, r, true)
  {
  }

  /** Where a received move leaves a player: a move touching the corner is
      skipped, one from an empty square is a null dereference, and one that
      takes a king ends the game. */
  function Fate(c: Core, from: Square, to: Square): GameState
    requires Shape(c) && from.OnBoard() && to.OnBoard()
  {
    if IsCorner(from) || IsCorner(to) then Playing
    else if c.board[from.Index()].None? then Crashed
    else if c.board[to.Index()].Some? && IsKing(c.pieces[c.board[to.Index()].value].kind) then Exit
    else Playing
  }

  /** The receiver plays on after the move. */
  predicate Carries(c: Core, from: Square, to: Square)
    requires Shape(c) && from.OnBoard() && to.OnBoard()
  {
    Fate(c, from, to) == Playing
  }

  /** The tag and the first square are only stored. */
  lemma FirstSquare(c: Core, from: Square)
    requires Shape(c) && from.OnBoard()
    ensures var r := ReceiveByte(ReceiveByte(c, BEGIN_MESSAGE), EncodeSquare(from));
            && r == c.(byteOfMove := r.byteOfMove, oldSq := r.oldSq)
            && (if IsCorner(from) then r.byteOfMove == 0 else r.byteOfMove == 1 && r.oldSq == from)
  {
    SquareRoundTrip(from);
    hide EncodeSquare, DecodeSquare, ApplyMove;
  }

  /** The cells after a received move. */
  function Arrived(c: Core, from: Square, to: Square): (b: seq<Option<nat>>)
    requires Shape(c) && from.OnBoard() && to.OnBoard()
  {
    if IsCorner(from) || IsCorner(to) || c.board[from.Index()].None? then c.board else MoveCells(c.board, from, to)
  }

  /** The second square carries the move out, if neither was the corner. */
  lemma SecondSquare(c: Core, from: Square, to: Square)
    requires Shape(c) && from.OnBoard() && to.OnBoard() && c.state != Crashed
    requires if IsCorner(from) then c.byteOfMove == 0 else c.byteOfMove == 1 && c.oldSq == from
    ensures var r := ReceiveByte(c, EncodeSquare(to));
            && r.board == Arrived(c, from, to)
            && (r.state == Crashed <==> Fate(c, from, to) == Crashed)
            && (c.state == Playing ==> r.state == Fate(c, from, to))
  {
    SquareRoundTrip(to);
    hide EncodeSquare, DecodeSquare, MoveCells, GetScreenX, GetScreenY;
  }

  /** The receiver reads the whole message and has the turn. */
  lemma MessageKeepsGame(c: Core, from: Square, to: Square)
    requires Shape(c) && c.state == Playing && !c.endGame && from.OnBoard() && to.OnBoard() && Carries(c, from, to)
    ensures var r := Absorb(c, MoveMessage(from, to)); r.state == Playing && r.myTurn
    ensures Alive(c, MoveMessage(from, to))
  {
    hide Shape, Absorb, EncodeSquare, ReceiveByte, Spared, IsCorner;
    var a, b := EncodeSquare(from), EncodeSquare(to);
    var c1 := ReceiveByte(c, BEGIN_MESSAGE);
    var c2 := ReceiveByte(c1, a);
    var c3 := ReceiveByte(c2, b);
    FirstSquare(c, from);
    SecondSquare(c2, from, to);
    BeginKeeps(c);
    TurnKeeps(c3);
    ReceiveSpares(c2, b);
    AbsorbFour(c, BEGIN_MESSAGE, a, b, YOUR_TURN);
    EndKept(c2, c3);
    AliveFour(c, BEGIN_MESSAGE, a, b, YOUR_TURN);
  }

  /** Reading a whole message is a null dereference exactly when neither square
      is the corner and the first is empty on the receiver's board. */
  lemma MessageCrashesIff(c: Core, from: Square, to: Square)
    requires Shape(c) && c.state != Crashed && from.OnBoard() && to.OnBoard()
    ensures Absorb(c, MoveMessage(from, to)).state == Crashed <==>
            !IsCorner(from) && !IsCorner(to) && c.board[from.Index()].None?
  {
    hide Shape, Absorb, EncodeSquare, ReceiveByte, IsCorner;
    var a, b := EncodeSquare(from), EncodeSquare(to);
    FirstSquare(c, from);
    SecondSquare(ReceiveByte(ReceiveByte(c, BEGIN_MESSAGE), a), from, to);
    BeginKeeps(c);
    TurnKeeps(ReceiveByte(ReceiveByte(ReceiveByte(c, BEGIN_MESSAGE), a), b));
    AbsorbFour(c, BEGIN_MESSAGE, a, b, YOUR_TURN);
  }

  lemma BeginKeeps(c: Core)
    requires Shape(c)
    ensures ReceiveByte(c, BEGIN_MESSAGE) == c.(byteOfMove := 0)
  {
  }

  lemma TurnKeeps(c: Core)
    requires Shape(c)
    ensures ReceiveByte(c, YOUR_TURN) == c.(myTurn := true)
  {
  }

  lemma EndKept(c: Core, r: Core)
    requires Spared(c, r)
    ensures r.endGame == c.endGame
  {
  }

  lemma AliveFour(c: Core, b0: Byte, b1: Byte, b2: Byte, b3: Byte)
    requires Shape(c) && c.state == Playing && !c.endGame
    requires var c1 := ReceiveByte(c, b0); c1.state == Playing && !c1.endGame
    requires var c2 := ReceiveByte(ReceiveByte(c, b0), b1); c2.state == Playing && !c2.endGame
    requires var c3 := ReceiveByte(ReceiveByte(ReceiveByte(c, b0), b1), b2); c3.state == Playing && !c3.endGame
    ensures Alive(c, [b0, b1, b2, b3])
  {
    hide ReceiveByte, Shape, Alive;
    var c1 := ReceiveByte(c, b0);
    var c2 := ReceiveByte(c1, b1);
    var c3 := ReceiveByte(c2, b2);
    var f2, f1 := [b2] + [b3], [b1] + ([b2] + [b3]);
    AliveStep(c3, b3, []);
    assert [b3] + [] == [b3];
    AliveStep(c2, b2, [b3]);
    AliveStep(c1, b1, f2);
    AliveStep(c, b0, f1);
    assert [b0] + f1 == [b0, b1, b2, b3];
  }

  lemma AliveStep(c: Core, b: Byte, f: seq<Byte>)
    requires Shape(c)
    ensures Alive(c, [b] + f) <==> c.state == Playing && !c.endGame && Alive(ReceiveByte(c, b), f)
    ensures Alive(ReceiveByte(c, b), [])
  {
    assert ([b] + f)[1..] == f;
  }

  // ---------------------------------------------------------------------
  // The move and its four bytes as a run

  /** Nothing is under way in either direction. */
  predicate NothingUnderWay(n: Net) { n.me.tx == n.you.tx == n.me.rx == n.you.rx == n.out == n.inn == [] }

  /** The step with which a move is made. */
  lemma MoveSent(n: Net, event: Event, from: Square, to: Square)
    requires NetShape(n) && |n.me.tx| <= 6 && from.OnBoard() && to.OnBoard() && event.Mouse?
    requires var o := Handle(n.me.core, event, 0); o.send == MoveMessage(from, to) && !o.clear
    ensures var m := Step(n, true, Input(event, 0));
            && m.me.core == Handle(n.me.core, event, 0).core && m.me.tx == n.me.tx + MoveMessage(from, to)
            && m.you == n.you && m.out == n.out && m.me.rx == n.me.rx && m.inn == n.inn
  {
    hide Handle, Shape, MoveMessage, Enqueue;
    EnqueueAllFits(n.me.tx, MoveMessage(from, to));
  }

  lemma OneByteMore(k: nat)
    ensures Delivery(k + 1) == Delivery(k) + Delivery(1)
  {
    if k > 0 {
      DeliveryStep(k + 1);
      DeliveryStep(k);
      OneByteMore(k - 1);
      assert Delivery(1) + (Delivery(k - 1) + Delivery(1)) == Delivery(1) + Delivery(k - 1) + Delivery(1);
    } else {
      assert Delivery(0) + Delivery(1) == Delivery(1);
    }
  }

  /** YOUR_TURN passes the turn and leaves both boards alone; to a peer that
      has left the game its delivery does nothing. */
  lemma LastByte(n: Net)
    requires NetShape(n) && Idle(n) && n.me.tx == [YOUR_TURN]
    requires n.you.core.state == Playing ==> !n.you.core.endGame
    requires InGame(n.you.core.state)
    ensures var m := Run(n, Delivery(1));
            && m.you.core.board == n.you.core.board && m.you.core.state == n.you.core.state && m.me.core == n.me.core
            && m.you.core.myTurn == (n.you.core.state == Playing || n.you.core.myTurn)
  {
    if n.you.core.state == Playing {
      DeliverOne(false, n);
      FrameReads(n.you.core, YOUR_TURN);
      TurnKeeps(n.you.core);
      hide Handle, ReceiveByte, Shape, SamePieces;
    } else {
      LeftAlone(n);
    }
  }

  lemma LeftAlone(n: Net)
    requires NetShape(n) && (n.you.core.state == Exit || n.you.core.state == Crashed)
    ensures var m := Run(n, Delivery(1)); m.you.core == n.you.core && m.me.core == n.me.core
  {
    hide Shape, OnPlaying;
    var u := [(true, Write), (false, Read), (false, Input(NewFrame, 0))];
    assert Delivery(1) == u && u[1..] == [(false, Read), (false, Input(NewFrame, 0))] && u[1..][1..] == [(false, Input(NewFrame, 0))];
    assert u[1..][1..][1..] == [];
    var n1 := Step(n, true, Write);
    var n2 := Step(n1, false, Read);
    var n3 := Step(n2, false, Input(NewFrame, 0));
    assert Run(n, u) == Run(n1, u[1..]) == Run(n2, u[1..][1..]) == Run(n3, []);
  }

  /** Up to the second square the receiver is in the game, and that square
      decides its fate. */
  lemma ThreeBytes(c: Core, from: Square, to: Square)
    requires Shape(c) && c.state == Playing && !c.endGame && from.OnBoard() && to.OnBoard()
    ensures MoveMessage(from, to)[..3] == [BEGIN_MESSAGE, EncodeSquare(from), EncodeSquare(to)]
    ensures Alive(c, MoveMessage(from, to)[..3])
    ensures var r := Absorb(c, MoveMessage(from, to)[..3]);
            && r.state == Fate(c, from, to) && !r.endGame && r.myTurn == c.myTurn
            && r.board == Absorb(c, MoveMessage(from, to)).board == Arrived(c, from, to)
  {
    hide Shape, EncodeSquare, ReceiveByte, IsCorner, Absorb, Alive;
    var a, b := EncodeSquare(from), EncodeSquare(to);
    var f := [a] + ([b] + []);
    assert MoveMessage(from, to)[..3] == [BEGIN_MESSAGE, a, b] == [BEGIN_MESSAGE] + f;
    var c1 := ReceiveByte(c, BEGIN_MESSAGE);
    var c2 := ReceiveByte(c1, a);
    var c3 := ReceiveByte(c2, b);
    BeginKeeps(c);
    FirstSquare(c, from);
    SecondSquare(c2, from, to);
    TurnUntouched(c2, to);
    ReceiveSpares(c2, b);
    TurnKeeps(c3);
    AliveStep(c2, b, []);
    AliveStep(c1, a, [b] + []);
    AliveStep(c, BEGIN_MESSAGE, f);
    AbsorbFour(c, BEGIN_MESSAGE, a, b, YOUR_TURN);
    AbsorbStep(c2, b, []);
    AbsorbStep(c1, a, [b] + []);
    AbsorbStep(c, BEGIN_MESSAGE, f);
    AbsorbNothing(c3);
  }

  /** Bytes read one lot after another. */
  lemma {:induction false} AbsorbAll(c: Core, f: seq<Byte>, g: seq<Byte>)
    requires Shape(c)
    ensures Absorb(c, f + g) == Absorb(Absorb(c, f), g)
    ensures Alive(c, f) && Alive(Absorb(c, f), g) ==> Alive(c, f + g)
    decreases |f|
  {
    hide ReceiveByte, Shape;
    if f == [] {
      assert f + g == g;
    } else {
      assert (f + g)[1..] == f[1..] + g;
      AbsorbAll(ReceiveByte(c, f[0]), f[1..], g);
    }
  }

  lemma AbsorbNothing(c: Core)
    requires Shape(c)
    ensures Absorb(c, []) == c
  {
  }

  lemma TurnUntouched(c: Core, to: Square)
    requires Shape(c) && to.OnBoard()
    ensures ReceiveByte(c, EncodeSquare(to)).myTurn == c.myTurn
  {
    SquareRoundTrip(to);
    hide EncodeSquare, DecodeSquare, MoveCells, GetScreenX, GetScreenY;
  }

  /** From a quiet state with equal boards, in any run in which no handshakes
      crossed, a move and the delivery of its four bytes leave equal boards if
      and only if it does not touch square (0, 0). */
  lemma DeliveredIffNoCorner(s: Schedule, n: Net, event: Event, from: Square, to: Square)
    requires Reached(false, s, n) && NetShape(n) && NothingUnderWay(n) && n.me.core.board == n.you.core.board
    requires n.me.core.state == n.you.core.state == Playing && !n.me.core.endGame && !n.you.core.endGame
    requires from.OnBoard() && to.OnBoard() && Handle(n.me.core, event, 0).send == MoveMessage(from, to)
    ensures var m := Run(n, [(true, Input(event, 0))] + Delivery(4));
            m.me.core.board == m.you.core.board <==> !IsCorner(from) && !IsCorner(to)
  {
    hide NetInv, Shape, Handle, ReceiveByte, Absorb, Alive, MoveCells, MoveMessage, IsCorner, Delivery, Run, Step, Alike;
    var c, d := n.me.core, n.you.core;
    var n1 := DropStep(s, n, event, from, to);
    var f := MoveMessage(from, to)[..3];
    ThreeBytes(d, from, to);
    Deliver(false, n1, f);
    var n2 := Run(n1, Delivery(3));
    SwitchAlike(Absorb(d, f), n2.you.core, !d.animation);
    MessageEnd(from, to);
    LastByte(n2);
    OneByteMore(3);
    RunAll(n1, Delivery(3), Delivery(1));
    RunFirst(n, (true, Input(event, 0)), Delivery(4));
    MoveArrivesIff(n1.me.core, d, from, to);
  }

  /** From any quiet state of such a run a move and the delivery of its bytes
      leave the receiver dead exactly when the move starts from a square that is
      empty on its board, and out of the game when it takes a king there; the
      turn passes exactly when the receiver plays on. */
  lemma DeliveredFate(s: Schedule, n: Net, event: Event, from: Square, to: Square)
    requires Reached(false, s, n) && NetShape(n) && NothingUnderWay(n)
    requires n.me.core.state == n.you.core.state == Playing && !n.me.core.endGame && !n.you.core.endGame
    requires from.OnBoard() && to.OnBoard() && Handle(n.me.core, event, 0).send == MoveMessage(from, to)
    ensures var r := Run(n, [(true, Input(event, 0))] + Delivery(4)).you.core;
            && r.state == Fate(n.you.core, from, to) && r.myTurn == (r.state == Playing)
            && r.board == Arrived(n.you.core, from, to)
  {
    hide NetInv, Shape, Handle, ReceiveByte, Absorb, Alive, MoveCells, MoveMessage, IsCorner, Delivery, Run, Step, Alike, Fate;
    var d := n.you.core;
    var n1 := DropStep(s, n, event, from, to);
    NoOtherTurn(s, n);
    var f := MoveMessage(from, to)[..3];
    ThreeBytes(d, from, to);
    Deliver(false, n1, f);
    var n2 := Run(n1, Delivery(3));
    SwitchAlike(Absorb(d, f), n2.you.core, !d.animation);
    FateInGame(d, from, to);
    MessageEnd(from, to);
    LastByte(n2);
    OneByteMore(3);
    RunAll(n1, Delivery(3), Delivery(1));
    RunFirst(n, (true, Input(event, 0)), Delivery(4));
  }

  lemma FateInGame(c: Core, from: Square, to: Square)
    requires Shape(c) && from.OnBoard() && to.OnBoard()
    ensures InGame(Fate(c, from, to))
  {
  }

  lemma NoOtherTurn(s: Schedule, n: Net)
    requires Reached(false, s, n) && n.me.core.myTurn
    ensures !n.you.core.myTurn
  {
    hide Reached, TurnsUnderWay, Flow;
    TurnToken(s, n);
  }

  lemma MessageEnd(from: Square, to: Square)
    requires from.OnBoard() && to.OnBoard()
    ensures |MoveMessage(from, to)[..3]| == 3 && MoveMessage(from, to)[3..] == [YOUR_TURN]
    ensures MoveMessage(from, to)[..3] <= MoveMessage(from, to)
  {
  }

  lemma RunFirst(n: Net, x: (bool, Action), u: Schedule)
    requires NetShape(n)
    ensures Run(n, [x] + u) == Run(Step(n, x.0, x.1), u)
  {
    assert ([x] + u)[1..] == u;
    hide Step, NetShape;
  }

  /** The first step of the move. */
  lemma DropStep(s: Schedule, n: Net, event: Event, from: Square, to: Square) returns (m: Net)
    requires Reached(false, s, n) && NetShape(n) && NothingUnderWay(n)
    requires n.me.core.state == Playing && !n.me.core.endGame
    requires from.OnBoard() && to.OnBoard() && Handle(n.me.core, event, 0).send == MoveMessage(from, to)
    ensures m == Step(n, true, Input(event, 0)) && NetShape(m) && Idle(m)
    ensures m.you == n.you && m.me.tx == MoveMessage(from, to)
    ensures n.me.core.myTurn && Distinct(n.me.core.board) && Movable(n.me.core.board, from, to)
    ensures m.me.core.board == MoveCells(n.me.core.board, from, to)
  {
    hide NetInv, Shape, LocalInv, Handle, MoveCells, MoveMessage, Distinct, Movable, KindOn, TakesKing, Owns;
    ReachedInv(false, s, n);
    InvLocal(false, n);
    InvBoard(n.me.core);
    MessageEnd(from, to);
    var a, b := SendingIsPlaying(n.me.core, event);
    SameMessage(a, b, from, to);
    MoveSent(n, event, from, to);
    assert [] + MoveMessage(from, to) == MoveMessage(from, to);
    m := Step(n, true, Input(event, 0));
  }

  /** In the game, only a mouse event sends, and what it sends is a move. */
  lemma SendingIsPlaying(c: Core, event: Event) returns (from: Square, to: Square)
    requires LocalInv(c) && c.state == Playing && Handle(c, event, 0).send != []
    ensures Shape(c) && from.OnBoard() && to.OnBoard() && event.Mouse?
    ensures var o := Handle(c, event, 0); !o.clear && o.send == MoveMessage(from, to) && Drops(c, o.core, from, to)
  {
    hide LocalInv, Shape, OnPlayingMouse, ReceiveByte, UpdateFrom, Drops, Quiet, Receives, MoveMessage;
    InvBoard(c);
    from, to := PlayingSummary(c, event, 0);
  }

  lemma SameMessage(a: Square, b: Square, c: Square, d: Square)
    requires a.OnBoard() && b.OnBoard() && c.OnBoard() && d.OnBoard() && MoveMessage(a, b) == MoveMessage(c, d)
    ensures a == c && b == d
  {
    assert MoveMessage(a, b)[1] == MoveMessage(c, d)[1] && MoveMessage(a, b)[2] == MoveMessage(c, d)[2];
    SquareRoundTrip(a);
    SquareRoundTrip(b);
    SquareRoundTrip(c);
    SquareRoundTrip(d);
    hide EncodeSquare, DecodeSquare;
  }

  // ---------------------------------------------------------------------
  // Playing on

  /** Both peers are in the game with nothing in hand and nothing under way. */
  predicate Table(n: Net) { AtRest(n.me.core) && AtRest(n.you.core) && NothingUnderWay(n) }

  /** The piece taken, if any, is no king. */
  predicate NoKing(c: Core, to: Square)
    requires Shape(c) && to.OnBoard()
  {
    c.board[to.Index()].Some? ==> !IsKing(c.pieces[c.board[to.Index()].value].kind)
  }

  /** The two events of the move. */
  lemma DragRun(strict: bool, n: Net, from: Square, to: Square) returns (m: Net)
    requires NetShape(n) && AtRest(n.me.core) && |n.me.tx| <= 6 && MayPlay(n.me.core, from, to)
    requires strict ==> !IsCorner(from) && !IsCorner(to)
    ensures var u := [(true, Input(PressAt(from), 0)), (true, Input(DropAt(to), 0))];
            m == Run(n, u) && Clean(strict, n, u)
    ensures NetShape(m) && m.me.tx == n.me.tx + MoveMessage(from, to) && m.you == n.you
    ensures m.out == n.out && m.inn == n.inn && m.me.rx == n.me.rx
    ensures SamePieces(n.me.core.pieces, m.me.core.pieces, true)
    ensures m.me.core == Moved(n.me.core, from, to).(pieces := m.me.core.pieces)
  {
    hide Shape, Handle, MoveMessage, DropCells, Kinds, Accepts, Owns, IsCorner, SamePieces, Run, Over;
    var c := n.me.core;
    var x, y := (true, Input(PressAt(from), 0)), (true, Input(DropAt(to), 0));
    OverSquare(from);
    OverSquare(to);
    DragAndDrop(c, from, to, LEFT + TILE * from.col, TOP + TILE * from.row, LEFT + TILE * to.col, TOP + TILE * to.row);
    EventSent(n, PressAt(from));
    var n1 := Step(n, true, Input(PressAt(from), 0));
    MoveSent(n1, DropAt(to), from, to);
    m := Step(n1, true, Input(DropAt(to), 0));
    assert [x, y] == [x] + [y] && [y] == [y] + [];
    RunFirst(n, x, [y]);
    RunFirst(n1, y, []);
    RunNothing(m);
    if strict {
      MessageCorner(from, to);
    }
    CleanFirst(strict, n1, y.1, []);
    CleanFirst(strict, n, x.1, [y]);
  }

  lemma RunNothing(n: Net)
    requires NetShape(n)
    ensures Run(n, []) == n
  {
  }

  lemma CleanFirst(strict: bool, n: Net, a: Action, u: Schedule)
    requires NetShape(n) && !Crossing(n, a) && (strict ==> !CornerMove(n, a))
    requires u == [] || Clean(strict, Step(n, true, a), u)
    ensures Clean(strict, n, [(true, a)] + u)
  {
    hide Step, Crossing, CornerMove;
    assert ([(true, a)] + u)[1..] == u;
  }

  lemma MessageCorner(from: Square, to: Square)
    requires from.OnBoard() && to.OnBoard() && !IsCorner(from) && !IsCorner(to)
    ensures MoveMessage(from, to)[1] != 0 && MoveMessage(from, to)[2] != 0
  {
    SquareRoundTrip(from);
    SquareRoundTrip(to);
  }

  /** A mouse event that sends nothing. */
  lemma EventSent(n: Net, event: Event)
    requires NetShape(n) && event.Mouse?
    requires var o := Handle(n.me.core, event, 0); o.send == [] && !o.clear
    ensures Step(n, true, Input(event, 0)) == n.(me := n.me.(core := Handle(n.me.core, event, 0).core))
  {
    hide Handle, Shape;
    assert n.me.sent + [] == n.me.sent;
  }

  lemma SwapReached(strict: bool, s: Schedule, n: Net)
    requires Reached(strict, s, n)
    ensures Reached(strict, s, Swap(n))
  {
    hide Run, Clean, InitNet;
  }

  lemma AbsorbedBoard(c: Core, from: Square, to: Square)
    requires Shape(c) && from.OnBoard() && to.OnBoard() && Carries(c, from, to)
    ensures Absorb(c, MoveMessage(from, to)).board ==
            if IsCorner(from) || IsCorner(to) then c.board else MoveCells(c.board, from, to)
  {
    if IsCorner(from) || IsCorner(to) {
      CornerIsSkipped(c, from, to);
    } else {
      AbsorbMessage(c, MoveMessage(from, to), from, to);
    }
    hide MoveCells, Absorb;
  }

  /** The receiver is at rest again, and has the turn. */
  lemma ReadAlike(c: Core, a: Core, r: Core)
    requires Shape(a) && Shape(r) && AtRest(c) && Spared(c, a) && a.state == Playing && a.myTurn && Alike(a, r, !c.animation)
    ensures AtRest(r) && r.myTurn && r.player == c.player && r.animation == c.animation && r.board == a.board
    ensures SamePieces(c.pieces, r.pieces, !c.animation)
  {
  }

  /** A whole move as a run: the player drags and drops, the other reads and
      plays on. The pair is then seen from the side of the player who moves
      next; one who has taken the king is about to leave. */
  lemma PlayMove(strict: bool, s: Schedule, n: Net, from: Square, to: Square) returns (t: Schedule, m: Net)
    requires NetShape(n) && Reached(strict, s, n) && Table(n) && MayPlay(n.me.core, from, to)
    requires Carries(n.you.core, from, to) && (strict ==> !IsCorner(from) && !IsCorner(to))
    ensures NetShape(m) && Reached(strict, t, m) && AtRest(m.me.core) && NothingUnderWay(m)
    ensures m.you.core.state == Playing && m.you.core.endGame == !NoKing(n.me.core, to)
    ensures NoKing(n.me.core, to) ==> Table(m)
    ensures Played(n, m, from, to)
  {
    hide Shape, Handle, ReceiveByte, Absorb, Alive, MoveMessage, IsCorner, Delivery, Run, Step, Alike, Kinds, Accepts, Owns;
    var c, d := n.me.core, n.you.core;
    var n1 := DragRun(strict, n, from, to);
    assert [] + MoveMessage(from, to) == MoveMessage(from, to);
    var u := [(true, Input(PressAt(from), 0)), (true, Input(DropAt(to), 0))];
    MessageKeepsGame(d, from, to);
    AbsorbSpares(d, MoveMessage(from, to));
    AbsorbedBoard(d, from, to);
    Deliver(strict, n1, MoveMessage(from, to));
    var r := Run(n1, Delivery(4));
    RunAll(n, u, Delivery(4));
    CleanAll(strict, n, u, Delivery(4));
    t := Continue(strict, s, n, u + Delivery(4));
    m := Swap(r);
    SwapReached(strict, t, r);
    ReadAlike(d, Absorb(d, MoveMessage(from, to)), r.you.core);
  }

  /** What a move leaves of the pair, seen from the other side. */
  predicate Played(n: Net, m: Net, from: Square, to: Square)
    requires NetShape(n) && NetShape(m) && from.OnBoard() && to.OnBoard() && n.me.core.board[from.Index()].Some?
  {
    && m.me.core.myTurn && !m.you.core.myTurn
    && m.me.core.player == n.you.core.player && m.you.core.player == n.me.core.player
    && m.me.core.animation == n.you.core.animation && m.you.core.animation == n.me.core.animation
    && m.you.core.board == DropCells(n.me.core.board, n.me.core.board[from.Index()].value, from, to)
    && m.me.core.board == (if IsCorner(from) || IsCorner(to) then n.you.core.board else MoveCells(n.you.core.board, from, to))
    && SamePieces(n.me.core.pieces, m.you.core.pieces, true)
    && SamePieces(n.you.core.pieces, m.me.core.pieces, !n.you.core.animation)
  }
}
