/** What every event handler keeps true of one peer: pieces are neither
    duplicated nor lost, the screen agrees with the board, and the highlighted
    pixels are the move set of the dragged piece. */
module GameInvariants {
  import opened Common
  import opened Codec
  import opened Geometry
  import opened Chess
  import opened PieceMotion
  import opened Game

  /** No piece stands on two squares. */
  predicate Distinct(b: seq<Option<nat>>) {
    forall i, j :: 0 <= i < j < |b| && b[i].Some? ==> b[i] != b[j]
  }

  // ---------------------------------------------------------------------
  // Moves on the cells

  /** A move that can be carried out: a piece leaves one square for another. */
  predicate Movable(b: seq<Option<nat>>, src: Square, dst: Square) {
    && |b| == 64 && src.OnBoard() && dst.OnBoard() && src != dst
    && b[src.Index()].Some?
  }

  lemma MoveDistinct(b: seq<Option<nat>>, src: Square, dst: Square)
    requires |b| == 64 && src.OnBoard() && dst.OnBoard() && Distinct(b)
    ensures Distinct(MoveCells(b, src, dst))
  {
  }

  lemma DropDistinct(b: seq<Option<nat>>, id: nat, src: Square, dst: Square)
    requires |b| == 64 && src.OnBoard() && dst.OnBoard() && Distinct(b) && b[src.Index()] == Some(id)
    ensures Distinct(DropCells(b, id, src, dst))
  {
  }

  /** A move keeps every piece but the one on its target. */
  lemma MoveTakes(b: seq<Option<nat>>, src: Square, dst: Square, id: nat)
    requires |b| == 64 && src.OnBoard() && dst.OnBoard() && Distinct(b) && b[src.Index()].Some?
    ensures Some(id) in MoveCells(b, src, dst) <==> Some(id) in b && b[dst.Index()] != Some(id)
  {
    var r := MoveCells(b, src, dst);
    if Some(id) in b && b[dst.Index()] != Some(id) {
      var k :| 0 <= k < 64 && b[k] == Some(id);
      if k == src.Index() {
        assert r[dst.Index()] == Some(id);
      } else {
        assert r[k] == Some(id);
      }
    }
    if Some(id) in r {
      var k :| 0 <= k < 64 && r[k] == Some(id);
      if k == dst.Index() {
        assert b[src.Index()] == Some(id);
      }
    }
  }

  /** The send path and the receive path write the cells in different orders,
      with the same result; each keeps every piece but the captured one. */
  lemma MoveConserves(b: seq<Option<nat>>, src: Square, dst: Square, id: nat)
    requires Movable(b, src, dst) && Distinct(b)
    ensures MoveCells(b, src, dst) == DropCells(b, b[src.Index()].value, src, dst)
    ensures Distinct(MoveCells(b, src, dst))
    ensures Some(id) in MoveCells(b, src, dst) <==> Some(id) in b && b[dst.Index()] != Some(id)
    ensures MoveCells(b, src, dst) != b
  {
    MoveTakes(b, src, dst, id);
    MoveDistinct(b, src, dst);
    assert src.Index() != dst.Index();
  }

  // ---------------------------------------------------------------------
  // Invariants

  predicate KindsFixed(c: Core)
    requires Shape(c)
  {
    forall id :: 0 <= id < PIECES ==> c.pieces[id].kind == KindOf(id)
  }

  /** Nothing has happened on the board yet. */
  predicate Fresh(c: Core) {
    && c.board == InitBoard() && c.pieces == InitPieces() && c.drag.None? && c.lit == {}
    && !c.myTurn && !c.endGame && c.byteOfMove == 0 && c.moves == 0
  }

  predicate InGame(s: GameState) { s == Playing || s == Exit || s == Crashed }

  /** A piece is held only with the turn, from its own square, and then the
      orange squares are exactly its squares on the current board. */
  ghost predicate DragInv(c: Core)
    requires Shape(c)
  {
    match c.drag
    case None => c.lit == {}
    case Some(id) =>
      && c.myTurn && c.board[c.from.Index()] == Some(id) && Owns(c.player, c.pieces[id].kind)
      && c.lit == Painted(Kinds(c), c.pieces[id].kind, c.pieces[id].pawnMoved, c.from)
  }

  /** Piece p stands, or is heading, where square s is drawn. */
  predicate Settled(p: PieceState, s: Square, held: bool) {
    && (p.moving ==> p.targetX == LEFT + TILE * s.col && p.targetY == TOP + TILE * s.row)
    && (!p.moving && !held ==> p.x == LEFT + TILE * s.col && p.y == TOP + TILE * s.row)
  }

  ghost predicate ScreenAgrees(b: seq<Option<nat>>, pieces: seq<PieceState>, drag: Option<nat>)
    requires |b| == 64
    requires forall k :: 0 <= k < 64 && b[k].Some? ==> b[k].value < |pieces|
  {
    forall s: Square :: s.OnBoard() && b[s.Index()].Some? ==>
      Settled(pieces[b[s.Index()].value], s, drag == b[s.Index()])
  }

  /** The screen agrees with the board. */
  ghost predicate OnScreen(c: Core)
    requires Shape(c)
  {
    ScreenAgrees(c.board, c.pieces, c.drag)
  }

  /** No pawn on the board is about to have its pawnMoved flag set. */
  predicate PawnsSettled(c: Core)
    requires Shape(c)
  {
    forall k :: 0 <= k < 64 && c.board[k].Some? ==>
      var p := c.pieces[c.board[k].value];
      p.moving && IsPawn(p.kind) ==> p.pawnMoved
  }

  ghost predicate LocalInv(c: Core) {
    && Shape(c) && Distinct(c.board) && KindsFixed(c)
    && DragInv(c) && OnScreen(c)
    && (c.myTurn ==> PawnsSettled(c))
    && (!InGame(c.state) ==> Fresh(c))
  }

  /** Piece and square of the initial position. */
  lemma InitCell(k: nat)
    requires k < 64 && InitBoard()[k].Some?
    ensures var id := InitBoard()[k].value;
            id < PIECES && HomeOf(id) == k && InitPieces()[id] == InitPiece(id)
  {
  }

  lemma InitRange()
    ensures |InitPieces()| == PIECES
    ensures forall k :: 0 <= k < 64 && InitBoard()[k].Some? ==> InitBoard()[k].value < PIECES
  {
  }

  lemma InitDistinct()
    ensures Distinct(InitBoard())
  {
  }

  lemma InitSettled(id: nat)
    requires id < PIECES
    ensures Settled(InitPiece(id), SquareAt(HomeOf(id)), false) && InitPiece(id).kind == KindOf(id) && !InitPiece(id).moving
  {
  }

  lemma InitScreen()
    ensures ScreenAgrees(InitBoard(), InitPieces(), None)
  {
    hide InitBoard, InitPieces, Settled, KindOf, HomeOf;
    InitRange();
    forall s: Square | s.OnBoard() && InitBoard()[s.Index()].Some?
      ensures Settled(InitPieces()[InitBoard()[s.Index()].value], s, false)
    {
      InitCell(s.Index());
      InitSettled(InitBoard()[s.Index()].value);
      assert SquareAt(s.Index()) == s;
    }
  }

  lemma InitKindsFixed()
    ensures forall id :: 0 <= id < PIECES ==> InitPieces()[id].kind == KindOf(id)
  {
    hide KindOf;
  }

  lemma InitialInv()
    ensures LocalInv(InitCore())
  {
    hide InitBoard, InitPieces, ScreenAgrees, Distinct, KindOf, Kinds, Painted;
    InitDistinct();
    InitScreen();
    InitKindsFixed();
  }

  /** updateBoard advances each piece of the board once and no other piece. */
  lemma {:induction false} UpdateAt(board: seq<Option<nat>>, pieces: seq<PieceState>, animation: bool, k: nat, id: nat)
    requires |board| == 64 && k <= 64 && id < |pieces|
    requires forall i :: 0 <= i < 64 && board[i].Some? ==> board[i].value < |pieces|
    requires Distinct(board)
    ensures UpdateFrom(board, pieces, animation, k)[id] ==
            if Some(id) in board[k..] then Frame(pieces[id], animation) else pieces[id]
    decreases 64 - k
  {
    if k < 64 {
      assert board[k..] == [board[k]] + board[k + 1..];
      if board[k].Some? {
        var p' := pieces[board[k].value := Frame(pieces[board[k].value], animation)];
        UpdateAt(board, p', animation, k + 1, id);
        assert Some(id) == board[k] ==> Some(id) !in board[k + 1..];
      } else {
        UpdateAt(board, pieces, animation, k + 1, id);
      }
    }
  }

  /** A frame's board update. */
  function Updated(c: Core): (u: Core)
    requires Shape(c)
    ensures Shape(u)
  {
    c.(pieces := UpdateFrom(c.board, c.pieces, c.animation, 0))
  }

  lemma UpdatedPiece(c: Core, id: nat)
    requires Shape(c) && Distinct(c.board) && id < PIECES
    ensures Updated(c).pieces[id] == if Some(id) in c.board then Frame(c.pieces[id], c.animation) else c.pieces[id]
  {
    UpdateAt(c.board, c.pieces, c.animation, 0, id);
    assert c.board[0..] == c.board;
  }

  /** The update settles every pawn's flag and keeps the screen in step. */
  lemma UpdateScreen(c: Core)
    requires Shape(c) && Distinct(c.board) && OnScreen(c)
    ensures OnScreen(Updated(c)) && PawnsSettled(Updated(c))
  {
    forall k | 0 <= k < 64 && c.board[k].Some?
      ensures Updated(c).pieces[c.board[k].value] == Frame(c.pieces[c.board[k].value], c.animation)
    {
      UpdatedPiece(c, c.board[k].value);
    }
  }

  lemma UpdateKinds(c: Core)
    requires Shape(c) && Distinct(c.board) && KindsFixed(c)
    ensures KindsFixed(Updated(c)) && Kinds(Updated(c)) == Kinds(c)
  {
    forall id | 0 <= id < PIECES
      ensures Updated(c).pieces[id].kind == c.pieces[id].kind
    {
      UpdatedPiece(c, id);
    }
  }

  lemma UpdateDrag(c: Core)
    requires Shape(c) && Distinct(c.board) && KindsFixed(c) && DragInv(c)
    requires c.myTurn ==> PawnsSettled(c)
    ensures DragInv(Updated(c))
  {
    UpdateKinds(c);
    if c.drag.Some? {
      UpdatedPiece(c, c.drag.value);
    }
  }

  /** A piece sent to a square's screen position settles on that square, and a
      held piece put back settles where it came from. */
  lemma SettlesAt(p: PieceState, s: Square)
    requires s.OnBoard()
    ensures Settled(MoveTo(p, GetScreenX(s.col), GetScreenY(s.row)), s, false)
    ensures Settled(p, s, true) ==>
      Settled(PlaceAt(p.(priority := false, change := true), GetScreenX(s.col), GetScreenY(s.row)), s, false)
  {
    ScreenIsLinear(s.col);
    ScreenIsLinear(s.row);
  }

  lemma MoveScreen(b: seq<Option<nat>>, pieces: seq<PieceState>, id: nat, src: Square, dst: Square, p: PieceState)
    requires |b| == 64 && (forall k :: 0 <= k < 64 && b[k].Some? ==> b[k].value < |pieces|) && id < |pieces|
    requires src.OnBoard() && dst.OnBoard() && Distinct(b) && b[src.Index()] == Some(id)
    requires ScreenAgrees(b, pieces, None) && Settled(p, dst, false)
    ensures ScreenAgrees(MoveCells(b, src, dst), pieces[id := p], None)
  {
    hide Settled;
    var r := MoveCells(b, src, dst);
    forall s: Square | s.OnBoard() && r[s.Index()].Some?
      ensures Settled(pieces[id := p][r[s.Index()].value], s, false)
    {
      if s != dst {
        assert r[s.Index()] == b[s.Index()] && b[s.Index()] != Some(id);
      }
    }
  }

  lemma ApplyScreen(c: Core)
    requires Shape(c) && Distinct(c.board) && OnScreen(c) && c.drag.None?
    ensures OnScreen(ApplyMove(c))
  {
    hide Settled, ScreenAgrees, MoveTo, GetScreenX, GetScreenY, MoveCells;
    if c.board[c.oldSq.Index()].Some? {
      var id := c.board[c.oldSq.Index()].value;
      var p := MoveTo(c.pieces[id], GetScreenX(c.newSq.col), GetScreenY(c.newSq.row));
      SettlesAt(c.pieces[id], c.newSq);
      MoveScreen(c.board, c.pieces, id, c.oldSq, c.newSq, p);
    }
  }

  /** Carrying out a received move keeps the invariant when nothing is held. */
  lemma ApplyKeeps(c: Core)
    requires Shape(c) && Distinct(c.board) && KindsFixed(c) && OnScreen(c)
    requires c.drag.None? && c.lit == {} && !c.myTurn
    ensures var r := ApplyMove(c);
            Distinct(r.board) && KindsFixed(r) && DragInv(r) && OnScreen(r) && !r.myTurn
  {
    MoveDistinct(c.board, c.oldSq, c.newSq);
    ApplyScreen(c);
  }

  lemma ReceiveKeeps(c: Core, byte: Byte)
    requires LocalInv(c) && PawnsSettled(c) && InGame(c.state)
    requires byte != 0 ==> !c.myTurn
    ensures LocalInv(ReceiveByte(c, byte))
  {
    if byte != BEGIN_MESSAGE && byte != YOUR_TURN && byte != 0 && c.byteOfMove != 0 {
      ApplyKeeps(c.(newSq := DecodeSquare(byte)));
    } else {
      assert Kinds(ReceiveByte(c, byte)) == Kinds(c);
    }
  }

  lemma FrameKeeps(c: Core, byte: Byte)
    requires LocalInv(c) && InGame(c.state)
    requires byte != 0 ==> !c.myTurn
    ensures LocalInv(ReceiveByte(Updated(c), byte))
  {
    UpdateScreen(c);
    UpdateKinds(c);
    UpdateDrag(c);
    ReceiveKeeps(Updated(c), byte);
  }

  lemma PickUpKeeps(c: Core, x: U16, y: U16)
    requires LocalInv(c) && c.myTurn && c.drag.None? && InGame(c.state)
    ensures LocalInv(PickUp(c, x, y))
  {
    var r := PickUp(c, x, y);
    assert Kinds(r) == Kinds(c);
  }

  /** The drop test on pixels and teams accepts exactly the pseudo-legal moves
      of the piece held, on the board as it is when the piece is let go. */
  lemma DropIffLegal(c: Core, to: Square)
    requires LocalInv(c) && c.drag.Some? && to.OnBoard()
    ensures var p := c.pieces[c.drag.value];
            DropAccepted(c, to) <==>
              PseudoLegal(Kinds(c), p.kind, p.pawnMoved, c.from, to) &&
              !WhitePawnTakesKing(Kinds(c), p.kind, c.from, to)
  {
    var p := c.pieces[c.drag.value];
    AcceptsIffLegal(Kinds(c), p.kind, p.pawnMoved, c.from, to);
  }

  /** Piece id leaves src and settles on dst; the others stay. */
  lemma DropScreen(b: seq<Option<nat>>, pieces: seq<PieceState>, id: nat, src: Square, dst: Square, p: PieceState)
    requires |b| == 64 && (forall k :: 0 <= k < 64 && b[k].Some? ==> b[k].value < |pieces|) && id < |pieces|
    requires src.OnBoard() && dst.OnBoard() && Distinct(b) && b[src.Index()] == Some(id)
    requires ScreenAgrees(b, pieces, Some(id)) && Settled(p, dst, false)
    ensures ScreenAgrees(DropCells(b, id, src, dst), pieces[id := p], None)
  {
    hide Settled;
    var r := DropCells(b, id, src, dst);
    forall s: Square | s.OnBoard() && r[s.Index()].Some?
      ensures Settled(pieces[id := p][r[s.Index()].value], s, false)
    {
      if s != dst {
        assert r[s.Index()] == b[s.Index()] && b[s.Index()] != Some(id);
      }
    }
  }

  lemma PutBackScreen(b: seq<Option<nat>>, pieces: seq<PieceState>, id: nat, src: Square, p: PieceState)
    requires |b| == 64 && (forall k :: 0 <= k < 64 && b[k].Some? ==> b[k].value < |pieces|) && id < |pieces|
    requires src.OnBoard() && Distinct(b) && b[src.Index()] == Some(id)
    requires ScreenAgrees(b, pieces, Some(id)) && Settled(p, src, false)
    ensures ScreenAgrees(b, pieces[id := p], None)
  {
    hide Settled;
    DropScreen(b, pieces, id, src, src, p);
    assert DropCells(b, id, src, src) == b;
  }

  lemma ReleaseScreen(c: Core, x: U16, y: U16)
    requires Shape(c) && Distinct(c.board) && OnScreen(c)
    requires c.drag.Some? && c.board[c.from.Index()] == c.drag
    ensures OnScreen(Release(c, x, y).core)
  {
    hide Settled, ScreenAgrees, MoveTo, PlaceAt, GetScreenX, GetScreenY, GetBoardX, GetBoardY, DropCells;
    var to := Square(GetBoardX(x), GetBoardY(y));
    var id := c.drag.value;
    var home := PlaceAt(c.pieces[id].(priority := false, change := true), GetScreenX(c.from.col), GetScreenY(c.from.row));
    if DropAccepted(c, to) {
      SettlesAt(home, to);
      DropScreen(c.board, c.pieces, id, c.from, to, MoveTo(home, GetScreenX(to.col), GetScreenY(to.row)));
    } else {
      HeldSettles(c);
      SettlesAt(c.pieces[id], c.from);
      PutBackScreen(c.board, c.pieces, id, c.from, home);
    }
  }

  lemma HeldSettles(c: Core)
    requires Shape(c) && OnScreen(c) && c.drag.Some? && c.board[c.from.Index()] == c.drag
    ensures Settled(c.pieces[c.drag.value], c.from, true)
  {
  }

  lemma ReleaseKeeps(c: Core, x: U16, y: U16)
    requires LocalInv(c) && c.drag.Some? && InGame(c.state)
    ensures LocalInv(Release(c, x, y).core)
  {
    ReleaseScreen(c, x, y);
    var to := Square(GetBoardX(x), GetBoardY(y));
    if to.OnBoard() {
      DropDistinct(c.board, c.drag.value, c.from, to);
    }
  }

  lemma DraggedKeeps(c: Core, x: U16, y: U16, pressed: bool)
    requires LocalInv(c) && InGame(c.state)
    ensures LocalInv(Dragged(c, x, y, pressed))
  {
    if c.drag.Some? {
      assert Kinds(Dragged(c, x, y, pressed)) == Kinds(c);
    } else if pressed && c.myTurn {
      PickUpKeeps(c, x, y);
    }
  }

  lemma MouseKeeps(c: Core, x: U16, y: U16, pressed: bool, released: bool)
    requires LocalInv(c) && InGame(c.state)
    ensures LocalInv(OnPlayingMouse(c, x, y, pressed, released).core)
  {
    var c1 := Dragged(c, x, y, pressed);
    DraggedKeeps(c, x, y, pressed);
    if released && c1.drag.Some? {
      ReleaseKeeps(c1, x, y);
    }
  }

  /** Fields the invariant does not mention, or only with the state, may change
      freely. */
  lemma ControlKeeps(c: Core, r: Core)
    requires LocalInv(c) && Shape(r)
    requires r == c.(state := r.state, won := r.won, animation := r.animation, nameSize := r.nameSize)
    requires InGame(c.state) ==> InGame(r.state)
    ensures LocalInv(r)
  {
    assert Kinds(r) == Kinds(c);
  }

  /** A fresh board satisfies the invariant for any player and turn. */
  lemma FreshKeeps(c: Core, r: Core)
    requires LocalInv(c) && !InGame(c.state) && Shape(r)
    requires r == c.(state := r.state, player := r.player, myTurn := r.myTurn)
    requires InGame(r.state)
    ensures LocalInv(r)
  {
    assert Kinds(r) == Kinds(c);
  }

  lemma PlayingKeeps(c: Core, event: Event, byte: Byte)
    requires LocalInv(c) && c.state == Playing
    requires byte != 0 ==> !c.myTurn
    ensures LocalInv(OnPlaying(c, event, byte).core)
  {
    hide ReceiveByte, OnPlayingMouse;
    var c0 := Noticed(c);
    ControlKeeps(c, c0);
    match event
    case NewFrame => FrameKeeps(c0, byte);
    case Keyboard(scan) => ControlKeeps(c, OnPlaying(c, event, byte).core);
    case Mouse(x, y, pressed, released) => MouseKeeps(c0, x, y, pressed, released);
  }

  lemma NameKeeps(c: Core, scan: Byte)
    requires LocalInv(c) && c.state == Start
    ensures LocalInv(OnNameKey(c, scan).core)
  {
    assert Shape(c);
    var r := OnNameKey(c, scan).core;
    assert r == c.(state := r.state, nameSize := r.nameSize);
    hide LocalInv, Shape, OnNameKey;
    ControlKeeps(c, r);
  }

  lemma WaitingKeeps(c: Core, byte: Byte)
    requires LocalInv(c) && c.state == Waiting
    ensures LocalInv(OnWaitingFrame(c, byte).core)
  {
    assert Shape(c);
    var r := OnWaitingFrame(c, byte).core;
    assert r == c.(state := r.state);
    hide LocalInv, Shape, OnWaitingFrame;
    ControlKeeps(c, r);
  }

  lemma ChoosingKeeps(c: Core, x: U16, y: U16, pressed: bool)
    requires LocalInv(c) && c.state == ChoosingPlayer
    ensures LocalInv(OnChoosingMouse(c, x, y, pressed).core)
  {
    assert Shape(c);
    var r := OnChoosingMouse(c, x, y, pressed).core;
    hide LocalInv, Shape, ClickedPlayer;
    if r != c {
      FreshKeeps(c, r);
    }
  }

  lemma WaitChoosingKeeps(c: Core, byte: Byte)
    requires LocalInv(c) && c.state == WaitChoosingPlayer
    ensures LocalInv(OnWaitChoosingFrame(c, byte).core)
  {
    assert Shape(c);
    var r := OnWaitChoosingFrame(c, byte).core;
    hide LocalInv, Shape;
    if r != c {
      FreshKeeps(c, r);
    }
  }

  lemma SetupKeeps(c: Core, event: Event, byte: Byte)
    requires LocalInv(c) && !InGame(c.state)
    ensures LocalInv(Handle(c, event, byte).core)
  {
    assert Shape(c);
    hide LocalInv, Shape, OnNameKey, OnWaitingFrame, OnChoosingMouse, OnWaitChoosingFrame, OnPlaying;
    match c.state
    case Start =>
      if event.Keyboard? {
        NameKeeps(c, event.scan);
      }
    case Waiting => WaitingKeeps(c, byte);
    case ChoosingPlayer =>
      if event.Mouse? {
        ChoosingKeeps(c, event.x, event.y, event.pressed);
      }
    case WaitChoosingPlayer => WaitChoosingKeeps(c, byte);
  }

  /** Every handler keeps the invariant, provided no byte reaches a player who
      holds the turn; the network invariant shows that none does. */
  lemma HandleKeeps(c: Core, event: Event, byte: Byte)
    requires LocalInv(c)
    requires c.state == Playing && byte != 0 ==> !c.myTurn
    ensures LocalInv(Handle(c, event, byte).core)
  {
    if c.state == Playing {
      PlayingKeeps(c, event, byte);
    } else if !InGame(c.state) {
      SetupKeeps(c, event, byte);
    }
  }
}
