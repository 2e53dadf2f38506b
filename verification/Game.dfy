/** The state one copy of the program keeps and what its event handlers do to
    it, as functions from state to state. Handlers.dfy holds the imperative
    form that is proved to compute these functions. */
module Game {
  import opened Common
  import opened Codec
  import opened Geometry
  import opened Chess
  import opened PieceMotion

  /** Crashed stands for the dereference of a null piece pointer. */
  datatype GameState = Start | Waiting | Playing | ChoosingPlayer | WaitChoosingPlayer | Exit | Crashed

  datatype Player = NotDecided | Black | White

  /** The events of the main loop; a mouse event carries the cursor as
      updateCursor left it. */
  datatype Event =
    | NewFrame
    | Mouse(x: U16, y: U16, pressed: bool, released: bool)
    | Keyboard(scan: Byte)

  const BACK_SPACE: Byte := 0x8e
  const ENTER: Byte := 0x9c
  const TOGGLE_ANIMATION: Byte := 0xac
  const MAX_NAME_SIZE := 8

  /** Cells and the dragged piece refer to pieces by number, as the pointers of
      the source do: 0..15 are Black's pieces, 16..31 White's, in the order
      initBoard creates them. `lit` is the set of squares whose top-left pixel
      is orange in the board buffer. `moves` is history: the number of moves
      the player has made. */
  datatype Core = Core(
    state: GameState, player: Player,
    myTurn: bool, endGame: bool, won: bool, animation: bool,
    nameSize: nat,
    byteOfMove: nat, oldSq: Square, newSq: Square,
    drag: Option<nat>, from: Square,
    board: seq<Option<nat>>, pieces: seq<PieceState>,
    lit: set<Square>,
    moves: nat)

  /** What a handler asks of the serial port besides its new state. */
  datatype Outcome = Outcome(core: Core, send: seq<Byte>, clear: bool)

  const PIECES := 32

  predicate Shape(c: Core) {
    && |c.board| == 64 && |c.pieces| == PIECES
    && (forall k :: 0 <= k < 64 && c.board[k].Some? ==> c.board[k].value < PIECES)
    && (c.drag.Some? ==> c.drag.value < PIECES)
    && c.from.OnBoard() && c.oldSq.OnBoard() && c.newSq.OnBoard()
  }

  // ---------------------------------------------------------------------
  // Initial position

  /** Black's back rank from left to right; White's kinds are six more. */
  function BackRank(col: nat): (k: Kind)
    ensures k <= B_KING
  {
    if col == 0 || col == 7 then B_ROOK
    else if col == 1 || col == 6 then B_KNIGHT
    else if col == 2 || col == 5 then B_BISHOP
    else if col == 3 then B_QUEEN
    else B_KING
  }

  /** Kind of a piece by number. */
  function KindOf(id: nat): Kind
    requires id < PIECES
  {
    if id < 8 then BackRank(id)
    else if id < 16 then B_PAWN
    else if id < 24 then BackRank(id - 16) + 6
    else W_PAWN
  }

  /** Board index a piece starts on. */
  function HomeOf(id: nat): (k: nat)
    requires id < PIECES
    ensures k < 64
  {
    if id < 16 then id else if id < 24 then id + 40 else id + 24
  }

  function InitBoard(): (b: seq<Option<nat>>)
    ensures |b| == 64
  {
    seq(64, k requires 0 <= k < 64 =>
      if k < 16 then Some(k) else if k < 48 then None else if k < 56 then Some(k - 24) else Some(k - 40))
  }

  function InitPiece(id: nat): PieceState
    requires id < PIECES
  {
    var s := SquareAt(HomeOf(id));
    PieceState(KindOf(id), LEFT + s.col * TILE, TOP + s.row * TILE, 0, 0, false, false, false, false)
  }

  function InitPieces(): (p: seq<PieceState>)
    ensures |p| == PIECES
  {
    seq(PIECES, id requires 0 <= id < PIECES => InitPiece(id))
  }

  function InitCore(): (c: Core)
    ensures Shape(c)
  {
    Core(Start, NotDecided, false, false, false, true, 0, 0, Square(0, 0), Square(0, 0),
         None, Square(0, 0), InitBoard(), InitPieces(), {}, 0)
  }

  // ---------------------------------------------------------------------
  // Board

  /** Kinds standing on the 64 squares. */
  function Kinds(c: Core): (b: Placement)
    requires Shape(c)
  {
    seq(64, k requires 0 <= k < 64 =>
      if c.board[k].Some? then Some(c.pieces[c.board[k].value].kind) else None)
  }

  /** updateBoard, cell by cell from index k on. */
  function UpdateFrom(board: seq<Option<nat>>, pieces: seq<PieceState>, animation: bool, k: nat): (r: seq<PieceState>)
    requires |board| == 64 && k <= 64
    requires forall i :: 0 <= i < 64 && board[i].Some? ==> board[i].value < |pieces|
    ensures |r| == |pieces|
    decreases 64 - k
  {
    if k == 64 then pieces
    else if board[k].Some? then
      UpdateFrom(board, pieces[board[k].value := Frame(pieces[board[k].value], animation)], animation, k + 1)
    else UpdateFrom(board, pieces, animation, k + 1)
  }

  /** The cells after a received move: the new cell is written first. */
  function MoveCells(b: seq<Option<nat>>, src: Square, dst: Square): (r: seq<Option<nat>>)
    requires |b| == 64 && src.OnBoard() && dst.OnBoard()
    ensures |r| == 64
  {
    b[dst.Index() := b[src.Index()]][src.Index() := None]
  }

  /** The cells after the player's own move: the old cell is cleared first. */
  function DropCells(b: seq<Option<nat>>, id: nat, from: Square, to: Square): (r: seq<Option<nat>>)
    requires |b| == 64 && from.OnBoard() && to.OnBoard()
    ensures |r| == 64
  {
    b[from.Index() := None][to.Index() := Some(id)]
  }

  // ---------------------------------------------------------------------
  // Handlers

  /** name_choice_ih on a keyboard event. */
  function OnNameKey(c: Core, scan: Byte): (o: Outcome)
    requires Shape(c)
    ensures Shape(o.core)
  {
    if scan < 128 then Outcome(c, [], false)
    else if scan == BACK_SPACE && c.nameSize > 0 then
      Outcome(c.(nameSize := c.nameSize - 1), [], false)
    else if scan == ENTER && c.nameSize > 0 then
      Outcome(c.(state := Waiting), [VM_CONNECTED], true)
    else if scan != BACK_SPACE && c.nameSize < MAX_NAME_SIZE then
      Outcome(c.(nameSize := c.nameSize + 1), [], false)
    else Outcome(c, [], false)
  }

  /** waiting_ih on a frame that read the given byte (0 when there was none). */
  function OnWaitingFrame(c: Core, byte: Byte): (o: Outcome)
    requires Shape(c)
    ensures Shape(o.core)
  {
    if byte == VM_CONNECTED then
      Outcome(c.(state := ChoosingPlayer), [RECEIVE_VM_CONNECTED], false)
    else if byte == RECEIVE_VM_CONNECTED then
      Outcome(c.(state := WaitChoosingPlayer), [], false)
    else Outcome(c, [], false)
  }

  /** cursorClickPlayer: the button under a pressed cursor, if any. */
  function ClickedPlayer(x: U16, y: U16, pressed: bool): Player {
    if 307 < x < 466 && 62 < y < 104 && pressed then Black
    else if 307 < x < 466 && 517 < y < 558 && pressed then White
    else NotDecided
  }

  /** choosing_ih on a mouse event. */
  function OnChoosingMouse(c: Core, x: U16, y: U16, pressed: bool): (o: Outcome)
    requires Shape(c)
    ensures Shape(o.core)
  {
    var p := ClickedPlayer(x, y, pressed);
    if p == NotDecided then Outcome(c, [], false)
    else
      Outcome(c.(state := Playing, player := p, myTurn := p == White),
              [if p == White then BLACK_BYTE else WHITE_BYTE], false)
  }

  /** waiting_choosing_ih on a frame that read the given byte. */
  function OnWaitChoosingFrame(c: Core, byte: Byte): (o: Outcome)
    requires Shape(c)
    ensures Shape(o.core)
  {
    if byte == 0 then Outcome(c, [], false)
    else
      var white := byte == WHITE_BYTE;
      Outcome(c.(state := Playing, player := if white then White else Black, myTurn := white), [], false)
  }

  /** The serial part of a frame in playing_ih. */
  function ReceiveByte(c: Core, byte: Byte): (r: Core)
    requires Shape(c)
    ensures Shape(r)
  {
    if byte == BEGIN_MESSAGE then c.(byteOfMove := 0)
    else if byte == YOUR_TURN then c.(myTurn := true)
    else if byte == 0 then c
    else if c.byteOfMove == 0 then c.(oldSq := DecodeSquare(byte), byteOfMove := 1)
    else ApplyMove(c.(newSq := DecodeSquare(byte)))
  }

  /** A complete received move is carried out on the receiver's board. */
  function ApplyMove(c: Core): (r: Core)
    requires Shape(c)
    ensures Shape(r)
  {
    var captured := c.board[c.newSq.Index()];
    var c1 := if captured.Some? && IsKing(c.pieces[captured.value].kind)
              then c.(won := false, state := Exit) else c;
    match c.board[c.oldSq.Index()]
    case None => c1.(state := Crashed)
    case Some(id) =>
      c1.(pieces := c.pieces[id := MoveTo(c.pieces[id], GetScreenX(c.newSq.col), GetScreenY(c.newSq.row))],
          board := MoveCells(c.board, c.oldSq, c.newSq))
  }

  /** A press over one of the player's own pieces picks it up and highlights
      its squares. */
  ghost function PickUp(c: Core, x: U16, y: U16): (r: Core)
    requires Shape(c)
    ensures Shape(r)
  {
    var s := Square(GetBoardX(x), GetBoardY(y));
    if s.OnBoard() && c.board[s.Index()].Some? && Owns(c.player, c.pieces[c.board[s.Index()].value].kind) then
      var id := c.board[s.Index()].value;
      var p := c.pieces[id];
      c.(drag := Some(id), from := s,
         pieces := c.pieces[id := p.(priority := true, change := true)],
         lit := c.lit + Painted(Kinds(c), p.kind, p.pawnMoved, s))
    else c
  }

  predicate Owns(p: Player, k: Kind) { (IsWhite(k) && p == White) || (!IsWhite(k) && p == Black) }

  /** The drop test on the highlighted squares and the teams. */
  predicate DropAccepted(c: Core, to: Square)
    requires Shape(c) && c.drag.Some?
  {
    to.OnBoard() && to in c.lit &&
    (c.board[to.Index()].Some? ==>
      !SameTeam(c.pieces[c.drag.value].kind, c.pieces[c.board[to.Index()].value].kind))
  }

  /** Letting go of the dragged piece over pixel (x, y). */
  function Release(c: Core, x: U16, y: U16): (o: Outcome)
    requires Shape(c) && c.drag.Some?
    ensures Shape(o.core)
  {
    var to := Square(GetBoardX(x), GetBoardY(y));
    var id := c.drag.value;
    var p := c.pieces[id].(priority := false, change := true);
    var home := PlaceAt(p, GetScreenX(c.from.col), GetScreenY(c.from.row));
    if DropAccepted(c, to) then
      var captured := c.board[to.Index()];
      Outcome(
        c.(pieces := c.pieces[id := MoveTo(home, GetScreenX(to.col), GetScreenY(to.row))],
           endGame := c.endGame || (captured.Some? && IsKing(c.pieces[captured.value].kind)),
           board := DropCells(c.board, id, c.from, to),
           myTurn := false, drag := None, lit := {}, moves := c.moves + 1),
        MoveMessage(c.from, to), false)
    else
      Outcome(c.(pieces := c.pieces[id := home], drag := None, lit := {}), [], false)
  }

  /** The state after the first half of a mouse event: a held piece follows the
      cursor, or a press picks one up. */
  ghost function Dragged(c: Core, x: U16, y: U16, pressed: bool): (r: Core)
    requires Shape(c)
    ensures Shape(r)
  {
    if c.drag.Some? then c.(pieces := c.pieces[c.drag.value := PlaceAt(c.pieces[c.drag.value], x - 29, y - 29)])
    else if pressed && c.myTurn then PickUp(c, x, y)
    else c
  }

  /** The mouse part of playing_ih. */
  ghost function OnPlayingMouse(c: Core, x: U16, y: U16, pressed: bool, released: bool): (o: Outcome)
    requires Shape(c)
    ensures Shape(o.core)
  {
    var c1 := Dragged(c, x, y, pressed);
    if released && c1.drag.Some? then Release(c1, x, y) else Outcome(c1, [], false)
  }

  /** The state in which an event is handled: a pending end of game is noticed
      first. */
  function Noticed(c: Core): (r: Core)
    requires Shape(c)
    ensures Shape(r)
  {
    if c.endGame then c.(won := true, state := Exit) else c
  }

  /** playing_ih: a pending end of game is noticed first, whatever the event. */
  ghost function OnPlaying(c: Core, event: Event, byte: Byte): (o: Outcome)
    requires Shape(c)
    ensures Shape(o.core)
  {
    var c0 := Noticed(c);
    match event
    case NewFrame =>
      Outcome(ReceiveByte(c0.(pieces := UpdateFrom(c0.board, c0.pieces, c0.animation, 0)), byte), [], false)
    case Keyboard(scan) =>
      Outcome(if scan == TOGGLE_ANIMATION then c0.(animation := !c0.animation) else c0, [], false)
    case Mouse(x, y, pressed, released) => OnPlayingMouse(c0, x, y, pressed, released)
  }

  /** Does this event take a byte off the receive queue? */
  predicate Reads(c: Core, event: Event) {
    event.NewFrame? && (c.state == Waiting || c.state == WaitChoosingPlayer || c.state == Playing)
  }

  /** Is this the ENTER with which the player connects? */
  predicate Connects(c: Core, event: Event) {
    c.state == Start && event.Keyboard? && event.scan == ENTER && c.nameSize > 0
  }

  /** inputHandler. */
  ghost function Handle(c: Core, event: Event, byte: Byte): (o: Outcome)
    requires Shape(c)
    ensures Shape(o.core)
  {
    match c.state
    case Start => if event.Keyboard? then OnNameKey(c, event.scan) else Outcome(c, [], false)
    case Waiting => if event.NewFrame? then OnWaitingFrame(c, byte) else Outcome(c, [], false)
    case Playing => OnPlaying(c, event, byte)
    case ChoosingPlayer =>
      if event.Mouse? then OnChoosingMouse(c, event.x, event.y, event.pressed) else Outcome(c, [], false)
    case WaitChoosingPlayer => if event.NewFrame? then OnWaitChoosingFrame(c, byte) else Outcome(c, [], false)
    case _ => Outcome(c, [], false)
  }
}
