/** What a player starts with, and what each event does to a program, in terms
    of keys, pixels and bytes. */
module EventLaws {
  import opened Common
  import opened Codec
  import opened Chess
  import opened Geometry
  import opened PieceMotion
  import opened Game
  import opened GameInvariants
  import opened Network
  import opened Handshake

  // ---------------------------------------------------------------------
  // The start

  /** Rows 0 and 7 hold rook, knight, bishop, queen, king, bishop, knight and
      rook, rows 1 and 6 the pawns, and the rest of the board is empty. */
  lemma StartingPosition(s: Square)
    requires s.OnBoard()
    ensures Shape(InitCore())
    ensures var cell := Kinds(InitCore())[s.Index()];
            match s.row
            case 0 => cell == Some([B_ROOK, B_KNIGHT, B_BISHOP, B_QUEEN, B_KING, B_BISHOP, B_KNIGHT, B_ROOK][s.col])
            case 1 => cell == Some(B_PAWN)
            case 6 => cell == Some(W_PAWN)
            case 7 => cell == Some([W_ROOK, W_KNIGHT, W_BISHOP, W_QUEEN, W_KING, W_BISHOP, W_KNIGHT, W_ROOK][s.col])
            case _ => cell == None
  {
    hide InitPieces, InitBoard, KindOf;
    CellAt(s.Index());
    if InitBoard()[s.Index()].Some? {
      InitCell(s.Index());
      PieceKind(InitBoard()[s.Index()].value);
    }
  }

  lemma BackRankKinds(col: nat)
    requires col < 8
    ensures BackRank(col) == [B_ROOK, B_KNIGHT, B_BISHOP, B_QUEEN, B_KING, B_BISHOP, B_KNIGHT, B_ROOK][col]
    ensures BackRank(col) + 6 == [W_ROOK, W_KNIGHT, W_BISHOP, W_QUEEN, W_KING, W_BISHOP, W_KNIGHT, W_ROOK][col]
  {
  }

  lemma PieceKind(id: nat)
    requires id < PIECES
    ensures id < 8 ==> KindOf(id) == [B_ROOK, B_KNIGHT, B_BISHOP, B_QUEEN, B_KING, B_BISHOP, B_KNIGHT, B_ROOK][id]
    ensures 8 <= id < 16 ==> KindOf(id) == B_PAWN
    ensures 16 <= id < 24 ==> KindOf(id) == [W_ROOK, W_KNIGHT, W_BISHOP, W_QUEEN, W_KING, W_BISHOP, W_KNIGHT, W_ROOK][id - 16]
    ensures 24 <= id ==> KindOf(id) == W_PAWN
  {
    hide BackRank;
    if id < 8 {
      BackRankKinds(id);
    } else if 16 <= id < 24 {
      BackRankKinds(id - 16);
    }
  }

  lemma CellAt(k: nat)
    requires k < 64
    ensures InitBoard()[k] == if k < 16 then Some(k) else if k < 48 then None else if k < 56 then Some(k - 24) else Some(k - 40)
  {
  }

  /** Every piece stands still where its square is drawn. */
  lemma StartingPlaces(s: Square)
    requires s.OnBoard()
    ensures Shape(InitCore())
    ensures var c := InitCore();
            c.board[s.Index()].Some? ==>
              var p := c.pieces[c.board[s.Index()].value];
              p.x == 65 + 59 * s.col && p.y == 64 + 59 * s.row && !p.moving && !p.pawnMoved
  {
    hide InitBoard, InitPieces, KindOf, HomeOf, SquareAt;
    assert InitCore().board == InitBoard() && InitCore().pieces == InitPieces();
    if InitBoard()[s.Index()].Some? {
      InitCell(s.Index());
      SameSquare(s);
    }
  }

  lemma SameSquare(s: Square)
    requires s.OnBoard()
    ensures SquareAt(s.Index()) == s
  {
  }

  /** Nothing else has happened yet. */
  lemma StartingState()
    ensures var c := InitCore();
            && c.state == Start && c.player == NotDecided && !c.myTurn && !c.endGame && c.animation && c.nameSize == 0
            && c.byteOfMove == 0 && c.drag == None && c.lit == {} && c.moves == 0
  {
    hide InitBoard, InitPieces;
  }

  // ---------------------------------------------------------------------
  // The name

  /** A key that is let go edits the name: BACK_SPACE takes a letter away, ENTER
      connects once there is a letter, and every other key adds a letter until
      there are eight. A key that goes down does nothing. */
  lemma KeysEditTheName(c: Core, scan: Byte, byte: Byte)
    requires Shape(c) && c.state == Start && c.nameSize <= 8
    ensures var o := Handle(c, Keyboard(scan), byte);
            && (scan < 0x80 ==> o == Outcome(c, [], false))
            && (scan == 0x8e ==> o == Outcome(c.(nameSize := Max(c.nameSize - 1, 0)), [], false))
            && (scan == 0x9c && c.nameSize > 0 ==> o == Outcome(c.(state := Waiting), [0xFA], true))
            && (scan >= 0x80 && scan != 0x8e && (scan != 0x9c || c.nameSize == 0) ==>
                  o == Outcome(c.(nameSize := Min(c.nameSize + 1, 8)), [], false))
  {
  }

  /** The core after a sequence of keys. */
  ghost function Typed(c: Core, keys: seq<Byte>): (r: Core)
    requires Shape(c)
    ensures Shape(r)
    decreases |keys|
  {
    if keys == [] then c else Typed(Handle(c, Keyboard(keys[0]), 0).core, keys[1..])
  }

  predicate Letter(scan: Byte) { scan >= 0x80 && scan != 0x8e && scan != 0x9c }

  /** Letters typed and then taken away: of the first eight letters, the last
      ones go first. */
  lemma {:induction false} TypeAndErase(c: Core, letters: seq<Byte>, k: nat)
    requires Shape(c) && c.state == Start && c.nameSize <= 8 && forall i :: 0 <= i < |letters| ==> Letter(letters[i])
    ensures Typed(c, letters + seq(k, _ => 0x8e)) ==
            c.(nameSize := Max(Min(c.nameSize + |letters|, 8) - k, 0))
    decreases |letters| + k
  {
    hide Handle, Shape;
    var keys := letters + seq(k, _ => 0x8e);
    if letters != [] {
      assert keys[1..] == letters[1..] + seq(k, _ => 0x8e);
      KeysEditTheName(c, keys[0], 0);
      TypeAndErase(Handle(c, Keyboard(keys[0]), 0).core, letters[1..], k);
    } else if k > 0 {
      assert keys[1..] == [] + seq(k - 1, _ => 0x8e);
      KeysEditTheName(c, keys[0], 0);
      TypeAndErase(Handle(c, Keyboard(keys[0]), 0).core, [], k - 1);
    }
  }

  /** The name fits its array, and nobody connects without one. */
  predicate Named(c: Core) { c.nameSize <= 8 && (c.state != Start ==> c.nameSize > 0) }

  lemma StaysNamed(c: Core, event: Event, byte: Byte)
    requires Shape(c) && Named(c)
    ensures Named(Handle(c, event, byte).core)
  {
    hide Shape, OnPlaying;
    if c.state == Playing {
      GameKeepsName(c, event, byte);
      HandleFollows(c, event, byte);
    }
  }

  lemma GameKeepsName(c: Core, event: Event, byte: Byte)
    requires Shape(c)
    ensures OnPlaying(c, event, byte).core.nameSize == c.nameSize
  {
    hide ReceiveByte, OnPlayingMouse, UpdateFrom;
    var c0 := Noticed(c);
    match event
    case NewFrame => ReceiveKeepsName(c0.(pieces := UpdateFrom(c0.board, c0.pieces, c0.animation, 0)), byte);
    case Mouse(x, y, pressed, released) => MouseKeepsName(c0, x, y, pressed, released);
    case Keyboard(_) =>
  }

  lemma ReceiveKeepsName(c: Core, byte: Byte)
    requires Shape(c)
    ensures ReceiveByte(c, byte).nameSize == c.nameSize
  {
    hide MoveCells, MoveTo, DecodeSquare, GetScreenX, GetScreenY, IsKing;
  }

  lemma MouseKeepsName(c: Core, x: U16, y: U16, pressed: bool, released: bool)
    requires Shape(c)
    ensures var r := OnPlayingMouse(c, x, y, pressed, released).core;
            r.nameSize == c.nameSize && r.state == c.state && r.won == c.won
  {
    hide GetBoardX, GetBoardY, GetScreenX, GetScreenY, PlaceAt, MoveTo, Painted, Kinds, DropAccepted, DropCells;
  }

  /** In every run, crossed or not, both names fit, and a peer that has connected
      has one. */
  lemma NamesFit(s: Schedule)
    ensures NetShape(InitNet())
    ensures Named(Run(InitNet(), s).me.core) && Named(Run(InitNet(), s).you.core)
  {
    hide Run, InitBoard, InitPieces;
    InitShape();
    RunNamed(InitNet(), s);
  }

  lemma {:induction false} RunNamed(n: Net, s: Schedule)
    requires NetShape(n) && Named(n.me.core) && Named(n.you.core)
    ensures Named(Run(n, s).me.core) && Named(Run(n, s).you.core)
    decreases |s|
  {
    hide Step, NetShape, Handle, Named;
    if s != [] {
      StepNamed(n, s[0].0, s[0].1);
      StepNamed(Swap(n), !s[0].0, s[0].1);
      RunNamed(Step(n, s[0].0, s[0].1), s[1..]);
    }
  }

  lemma StepNamed(n: Net, first: bool, a: Action)
    requires NetShape(n) && Named(n.me.core)
    ensures Named(Step(n, first, a).me.core)
    ensures NetShape(Swap(n)) && Step(Swap(n), !first, a) == Swap(Step(n, first, a))
  {
    hide Handle, Named, Act;
    StepCore(n, first, a);
    if first && a.Input? {
      var m := if n.me.core.state == WaitChoosingPlayer && a.event.NewFrame? && a.arrived > 0 then Receive(n) else n;
      StaysNamed(n.me.core, a.event, ByteRead(m, a.event));
    }
  }

  // ---------------------------------------------------------------------
  // Handshake and colours

  /** A waiting program answers the greeting 0xFA with 0xFD and chooses, waits
      for the choice on 0xFD, and ignores every other byte and event. */
  lemma GreetingByByte(c: Core, event: Event, byte: Byte)
    requires Shape(c) && c.state == Waiting
    ensures Handle(c, event, byte) ==
            if event.NewFrame? && byte == 0xFA then Outcome(c.(state := ChoosingPlayer), [0xFD], false)
            else if event.NewFrame? && byte == 0xFD then Outcome(c.(state := WaitChoosingPlayer), [], false)
            else Outcome(c, [], false)
  {
  }

  predicate UpperButton(x: U16, y: U16) { 307 < x < 466 && 62 < y < 104 }

  predicate LowerButton(x: U16, y: U16) { 307 < x < 466 && 517 < y < 558 }

  /** The button held down strictly inside the upper rectangle makes the player
      Black, sends 2 for White and gives no turn; inside the lower one it makes
      the player White, sends 1 for Black and gives the turn. Nothing else does
      anything. */
  lemma ColourByClick(c: Core, x: U16, y: U16, pressed: bool, released: bool, byte: Byte)
    requires Shape(c) && c.state == ChoosingPlayer
    ensures var o := Handle(c, Mouse(x, y, pressed, released), byte);
            && (pressed && UpperButton(x, y) ==> o == Outcome(c.(state := Playing, player := Black, myTurn := false), [2], false))
            && (pressed && LowerButton(x, y) ==> o == Outcome(c.(state := Playing, player := White, myTurn := true), [1], false))
            && (!pressed || !(UpperButton(x, y) || LowerButton(x, y)) ==> o == Outcome(c, [], false))
  {
  }

  lemma OnlyClicksChoose(c: Core, event: Event, byte: Byte)
    requires Shape(c) && c.state == ChoosingPlayer && !event.Mouse?
    ensures Handle(c, event, byte) == Outcome(c, [], false)
  {
  }

  /** The other player takes the colour it is sent: 2 is White and the turn, any
      other byte but 0 is Black. */
  lemma ColourByByte(c: Core, event: Event, byte: Byte)
    requires Shape(c) && c.state == WaitChoosingPlayer
    ensures Handle(c, event, byte) ==
            if !event.NewFrame? || byte == 0 then Outcome(c, [], false)
            else if byte == 2 then Outcome(c.(state := Playing, player := White, myTurn := true), [], false)
            else Outcome(c.(state := Playing, player := Black, myTurn := false), [], false)
  {
  }

  /** What one player clicks makes the other the opposite, and exactly one of
      the two has the turn. */
  lemma ColoursAreOpposite(c: Core, d: Core, x: U16, y: U16, released: bool)
    requires Shape(c) && Shape(d) && c.state == ChoosingPlayer && d.state == WaitChoosingPlayer
    requires UpperButton(x, y) || LowerButton(x, y)
    ensures var o := Handle(c, Mouse(x, y, true, released), 0);
            |o.send| == 1 &&
            var r := Handle(d, NewFrame, o.send[0]).core;
            && o.core.player == (if UpperButton(x, y) then Black else White)
            && r.player == (if UpperButton(x, y) then White else Black)
            && o.core.myTurn == (o.core.player == White) && r.myTurn == (r.player == White)
  {
    ColourByClick(c, x, y, true, released, 0);
    ColourByByte(d, NewFrame, Handle(c, Mouse(x, y, true, released), 0).send[0]);
    hide Handle;
  }

  // ---------------------------------------------------------------------
  // The mouse in the game

  /** Pixel (x, y) is one of the square's 59 by 59. */
  predicate Within(x: U16, y: U16, s: Square) {
    65 + 59 * s.col <= x < 65 + 59 * s.col + 59 && 64 + 59 * s.row <= y < 64 + 59 * s.row + 59
  }

  lemma WithinIsOver(x: U16, y: U16, s: Square)
    requires s.OnBoard()
    ensures Within(x, y, s) <==> GetBoardX(x) == s.col && GetBoardY(y) == s.row
  {
    hide GetBoardX, GetBoardY;
    ColumnOf(x, s.col);
    RowOf(y, s.row);
  }

  lemma ColumnOf(x: U16, col: int)
    requires 0 <= col < 8
    ensures GetBoardX(x) == col <==> 65 + 59 * col <= x < 65 + 59 * col + 59
  {
  }

  lemma RowOf(y: U16, row: int)
    requires 0 <= row < 8
    ensures GetBoardY(y) == row <==> 64 + 59 * row <= y < 64 + 59 * row + 59
  {
  }

  /** The board covers 65..536 by 64..535. */
  lemma OffTheBoard(x: U16, y: U16)
    ensures Square(GetBoardX(x), GetBoardY(y)).OnBoard() <==> 65 <= x < 537 && 64 <= y < 536
  {
    BoardXStrip(x);
    BoardYStrip(y);
  }

  predicate InPlay(c: Core) { Shape(c) && c.state == Playing && !c.endGame }

  lemma MouseInPlay(c: Core, x: U16, y: U16, pressed: bool, released: bool)
    requires InPlay(c)
    ensures Handle(c, Mouse(x, y, pressed, released), 0) == OnPlayingMouse(c, x, y, pressed, released)
  {
    hide OnPlayingMouse, Shape;
  }

  /** A held piece is drawn 29 pixels left of and above the cursor, and nothing
      else changes. */
  lemma HeldFollows(c: Core, x: U16, y: U16, pressed: bool)
    requires InPlay(c) && c.drag.Some?
    ensures var o, id := Handle(c, Mouse(x, y, pressed, false), 0), c.drag.value;
            var p := o.core.pieces[id];
            && (p.x + 29) % 65536 == x && (p.y + 29) % 65536 == y && p == c.pieces[id].(x := p.x, y := p.y)
            && o == Outcome(c.(pieces := c.pieces[id := p]), [], false)
  {
    MouseInPlay(c, x, y, pressed, false);
  }

  /** White's pieces have kinds 6 to 11, Black's 0 to 5. */
  predicate Own(player: Player, kind: Kind) { (player == White && kind >= 6) || (player == Black && kind <= 5) }

  /** A press grabs the piece under the cursor exactly if it is the player's own
      and the player has the turn; the piece is then drawn above the others and
      its squares light up. */
  lemma PressGrabs(c: Core, x: U16, y: U16, pressed: bool, s: Square)
    requires InPlay(c) && c.drag.None? && s.OnBoard() && Within(x, y, s)
    ensures var o := Handle(c, Mouse(x, y, pressed, false), 0);
            var cell := c.board[s.Index()];
            if pressed && c.myTurn && cell.Some? && Own(c.player, c.pieces[cell.value].kind) then
              var p := c.pieces[cell.value];
              o == Outcome(c.(drag := cell, from := s, pieces := c.pieces[cell.value := p.(priority := true, change := true)],
                              lit := c.lit + Painted(Kinds(c), p.kind, p.pawnMoved, s)), [], false)
            else o == Outcome(c, [], false)
  {
    MouseInPlay(c, x, y, pressed, false);
    WithinIsOver(x, y, s);
    hide GetBoardX, GetBoardY, Painted, Kinds;
    assert Square(GetBoardX(x), GetBoardY(y)) == s;
  }

  /** Without the turn, or with the button up, nothing is grabbed. */
  lemma NothingGrabbed(c: Core, x: U16, y: U16, pressed: bool, released: bool)
    requires InPlay(c) && c.drag.None? && !(pressed && c.myTurn)
    ensures Handle(c, Mouse(x, y, pressed, released), 0) == Outcome(c, [], false)
  {
    MouseInPlay(c, x, y, pressed, released);
  }

  lemma PressBeside(c: Core, x: U16, y: U16, pressed: bool)
    requires InPlay(c) && c.drag.None? && !(65 <= x < 537 && 64 <= y < 536)
    ensures Handle(c, Mouse(x, y, pressed, false), 0) == Outcome(c, [], false)
  {
    MouseInPlay(c, x, y, pressed, false);
    OffTheBoard(x, y);
    hide GetBoardX, GetBoardY;
  }

  /** A held piece let go over square s of its lit squares, which holds none of
      its team, sets out from its old square for s and changes cells at once;
      the move is sent and the turn is over. */
  lemma LetGoPlays(c: Core, x: U16, y: U16, pressed: bool, s: Square)
    requires InPlay(c) && c.drag.Some? && s.OnBoard() && Within(x, y, s) && s in c.lit
    requires c.board[s.Index()].Some? ==> !SameTeam(c.pieces[c.drag.value].kind, c.pieces[c.board[s.Index()].value].kind)
    ensures var o, id := Handle(c, Mouse(x, y, pressed, true), 0), c.drag.value;
            && o.send == [0xF9, 8 * c.from.col + c.from.row, 8 * s.col + s.row, 0xF8] && !o.clear
            && !o.core.myTurn && o.core.drag == None && o.core.lit == {} && o.core.state == Playing
            && o.core.pieces == c.pieces[id := c.pieces[id].(
                 x := 65 + 59 * c.from.col, y := 64 + 59 * c.from.row, targetX := 65 + 59 * s.col, targetY := 64 + 59 * s.row,
                 moving := true, priority := true, change := true)]
            && o.core.board[s.Index()] == Some(id) && (s != c.from ==> o.core.board[c.from.Index()] == None)
            && (forall t: Square :: t.OnBoard() && t != s && t != c.from ==> o.core.board[t.Index()] == c.board[t.Index()])
  {
    hide GetBoardX, GetBoardY, GetScreenX, GetScreenY, MoveTo, DropCells, MoveMessage, ToU16;
    var id := c.drag.value;
    MouseInPlay(c, x, y, pressed, true);
    WithinIsOver(x, y, s);
    assert Square(GetBoardX(x), GetBoardY(y)) == s;
    MessageBytes(c.from, s);
    SetsOut(c.pieces[id], x - 29, y - 29, c.from, s);
    CellsChange(c.board, id, c.from, s);
    var d := Dragged(c, x, y, pressed);
    assert DropAccepted(d, s);
    assert Release(d, x, y).send == MoveMessage(c.from, s);
  }

  lemma SetsOut(p: PieceState, x: int, y: int, from: Square, to: Square)
    requires from.OnBoard() && to.OnBoard()
    ensures MoveTo(PlaceAt(PlaceAt(p, x, y).(priority := false, change := true), GetScreenX(from.col), GetScreenY(from.row)),
                   GetScreenX(to.col), GetScreenY(to.row)) ==
            p.(x := 65 + 59 * from.col, y := 64 + 59 * from.row, targetX := 65 + 59 * to.col, targetY := 64 + 59 * to.row,
               moving := true, priority := true, change := true)
  {
    hide GetScreenX, GetScreenY;
    ScreenIsLinear(from.col);
    ScreenIsLinear(from.row);
    ScreenIsLinear(to.col);
    ScreenIsLinear(to.row);
  }

  lemma CellsChange(b: seq<Option<nat>>, id: nat, from: Square, to: Square)
    requires |b| == 64 && from.OnBoard() && to.OnBoard()
    ensures var r := DropCells(b, id, from, to);
            && r[to.Index()] == Some(id) && (to != from ==> r[from.Index()] == None)
            && (forall t: Square :: t.OnBoard() && t != to && t != from ==> r[t.Index()] == b[t.Index()])
  {
  }

  /** Let go anywhere else, it is back where it came from, below the others
      again, and nothing has happened. */
  lemma LetGoReturns(c: Core, x: U16, y: U16, pressed: bool, s: Square)
    requires InPlay(c) && c.drag.Some?
    requires !(65 <= x < 537 && 64 <= y < 536) || (s.OnBoard() && Within(x, y, s) &&
      (s !in c.lit || (c.board[s.Index()].Some? && SameTeam(c.pieces[c.drag.value].kind, c.pieces[c.board[s.Index()].value].kind))))
    ensures var o, id := Handle(c, Mouse(x, y, pressed, true), 0), c.drag.value;
            o == Outcome(c.(drag := None, lit := {}, pieces := c.pieces[id := c.pieces[id].(
                   x := 65 + 59 * c.from.col, y := 64 + 59 * c.from.row, priority := false, change := true)]), [], false)
  {
    hide GetBoardX, GetBoardY, GetScreenX, GetScreenY;
    MouseInPlay(c, x, y, pressed, true);
    OffTheBoard(x, y);
    if s.OnBoard() {
      WithinIsOver(x, y, s);
    }
    ScreenIsLinear(c.from.col);
    ScreenIsLinear(c.from.row);
    assert c.pieces[c.drag.value := PlaceAt(c.pieces[c.drag.value], x - 29, y - 29)]
      [c.drag.value := c.pieces[c.drag.value]] == c.pieces;
  }

  // ---------------------------------------------------------------------
  // Keys and frames in the game

  /** Letting go of the key with break code 0xac switches the animation; no other
      key does anything. */
  lemma KeysInTheGame(c: Core, scan: Byte)
    requires InPlay(c)
    ensures Handle(c, Keyboard(scan), 0) == Outcome(c.(animation := if scan == 0xac then !c.animation else c.animation), [], false)
  {
  }

  /** A captured king is noticed with the next event, whatever it is. */
  lemma EndIsNoticed(c: Core, event: Event)
    requires Shape(c) && c.state == Playing && c.endGame
    ensures var r := Handle(c, event, 0).core; r.state == Exit && r.won
  {
    hide OnPlayingMouse, UpdateFrom;
    if event.Mouse? {
      MouseKeepsName(Noticed(c), event.x, event.y, event.pressed, event.released);
    }
  }

  /** What a byte read in a frame does besides: 0xF9 opens a message, 0xF8 gives
      the turn, 0 is nothing; any other byte is a square, the first after 0xF9
      the origin, every later one a target. A target carries the move out, ends
      the game if it takes a king, and is a null dereference if the origin is
      empty. */
  lemma FramesReadBytes(c: Core, byte: Byte)
    requires InPlay(c)
    ensures var o := Handle(c, NewFrame, byte);
            var r, sq := o.core, Square(byte / 8 % 8, byte % 8);
            && o.send == [] && !o.clear
            && (if byte == 0 then r == c.(pieces := r.pieces)
                else if byte == 0xF9 then r == c.(pieces := r.pieces, byteOfMove := 0)
                else if byte == 0xF8 then r == c.(pieces := r.pieces, myTurn := true)
                else if c.byteOfMove == 0 then r == c.(pieces := r.pieces, byteOfMove := 1, oldSq := sq)
                else if c.board[c.oldSq.Index()] == None then
                  r.state == Crashed && r == c.(pieces := r.pieces, newSq := sq, state := r.state, won := r.won)
                else
                  && r == c.(pieces := r.pieces, newSq := sq, board := r.board, state := r.state, won := r.won)
                  && Carried(c.board, r.board, c.oldSq, sq)
                  && (if c.board[sq.Index()].Some? && IsKing(c.pieces[c.board[sq.Index()].value].kind)
                      then r.state == Exit && !r.won else r.state == c.state && r.won == c.won))
  {
    hide UpdateFrom, ReceiveByte, Frame;
    SameKindsAfter(c);
    ReadsByte(Updated(c), byte);
  }

  /** From cells b to cells r the piece on one square goes to the other. */
  predicate Carried(b: seq<Option<nat>>, r: seq<Option<nat>>, from: Square, to: Square)
    requires |b| == 64 && from.OnBoard() && to.OnBoard()
  {
    && |r| == 64 && r[from.Index()] == None && (to != from ==> r[to.Index()] == b[from.Index()])
    && forall k :: 0 <= k < 64 && k != from.Index() && k != to.Index() ==> r[k] == b[k]
  }

  lemma SameKindsAfter(c: Core)
    requires Shape(c)
    ensures forall k :: 0 <= k < PIECES ==> Updated(c).pieces[k].kind == c.pieces[k].kind
  {
    KindsStay(c.board, c.pieces, c.animation, 0);
    hide UpdateFrom;
  }

  lemma {:induction false} KindsStay(board: seq<Option<nat>>, pieces: seq<PieceState>, animation: bool, k: nat)
    requires |board| == 64 && k <= 64
    requires forall i :: 0 <= i < 64 && board[i].Some? ==> board[i].value < |pieces|
    ensures forall i :: 0 <= i < |pieces| ==> UpdateFrom(board, pieces, animation, k)[i].kind == pieces[i].kind
    decreases 64 - k
  {
    if k < 64 {
      if board[k].Some? {
        KindsStay(board, pieces[board[k].value := Frame(pieces[board[k].value], animation)], animation, k + 1);
      } else {
        KindsStay(board, pieces, animation, k + 1);
      }
    }
  }

  lemma ReadsByte(c: Core, byte: Byte)
    requires Shape(c)
    ensures var r, sq := ReceiveByte(c, byte), Square(byte / 8 % 8, byte % 8);
            if byte == 0 then r == c
            else if byte == 0xF9 then r == c.(byteOfMove := 0)
            else if byte == 0xF8 then r == c.(myTurn := true)
            else if c.byteOfMove == 0 then r == c.(byteOfMove := 1, oldSq := sq)
            else if c.board[c.oldSq.Index()] == None then
              r.state == Crashed && r == c.(newSq := sq, state := r.state, won := r.won)
            else
              && r == c.(pieces := r.pieces, newSq := sq, board := r.board, state := r.state, won := r.won)
              && Carried(c.board, r.board, c.oldSq, sq)
              && (if c.board[sq.Index()].Some? && IsKing(c.pieces[c.board[sq.Index()].value].kind)
                  then r.state == Exit && !r.won else r.state == c.state && r.won == c.won)
  {
    hide MoveTo, GetScreenX, GetScreenY, MoveCells, IsKing, Carried, Shape;
    assert Shape(c) && c.oldSq.OnBoard() && |c.board| == 64 by { ShapeParts(c); }
    assert DecodeSquare(byte) == Square(byte / 8 % 8, byte % 8);
    CellsCarried(c.board, c.oldSq, DecodeSquare(byte));
  }

  lemma ShapeParts(c: Core)
    requires Shape(c)
    ensures c.oldSq.OnBoard() && |c.board| == 64
  {
  }

  lemma CellsCarried(b: seq<Option<nat>>, from: Square, to: Square)
    requires |b| == 64 && from.OnBoard() && to.OnBoard()
    ensures Carried(b, MoveCells(b, from, to), from, to)
  {
  }

  /** A frame advances every piece of the board by one step. A piece whose move
      is read in that frame is given its target then and sets out with the next
      frame. */
  lemma FramesMovePieces(c: Core, byte: Byte, id: nat)
    requires InPlay(c) && Distinct(c.board) && id < PIECES
    ensures var r := Handle(c, NewFrame, byte).core;
            var p := if Some(id) in c.board then Frame(c.pieces[id], c.animation) else c.pieces[id];
            var to := Square(byte / 8 % 8, byte % 8);
            r.pieces[id] ==
            if byte !in {0, 0xF8, 0xF9} && c.byteOfMove != 0 && c.board[c.oldSq.Index()] == Some(id)
            then p.(targetX := 65 + 59 * to.col, targetY := 64 + 59 * to.row, moving := true, priority := true, change := true)
            else p
  {
    hide UpdateFrom, ReceiveByte, Frame, Distinct;
    UpdatedPiece(c, id);
    GivesTarget(Updated(c), byte, id);
  }

  /** A byte read gives a piece its target, if it completes a move of it. */
  lemma GivesTarget(c: Core, byte: Byte, id: nat)
    requires Shape(c) && id < PIECES
    ensures var r, p := ReceiveByte(c, byte), c.pieces[id];
            var to := Square(byte / 8 % 8, byte % 8);
            r.pieces[id] ==
            if byte !in {0, 0xF8, 0xF9} && c.byteOfMove != 0 && c.board[c.oldSq.Index()] == Some(id)
            then p.(targetX := 65 + 59 * to.col, targetY := 64 + 59 * to.row, moving := true, priority := true, change := true)
            else p
  {
    hide ApplyMove, MoveTo, GetScreenX, GetScreenY;
    var to := Square(byte / 8 % 8, byte % 8);
    if byte !in {0, 0xF8, 0xF9} && c.byteOfMove != 0 {
      assert DecodeSquare(byte) == to;
      ApplyGives(c.(newSq := to), id);
      if c.board[c.oldSq.Index()] == Some(id) {
        TargetOf(c.pieces[id], to);
      }
    }
  }

  lemma ApplyGives(c: Core, id: nat)
    requires Shape(c) && id < PIECES
    ensures ApplyMove(c).pieces[id] ==
            if c.board[c.oldSq.Index()] == Some(id) then MoveTo(c.pieces[id], GetScreenX(c.newSq.col), GetScreenY(c.newSq.row))
            else c.pieces[id]
  {
    hide MoveCells, MoveTo, GetScreenX, GetScreenY;
  }

  lemma TargetOf(p: PieceState, to: Square)
    requires to.OnBoard()
    ensures MoveTo(p, GetScreenX(to.col), GetScreenY(to.row)) ==
            p.(targetX := 65 + 59 * to.col, targetY := 64 + 59 * to.row, moving := true, priority := true, change := true)
  {
    hide GetScreenX, GetScreenY;
    ScreenIsLinear(to.col);
    ScreenIsLinear(to.row);
  }

  // ---------------------------------------------------------------------
  // The queues

  /** One byte is taken off the receive queue by every frame of a program that
      waits, waits for a colour or plays, and by no other event. */
  lemma TakesOneByte(n: Net, event: Event, arrived: nat)
    requires NetShape(n) && !Handle(n.me.core, event, ByteRead(n, event)).clear
    ensures var s := n.me.core.state;
            EventStep(n, event, arrived).me.rx ==
            if event.NewFrame? && s in {Waiting, WaitChoosingPlayer, Playing} && n.me.rx != [] then n.me.rx[1..] else n.me.rx
  {
    hide Handle, EnqueueAll;
  }

  /** Bytes join a queue in order, as many as there is room for in ten places. */
  lemma {:induction false} QueueOfTen(q: seq<Byte>, bytes: seq<Byte>)
    requires |q| <= 10
    ensures EnqueueAll(q, bytes) == (q + bytes)[..Min(10, |q| + |bytes|)]
    decreases |bytes|
  {
    if bytes == [] {
      assert (q + bytes)[..|q|] == q;
    } else {
      var r := Enqueue(q, bytes[0]);
      QueueOfTen(r, bytes[1..]);
      assert (r + bytes[1..])[..Min(10, |r| + |bytes| - 1)] == (q + bytes)[..Min(10, |q| + |bytes|)];
    }
  }

  /** A dead program does nothing more. One that has left the game handles no
      events and reads nothing; it only sends what is queued and cleans up. */
  lemma AfterTheEnd(n: Net, a: Action)
    requires NetShape(n)
    ensures n.me.core.state == Crashed ==> Act(n, a) == n
    ensures n.me.core.state == Exit && (a.Read? || a.Input?) ==> Act(n, a) == n
    ensures n.me.core.state == Exit ==> Act(n, a).me.core == n.me.core && Act(n, a).me.sent == n.me.sent
  {
    hide Shape, OnPlaying;
    if a.Input? && (n.me.core.state == Crashed || n.me.core.state == Exit) {
      assert ByteRead(n, a.event) == 0 && TakeByte(n, a.event) == n;
      assert Handle(n.me.core, a.event, 0) == Outcome(n.me.core, [], false);
      assert n.me.sent + [] == n.me.sent;
    }
  }
}
