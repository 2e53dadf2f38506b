/** The event handlers of main.c, updating their globals, the board and the
    serial queues in place, and proved to compute the functions of module Game. */
module Handlers {
  import opened Common
  import opened Codec
  import opened Geometry
  import opened Chess
  import opened PieceMotion
  import opened Game
  import opened HandlerSummary
  import opened Network
  import opened Framebuffer
  import opened Pieces
  import opened Highlighting
  import opened Boards
  import opened RingBuffer
  import opened SerialPort

  class Program {
    var state: GameState
    var player: Player
    var myTurn: bool
    var endGame: bool
    var won: bool
    var animation: bool
    var nameSize: nat
    var byteOfMove: nat
    var oldSq: Square
    var newSq: Square
    var dragging: Piece?
    var initialSquare: Square
    const board: Board
    const port: Port
    ghost var moves: nat

    ghost predicate Valid()
      reads this, board, board.cells, board.mem, port, port.transmitQueue, port.receiveQueue
    {
      && board.Valid() && port.Valid() && board.mem !in port.Owned() && Chequered(board.mem[..])
      && (dragging != null ==> Listed(board.roster, dragging))
      && initialSquare.OnBoard() && oldSq.OnBoard() && newSq.OnBoard()
    }

    /** The program state as a value. */
    ghost function View(): (c: Core)
      requires Valid()
      reads this, board, board.cells, board.mem, board.roster, port, port.transmitQueue, port.receiveQueue
      ensures Shape(c)
    {
      Core(state, player, myTurn, endGame, won, animation, nameSize, byteOfMove, oldSq, newSq,
           if dragging == null then None else Some(dragging.id), initialSquare,
           Ids(board.cells), States(board.roster), OrangeSet(board.mem), moves)
    }

    constructor (toggle: Image)
      requires WellFormed(toggle)
      ensures Valid() && View() == InitCore() && port.Tx() == [] && port.Rx() == []
      ensures fresh(board) && fresh(board.cells) && fresh(board.mem) && (forall p :: p in board.roster ==> fresh(p))
      ensures fresh(port) && fresh(port.Owned())
    {
      board := new Board(toggle);
      port := new Port();
      state, player, myTurn, endGame, won, animation := Start, NotDecided, false, false, false, true;
      nameSize, byteOfMove, oldSq, newSq := 0, 0, Square(0, 0), Square(0, 0);
      dragging, initialSquare, moves := null, Square(0, 0), 0;
    }

    /** At every moment every pixel of a highlighted square is orange, and every
        pixel of any other square has the square's colour. */
    lemma TilesShowTheMoves(t: Square, px: int, py: int)
      requires Valid() && t.OnBoard() && IsPixel(px, py) && InTile(t, px, py)
      ensures Pixel(board.mem, px, py) == if t in View().lit then ORANGE else if (t.col + t.row) % 2 == 0 then CREAM else GREEN
    {
      hide Ids, States, OrangeSet, Chequered, Pixel;
      OrangePixels(board.mem, t, px, py);
    }

    /** addToTransmitQueue leaves the program state alone. */
    method Transmit(b: Byte)
      requires Valid()
      modifies port.Owned()
      ensures Valid() && View() == old(View())
      ensures port.Tx() == Enqueue(old(port.Tx()), b) && port.Rx() == old(port.Rx())
    {
      hide Ids, States, OrangeSet, Chequered, Board.Valid, ByteQueue.Contents, ByteQueue.Valid;
      port.AddToTransmitQueue(b);
    }

    /** So does sp_clear. */
    method ClearPort(arrived: seq<Byte>)
      requires Valid()
      modifies port.Owned()
      ensures Valid() && View() == old(View())
      ensures port.Tx() == old(port.Tx()) && port.Rx() == []
    {
      hide Ids, States, OrangeSet, Chequered, Board.Valid, ByteQueue.Contents, ByteQueue.Valid;
      port.Clear(arrived);
    }

    /** So does sp_read. */
    method ReadPort(incoming: Option<Byte>)
      requires Valid()
      modifies port.Owned()
      ensures Valid() && View() == old(View()) && port.Tx() == old(port.Tx())
      ensures port.Rx() == if incoming.Some? then Enqueue(old(port.Rx()), incoming.value) else old(port.Rx())
    {
      hide Ids, States, OrangeSet, Chequered, Board.Valid, ByteQueue.Contents, ByteQueue.Valid;
      port.Read(incoming);
    }

    /** And readFromQueue. */
    method Take() returns (b: Byte)
      requires Valid()
      modifies port.Owned()
      ensures Valid() && View() == old(View()) && port.Tx() == old(port.Tx())
      ensures b == (if old(port.Rx()) == [] then 0 else old(port.Rx())[0])
      ensures port.Rx() == if old(port.Rx()) == [] then [] else old(port.Rx())[1..]
    {
      hide Ids, States, OrangeSet, Chequered, Board.Valid, ByteQueue.Contents, ByteQueue.Valid;
      b := port.ReadFromQueue();
    }

    /** What ENTER does. */
    method Connect(arrived: seq<Byte>)
      requires Valid()
      modifies this, port.Owned()
      ensures Valid() && View() == old(View()).(state := Waiting)
      ensures port.Tx() == Enqueue(old(port.Tx()), VM_CONNECTED) && port.Rx() == []
    {
      hide Ids, States, OrangeSet, Chequered, Board.Valid, ByteQueue.Contents, ByteQueue.Valid, Enqueue, Shape;
      ClearPort(arrived);
      Transmit(VM_CONNECTED);
      state := Waiting;
    }

    /** name_choice_ih on a keyboard event; sp_clear polls the port while bytes
        arrive. */
    method NameKey(scan: Byte, arrived: seq<Byte>)
      requires Valid()
      modifies this, port.Owned()
      ensures Valid()
      ensures var o := OnNameKey(old(View()), scan);
              View() == o.core && port.Tx() == EnqueueAll(old(port.Tx()), o.send) &&
              port.Rx() == if o.clear then [] else old(port.Rx())
    {
      hide Ids, States, OrangeSet, Chequered, Port.Valid, Board.Valid, InitCore;
      if scan >= 128 {
        if scan == BACK_SPACE && nameSize > 0 {
          nameSize := nameSize - 1;
        } else if scan == ENTER && nameSize > 0 {
          Connect(arrived);
        } else if scan != BACK_SPACE && nameSize < MAX_NAME_SIZE {
          nameSize := nameSize + 1;
        }
      }
    }

    /** waiting_ih on a frame. */
    method WaitingFrame()
      requires Valid()
      modifies this, port.Owned()
      ensures Valid()
      ensures var byte := if old(port.Rx()) == [] then 0 else old(port.Rx())[0];
              var o := OnWaitingFrame(old(View()), byte);
              View() == o.core && port.Tx() == EnqueueAll(old(port.Tx()), o.send)
      ensures port.Rx() == if old(port.Rx()) == [] then [] else old(port.Rx())[1..]
    {
      hide Ids, States, OrangeSet, Chequered, Board.Valid, ByteQueue.Contents, ByteQueue.Valid, Enqueue;
      var byte := Take();
      if byte == VM_CONNECTED {
        state := ChoosingPlayer;
        Transmit(RECEIVE_VM_CONNECTED);
      } else if byte == RECEIVE_VM_CONNECTED {
        state := WaitChoosingPlayer;
      }
    }

    /** cursorClickPlayer. */
    method ClickPlayer(x: U16, y: U16, pressed: bool) returns (clicked: bool)
      modifies `player
      ensures clicked <==> ClickedPlayer(x, y, pressed) != NotDecided
      ensures player == if clicked then ClickedPlayer(x, y, pressed) else old(player)
    {
      if (x > 307 && x < 466 && y > 62 && y < 104) && pressed {
        player := Black;
        return true;
      }
      if (x > 307 && x < 466 && y > 517 && y < 558) && pressed {
        player := White;
        return true;
      }
      return false;
    }

    /** choosing_ih on a mouse event. */
    method ChoosingMouse(x: U16, y: U16, pressed: bool)
      requires Valid()
      modifies this, port.Owned()
      ensures Valid() && port.Rx() == old(port.Rx())
      ensures var o := OnChoosingMouse(old(View()), x, y, pressed);
              View() == o.core && port.Tx() == EnqueueAll(old(port.Tx()), o.send)
    {
      hide Ids, States, OrangeSet, Chequered, Board.Valid, ByteQueue.Contents, ByteQueue.Valid, Enqueue, ClickedPlayer;
      var clicked := ClickPlayer(x, y, pressed);
      if clicked {
        Announce();
      }
    }

    /** The chosen colour starts the game, and the other player gets the other
        one. */
    method Announce()
      requires Valid()
      modifies this, port.Owned()
      ensures Valid() && port.Rx() == old(port.Rx())
      ensures View() == old(View()).(state := Playing, myTurn := old(player) == White)
      ensures port.Tx() == EnqueueAll(old(port.Tx()), [if old(player) == White then BLACK_BYTE else WHITE_BYTE])
    {
      hide Ids, States, OrangeSet, Chequered, Board.Valid, ByteQueue.Contents, ByteQueue.Valid, Enqueue, EnqueueAll, Shape;
      var other := if player == White then BLACK_BYTE else WHITE_BYTE;
      EnqueueOne(port.Tx(), other);
      state := Playing;
      Transmit(other);
      myTurn := player == White;
    }

    /** waiting_choosing_ih on a frame: it reads the port itself first. */
    method WaitChoosingFrame(incoming: Option<Byte>)
      requires Valid()
      modifies this, port.Owned()
      ensures Valid() && port.Tx() == old(port.Tx())
      ensures var rx := if incoming.Some? then Enqueue(old(port.Rx()), incoming.value) else old(port.Rx());
              View() == OnWaitChoosingFrame(old(View()), if rx == [] then 0 else rx[0]).core &&
              port.Rx() == if rx == [] then [] else rx[1..]
    {
      hide Ids, States, OrangeSet, Chequered, Board.Valid, ByteQueue.Contents, ByteQueue.Valid, Enqueue;
      ReadPort(incoming);
      var byte := Take();
      if byte != 0 {
        TakeColour(byte);
      }
    }

    /** A byte other than 0 is the player's colour. */
    method TakeColour(byte: Byte)
      requires Valid()
      modifies this
      ensures Valid() && port.Tx() == old(port.Tx()) && port.Rx() == old(port.Rx())
      ensures var white := byte == WHITE_BYTE;
              View() == old(View()).(state := Playing, player := if white then White else Black, myTurn := white)
    {
      hide Ids, States, OrangeSet, Chequered, Board.Valid, ByteQueue.Contents, ByteQueue.Valid, Shape;
      if byte == WHITE_BYTE {
        myTurn := true;
        player := White;
      } else {
        myTurn := false;
        player := Black;
      }
      state := Playing;
    }

    // -------------------------------------------------------------------
    // playing_ih

    /** What a cell and its piece look like in the view. */
    lemma Cell(s: Square)
      requires Valid() && s.OnBoard()
      ensures var p := board.cells[s.Index()];
              View().board[s.Index()] == (if p == null then None else Some(p.id)) &&
              (p != null ==> Listed(board.roster, p) && p.id < PIECES && View().pieces[p.id] == p.State())
    {
    }

    /** movePiece towards a square. */
    method SendTo(p: Piece, to: Square)
      requires Valid() && Listed(board.roster, p)
      modifies p
      ensures Valid() && port.Tx() == old(port.Tx()) && port.Rx() == old(port.Rx())
      ensures var c := old(View());
              View() == c.(pieces := c.pieces[p.id := MoveTo(c.pieces[p.id], GetScreenX(to.col), GetScreenY(to.row))])
    {
      hide OrangeSet, Ids, Chequered;
      p.MovePiece(GetScreenX(to.col), GetScreenY(to.row));
    }

    /** The two assignments to the cells for a received move. */
    method CarryReceived()
      requires Valid()
      modifies board.cells
      ensures Valid() && port.Tx() == old(port.Tx()) && port.Rx() == old(port.Rx())
      ensures var c := old(View()); View() == c.(board := MoveCells(c.board, c.oldSq, c.newSq))
    {
      hide OrangeSet, Chequered, States, Ids, Board.Valid, MoveCells, ByteQueue.Contents, ByteQueue.Valid, Shape;
      board.Carry(oldSq, newSq);
    }

    /** A king on the square a received move goes to ends the game. */
    method NoticeCapture()
      requires Valid()
      modifies this
      ensures Valid() && port.Tx() == old(port.Tx()) && port.Rx() == old(port.Rx())
      ensures var c := old(View());
              var captured := c.board[c.newSq.Index()];
              View() == if captured.Some? && IsKing(c.pieces[captured.value].kind)
                        then c.(won := false, state := Exit) else c
    {
      hide Ids, States, OrangeSet, Chequered, ByteQueue.Contents, ByteQueue.Valid;
      Cell(newSq);
      var captured := board.cells[newSq.row * 8 + newSq.col];
      if captured != null && (captured.kind == B_KING || captured.kind == W_KING) {
        won := false;
        state := Exit;
      }
    }

    /** The received move in move.old_* and move.new_* is carried out. */
    method ApplyReceived()
      requires Valid()
      modifies this, board.cells, board.roster
      ensures Valid() && View() == ApplyMove(old(View()))
      ensures port.Tx() == old(port.Tx()) && port.Rx() == old(port.Rx())
    {
      hide Ids, States, OrangeSet, Chequered, ByteQueue.Contents, ByteQueue.Valid;
      NoticeCapture();
      Cell(oldSq);
      var p := board.cells[oldSq.row * 8 + oldSq.col];
      hide Board.Valid, MoveCells, MoveTo, GetScreenX, GetScreenY, Listed;
      if p == null {
        state := Crashed;
      } else {
        SendTo(p, newSq);
        CarryReceived();
      }
    }

    /** The serial part of a frame. */
    method ReceiveMoveByte(byte: Byte)
      requires Valid()
      modifies this, board.cells, board.roster
      ensures Valid() && View() == ReceiveByte(old(View()), byte)
      ensures port.Tx() == old(port.Tx()) && port.Rx() == old(port.Rx())
    {
      hide Ids, States, OrangeSet, Chequered, ApplyMove, Board.Valid, Port.Valid, ByteQueue.Contents, ByteQueue.Valid;
      if byte == BEGIN_MESSAGE {
        byteOfMove := 0;
      } else if byte == YOUR_TURN {
        myTurn := true;
      } else if byte != 0 {
        if byteOfMove == 0 {
          oldSq := Square(byte / 8 % 8, byte % 8);
          byteOfMove := byteOfMove + 1;
        } else {
          newSq := Square(byte / 8 % 8, byte % 8);
          ApplyReceived();
        }
      }
    }

    lemma StateOf(p: Piece)
      requires Valid() && Listed(board.roster, p)
      ensures View().pieces[p.id] == p.State()
    {
    }

    /** The cells hold the kinds the view says. */
    lemma SameKinds()
      requires Valid()
      ensures KindsOf(board.cells) == Kinds(View())
    {
    }

    /** A press of the button at (x, y) while nothing is dragged. */
    method Press(x: U16, y: U16, past: int -> bool)
      requires Valid()
      modifies this, board.mem, board.roster
      ensures Valid() && View() == PickUp(old(View()), x, y)
      ensures port.Tx() == old(port.Tx()) && port.Rx() == old(port.Rx())
    {
      hide Ids, States, OrangeSet, Chequered, Painted, Kinds, ByteQueue.Contents, ByteQueue.Valid, GetBoardX, GetBoardY, Shape;
      var row := GetBoardY(y);
      var col := GetBoardX(x);
      if row >= 0 && row < 8 && col >= 0 && col < 8 {
        Cell(Square(col, row));
        var piece := board.cells[row * 8 + col];
        if piece != null && ((piece.kind > 5 && player == White) || (piece.kind <= 5 && player == Black)) {
          StartDrag(piece, Square(col, row), past);
        }
      }
    }

    /** changePiecePriority. */
    method SetPriority(piece: Piece, priority: bool)
      requires Valid() && Listed(board.roster, piece)
      modifies piece
      ensures Valid() && port.Tx() == old(port.Tx()) && port.Rx() == old(port.Rx())
      ensures var c, p := old(View()), old(piece.State());
              View() == c.(pieces := c.pieces[piece.id := p.(priority := priority, change := true)])
      ensures piece.State() == old(piece.State()).(priority := priority, change := true)
    {
      hide OrangeSet, Ids, Chequered;
      piece.ChangePriority(priority);
    }

    /** What a press over one of the player's pieces does. */
    method StartDrag(piece: Piece, s: Square, past: int -> bool)
      requires Valid() && s.OnBoard() && Listed(board.roster, piece)
      modifies this, board.mem, piece
      ensures Valid() && port.Tx() == old(port.Tx()) && port.Rx() == old(port.Rx())
      ensures var c, p := old(View()), old(piece.State());
              View() == c.(drag := Some(piece.id), from := s,
                           pieces := c.pieces[piece.id := p.(priority := true, change := true)],
                           lit := c.lit + Painted(Kinds(c), p.kind, p.pawnMoved, s))
    {
      hide Ids, States, OrangeSet, Chequered, Kinds, KindsOf, Painted, Board.Valid, ByteQueue.Contents, ByteQueue.Valid, Shape;
      SameKinds();
      SetPriority(piece, true);
      SameKinds();
      Paint(piece, s, past);
      dragging := piece;
      initialSquare := s;
    }

    /** possiblePosition adds the squares of the piece to the highlighted ones. */
    method Paint(piece: Piece, s: Square, past: int -> bool)
      requires Valid() && s.OnBoard()
      modifies board.mem
      ensures Valid() && port.Tx() == old(port.Tx()) && port.Rx() == old(port.Rx())
      ensures var c := old(View()); View() == c.(lit := c.lit + Painted(Kinds(c), piece.kind, piece.pawnMoved, s))
    {
      hide Ids, States, OrangeSet, Chequered, Daubed, Kinds, KindsOf, Painted, ByteQueue.Contents, ByteQueue.Valid, Shape;
      SameKinds();
      PossiblePosition(board.mem, board.cells, past, piece, s);
      DaubedStaysChequered(old(board.mem[..]), board.mem[..]);
    }

    /** setPiecePosition on the dragged piece. */
    method DragTo(x: int, y: int)
      requires Valid() && dragging != null
      modifies dragging
      ensures Valid() && port.Tx() == old(port.Tx()) && port.Rx() == old(port.Rx())
      ensures var c, id := old(View()), dragging.id; View() == c.(pieces := c.pieces[id := PlaceAt(c.pieces[id], x, y)])
    {
      hide OrangeSet, Ids, Chequered;
      dragging.SetPosition(x, y);
    }

    /** drawBoard leaves no highlighted square behind. */
    method Redraw()
      requires Valid()
      modifies board.mem
      ensures Valid() && View() == old(View()).(lit := {})
      ensures port.Tx() == old(port.Tx()) && port.Rx() == old(port.Rx())
      ensures forall t: Square, px, py :: t.OnBoard() && IsPixel(px, py) && InTile(t, px, py) ==>
        Pixel(board.mem, px, py) == if (t.col + t.row) % 2 == 0 then CREAM else GREEN
    {
      hide OrangeSet, Chequered, Pixel, InTile, IsPixel, Ids, States;
      DrawBoard(board.mem);
    }

    /** The cells after the player's own move. */
    method PutDown(to: Square)
      requires Valid() && dragging != null && to.OnBoard()
      modifies board.cells
      ensures Valid() && port.Tx() == old(port.Tx()) && port.Rx() == old(port.Rx())
      ensures var c := old(View()); View() == c.(board := DropCells(c.board, dragging.id, c.from, to))
    {
      hide OrangeSet, Chequered, States, Ids, Board.Valid, DropCells, ByteQueue.Contents, ByteQueue.Valid, Shape;
      board.Put(dragging, initialSquare, to);
    }

    /** The four bytes of the player's own move. */
    method TransmitMove(to: Square)
      requires Valid() && to.OnBoard()
      modifies port.Owned()
      ensures Valid() && View() == old(View())
      ensures port.Tx() == EnqueueAll(old(port.Tx()), MoveMessage(initialSquare, to)) && port.Rx() == old(port.Rx())
    {
      hide Ids, States, OrangeSet, Chequered, Board.Valid, Port.Valid, ByteQueue.Contents, ByteQueue.Valid, MoveMessage;
      hide EnqueueAll, Enqueue;
      var oldPos := 8 * initialSquare.col + initialSquare.row;
      var newPos := 8 * to.col + to.row;
      MessageBytes(initialSquare, to);
      EnqueueFour(port.Tx(), BEGIN_MESSAGE, oldPos, newPos, YOUR_TURN);
      hide *;
      Transmit(BEGIN_MESSAGE);
      Transmit(oldPos);
      Transmit(newPos);
      Transmit(YOUR_TURN);
    }

    /** The dragged piece goes home, and from there it moves to a square. */
    method Relocate(to: Square)
      requires Valid() && dragging != null
      modifies dragging
      ensures Valid() && port.Tx() == old(port.Tx()) && port.Rx() == old(port.Rx())
      ensures var c, id := old(View()), dragging.id;
              var p := PlaceAt(c.pieces[id], GetScreenX(c.from.col), GetScreenY(c.from.row));
              View() == c.(pieces := c.pieces[id := MoveTo(p, GetScreenX(to.col), GetScreenY(to.row))])
    {
      hide OrangeSet, Ids, Chequered;
      dragging.SetPosition(GetScreenX(initialSquare.col), GetScreenY(initialSquare.row));
      dragging.MovePiece(GetScreenX(to.col), GetScreenY(to.row));
    }

    /** The dragged piece is played to a square and the move is sent. */
    method PlayMove(to: Square)
      requires Valid() && dragging != null && to.OnBoard()
      modifies this`myTurn, this`moves, dragging, board.cells, port.Owned()
      ensures Valid()
      ensures var c := old(View());
              var p := PlaceAt(c.pieces[c.drag.value], GetScreenX(c.from.col), GetScreenY(c.from.row));
              View() == c.(pieces := c.pieces[c.drag.value := MoveTo(p, GetScreenX(to.col), GetScreenY(to.row))],
                           board := DropCells(c.board, c.drag.value, c.from, to), myTurn := false, moves := c.moves + 1) &&
              port.Tx() == EnqueueAll(old(port.Tx()), MoveMessage(c.from, to)) && port.Rx() == old(port.Rx())
    {
      hide Ids, States, OrangeSet, Chequered, Board.Valid, ByteQueue.Contents, ByteQueue.Valid, EnqueueAll, Shape;
      hide PlaceAt, MoveTo, DropCells, GetScreenX, GetScreenY, MoveMessage;
      Relocate(to);
      PutDown(to);
      TransmitMove(to);
      myTurn := false;
      moves := moves + 1;
    }

    /** The drop test: the square is orange, and free or held by the other
        team. */
    method DropTest(to: Square) returns (accepted: bool, newPosition: Piece?)
      requires Valid() && dragging != null
      ensures accepted <==> DropAccepted(View(), to)
      ensures accepted ==> newPosition == board.cells[to.Index()]
    {
      hide Ids, States, Chequered, ByteQueue.Contents, ByteQueue.Valid, OrangeSet;
      StateOf(dragging);
      accepted, newPosition := false, null;
      if to.row >= 0 && to.row < 8 && to.col >= 0 && to.col < 8 {
        var orange := IsHighlighted(board.mem, to);
        if orange {
          Cell(to);
          newPosition := board.cells[to.row * 8 + to.col];
          if newPosition != null {
            var sameTeam := (dragging.kind > 5 && newPosition.kind > 5) || (dragging.kind <= 5 && newPosition.kind <= 5);
            accepted := !sameTeam;
          } else {
            accepted := true;
          }
        }
      }
    }

    /** Capturing a king ends the game. */
    method CaptureKing(to: Square, newPosition: Piece?)
      requires Valid() && to.OnBoard() && newPosition == board.cells[to.Index()]
      modifies this`endGame
      ensures Valid() && port.Tx() == old(port.Tx()) && port.Rx() == old(port.Rx())
      ensures var c := old(View());
              var captured := c.board[to.Index()];
              View() == c.(endGame := c.endGame || (captured.Some? && IsKing(c.pieces[captured.value].kind)))
    {
      hide Ids, States, OrangeSet, Chequered, ByteQueue.Contents, ByteQueue.Valid;
      Cell(to);
      if newPosition != null && (newPosition.kind == B_KING || newPosition.kind == W_KING) {
        endGame := true;
      }
    }

    /** What the drop test decides for the dragged piece. */
    method Drop(to: Square)
      requires Valid() && dragging != null
      modifies this`endGame, this`myTurn, this`moves, dragging, board.cells, port.Owned()
      ensures Valid() && port.Rx() == old(port.Rx())
      ensures var c, id := old(View()), old(dragging.id);
              var p := PlaceAt(c.pieces[id], GetScreenX(c.from.col), GetScreenY(c.from.row));
              if DropAccepted(c, to) then
                var captured := c.board[to.Index()];
                View() == c.(pieces := c.pieces[id := MoveTo(p, GetScreenX(to.col), GetScreenY(to.row))],
                             endGame := c.endGame || (captured.Some? && IsKing(c.pieces[captured.value].kind)),
                             board := DropCells(c.board, id, c.from, to), myTurn := false, moves := c.moves + 1) &&
                port.Tx() == EnqueueAll(old(port.Tx()), MoveMessage(c.from, to))
              else View() == c.(pieces := c.pieces[id := p]) && port.Tx() == old(port.Tx())
    {
      hide Ids, States, OrangeSet, Chequered, ByteQueue.Contents, ByteQueue.Valid, EnqueueAll;
      hide PlaceAt, MoveTo, DropCells, GetScreenX, GetScreenY, MoveMessage;
      var accepted, newPosition := DropTest(to);
      if accepted {
        CaptureKing(to, newPosition);
        PlayMove(to);
      } else {
        DragTo(GetScreenX(initialSquare.col), GetScreenY(initialSquare.row));
      }
    }

    /** The end of a drag. */
    method EndDrag()
      requires Valid()
      modifies this, board.mem
      ensures Valid() && View() == old(View()).(drag := None, lit := {})
      ensures port.Tx() == old(port.Tx()) && port.Rx() == old(port.Rx())
      ensures forall t: Square, px, py :: t.OnBoard() && IsPixel(px, py) && InTile(t, px, py) ==>
        Pixel(board.mem, px, py) == if (t.col + t.row) % 2 == 0 then CREAM else GREEN
    {
      hide Ids, States, OrangeSet, Chequered, Board.Valid, ByteQueue.Contents, ByteQueue.Valid, Shape;
      dragging := null;
      Redraw();
    }

    /** The button is let go over (x, y). */
    method LetGo(x: U16, y: U16)
      requires Valid() && dragging != null
      modifies this, dragging, board.cells, board.mem, port.Owned()
      ensures Valid()
      ensures var o := Release(old(View()), x, y);
              View() == o.core && port.Tx() == EnqueueAll(old(port.Tx()), o.send) && port.Rx() == old(port.Rx())
    {
      hide Ids, States, OrangeSet, Chequered, ByteQueue.Contents, ByteQueue.Valid, Pixel, InTile, IsPixel;
      hide PlaceAt, MoveTo, DropCells, GetScreenX, GetScreenY, MoveMessage;
      hide DropAccepted, Release, Shape, EnqueueAll, GetBoardX, GetBoardY;
      ghost var c, id := View(), dragging.id;
      ReleaseInSteps(c, x, y);
      StateOf(dragging);
      EnqueueOne(port.Tx(), 0);
      hide Program.Valid, Port.Valid, Listed;
      SetPriority(dragging, false);
      assert View() == c.(pieces := c.pieces[id := c.pieces[id].(priority := false, change := true)]);
      Drop(Square(GetBoardX(x), GetBoardY(y)));
      ghost var e := View();
      EndDrag();
      assert View() == e.(drag := None, lit := {});
    }

    /** The mouse part of playing_ih. */
    method PlayingMouse(x: U16, y: U16, pressed: bool, released: bool, past: int -> bool)
      requires Valid()
      modifies this, board.cells, board.mem, board.roster, port.Owned()
      ensures Valid()
      ensures var o := OnPlayingMouse(old(View()), x, y, pressed, released);
              View() == o.core && port.Tx() == EnqueueAll(old(port.Tx()), o.send) && port.Rx() == old(port.Rx())
    {
      hide Ids, States, OrangeSet, Chequered, Board.Valid, ByteQueue.Contents, ByteQueue.Valid;
      hide PickUp, Release, PlaceAt, Shape;
      if dragging != null {
        DragTo(x - 29, y - 29);
      } else if pressed && myTurn {
        Press(x, y, past);
      }
      if released && dragging != null {
        LetGo(x, y);
      }
    }

    /** The frame part of playing_ih. */
    method PlayingFrame()
      requires Valid()
      modifies this, board.cells, board.roster, port.Owned()
      ensures Valid() && port.Tx() == old(port.Tx())
      ensures var c, byte := old(View()), if old(port.Rx()) == [] then 0 else old(port.Rx())[0];
              View() == ReceiveByte(c.(pieces := UpdateFrom(c.board, c.pieces, c.animation, 0)), byte)
      ensures port.Rx() == if old(port.Rx()) == [] then [] else old(port.Rx())[1..]
    {
      hide Ids, States, OrangeSet, Chequered, ByteQueue.Contents, ByteQueue.Valid, ReceiveByte, UpdateFrom;
      UpdateBoard();
      var byte := Take();
      ReceiveMoveByte(byte);
    }

    method UpdateBoard()
      requires Valid()
      modifies board.roster
      ensures Valid() && port.Tx() == old(port.Tx()) && port.Rx() == old(port.Rx())
      ensures var c := old(View()); View() == c.(pieces := UpdateFrom(c.board, c.pieces, c.animation, 0))
    {
      hide Ids, States, OrangeSet, Chequered, ByteQueue.Contents, ByteQueue.Valid, UpdateFrom;
      board.Update(animation);
    }

    /** A captured king ends the game at the next event. */
    method NoticeEnd()
      requires Valid()
      modifies this
      ensures Valid() && port.Tx() == old(port.Tx()) && port.Rx() == old(port.Rx())
      ensures var c := old(View()); View() == Noticed(c)
    {
      hide Ids, States, OrangeSet, Chequered, Board.Valid, ByteQueue.Contents, ByteQueue.Valid;
      if endGame {
        won := true;
        state := Exit;
      }
    }

    /** playing_ih. */
    method Play(event: Event, past: int -> bool)
      requires Valid()
      modifies this, board.cells, board.mem, board.roster, port.Owned()
      ensures Valid()
      ensures var byte := if old(port.Rx()) == [] then 0 else old(port.Rx())[0];
              var o := OnPlaying(old(View()), event, byte);
              View() == o.core && port.Tx() == EnqueueAll(old(port.Tx()), o.send)
      ensures port.Rx() == if event.NewFrame? && old(port.Rx()) != [] then old(port.Rx())[1..] else old(port.Rx())
    {
      hide Ids, States, OrangeSet, Chequered, Board.Valid, ByteQueue.Contents, ByteQueue.Valid;
      hide ReceiveByte, UpdateFrom, OnPlayingMouse, Shape, Enqueue;
      NoticeEnd();
      match event {
        case NewFrame =>
          PlayingFrame();
        case Keyboard(scan) =>
          if scan >= 128 {
            if scan == 0xac {
              animation := !animation;
            }
          }
        case Mouse(x, y, pressed, released) =>
          PlayingMouse(x, y, pressed, released, past);
      }
    }

    /** inputHandler on one event. `incoming` is what sp_read finds if the
        handler polls the port, `arrived` what sp_clear finds, and `past` what
        lies in memory past the board. */
    method InputHandler(event: Event, incoming: Option<Byte>, arrived: seq<Byte>, past: int -> bool)
      requires Valid()
      modifies this, board.cells, board.mem, board.roster, port.Owned()
      ensures Valid()
      ensures Handled(old(View()), old(port.Tx()), old(port.Rx()), event, incoming, View(), port.Tx(), port.Rx())
    {
      hide Ids, States, OrangeSet, Chequered, Board.Valid, ByteQueue.Contents, ByteQueue.Valid;
      hide OnPlaying, OnNameKey, Shape, Enqueue;
      match state {
        case Start =>
          if event.Keyboard? {
            NameKey(event.scan, arrived);
          }
        case Waiting =>
          if event.NewFrame? {
            WaitingFrame();
          }
        case Playing =>
          OnlyFramesRead(View(), event, if port.Rx() == [] then 0 else port.Rx()[0]);
          Play(event, past);
        case ChoosingPlayer =>
          if event.Mouse? {
            ChoosingMouse(event.x, event.y, event.pressed);
          }
        case WaitChoosingPlayer =>
          if event.NewFrame? {
            WaitChoosingFrame(incoming);
          }
        case _ =>
      }
    }
  }

  /** The receive queue as the handler of an event finds it. */
  function Polled(c: Core, rx: seq<Byte>, event: Event, incoming: Option<Byte>): seq<Byte> {
    if c.state == WaitChoosingPlayer && event.NewFrame? && incoming.Some? then Enqueue(rx, incoming.value) else rx
  }

  /** The program state and the two queues after one event. */
  ghost predicate Handled(c: Core, tx: seq<Byte>, rx: seq<Byte>, event: Event, incoming: Option<Byte>,
                          c': Core, tx': seq<Byte>, rx': seq<Byte>)
    requires Shape(c)
  {
    var q := Polled(c, rx, event, incoming);
    var taken := Reads(c, event) && q != [];
    var o := Handle(c, event, if taken then q[0] else 0);
    c' == o.core && tx' == EnqueueAll(tx, o.send) && rx' == if o.clear then [] else if taken then q[1..] else q
  }

  /** Release lowers the priority of the piece first, and what it decides and
      does afterwards does not depend on that. */
  lemma ReleaseInSteps(c: Core, x: U16, y: U16)
    requires Shape(c) && c.drag.Some?
    ensures var to, id := Square(GetBoardX(x), GetBoardY(y)), c.drag.value;
            var d := c.(pieces := c.pieces[id := c.pieces[id].(priority := false, change := true)]);
            var p := PlaceAt(d.pieces[id], GetScreenX(d.from.col), GetScreenY(d.from.row));
            Release(c, x, y) ==
            if DropAccepted(d, to) then
              var captured := d.board[to.Index()];
              Outcome(d.(pieces := d.pieces[id := MoveTo(p, GetScreenX(to.col), GetScreenY(to.row))],
                         endGame := d.endGame || (captured.Some? && IsKing(d.pieces[captured.value].kind)),
                         board := DropCells(d.board, id, d.from, to), myTurn := false, moves := d.moves + 1,
                         drag := None, lit := {}),
                      MoveMessage(d.from, to), false)
            else Outcome(d.(pieces := d.pieces[id := p], drag := None, lit := {}), [], false)
  {
    var id := c.drag.value;
    var q := c.pieces[id].(priority := false, change := true);
    var home := PlaceAt(q, GetScreenX(c.from.col), GetScreenY(c.from.row));
    var away := MoveTo(home, GetScreenX(GetBoardX(x)), GetScreenY(GetBoardY(y)));
    assert c.pieces[id := q][id := home] == c.pieces[id := home];
    assert c.pieces[id := q][id := away] == c.pieces[id := away];
  }

  lemma EnqueueOne(q: seq<Byte>, b: Byte)
    ensures EnqueueAll(q, []) == q && EnqueueAll(q, [b]) == Enqueue(q, b)
  {
    assert EnqueueAll(q, [b]) == EnqueueAll(Enqueue(q, b), []);
  }

  lemma EnqueueFour(q: seq<Byte>, a: Byte, b: Byte, c: Byte, d: Byte)
    ensures EnqueueAll(q, [a, b, c, d]) == Enqueue(Enqueue(Enqueue(Enqueue(q, a), b), c), d)
  {
    hide Enqueue;
    var q1 := Enqueue(q, a);
    var q2 := Enqueue(q1, b);
    var q3 := Enqueue(q2, c);
    assert EnqueueAll(q, [a, b, c, d]) == EnqueueAll(q1, [b, c, d]);
    assert EnqueueAll(q1, [b, c, d]) == EnqueueAll(q2, [c, d]);
    assert EnqueueAll(q2, [c, d]) == EnqueueAll(q3, [d]);
    assert EnqueueAll(q3, [d]) == EnqueueAll(Enqueue(q3, d), []);
  }
}
