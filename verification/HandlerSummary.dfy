/** What one event in the playing state can do to the fields the protocol
    depends on: nothing, a move of the player's own, or the effect of one
    received byte. */
module HandlerSummary {
  import opened Common
  import opened Codec
  import opened Geometry
  import opened Chess
  import opened PieceMotion
  import opened Game
  import opened GameInvariants

  /** The pending end of game is noticed; nothing else of the game's course
      changes. */
  predicate Notices(c: Core, r: Core) {
    && r.player == c.player && r.endGame == c.endGame
    && (if c.endGame then r.state == Exit && r.won else r.state == c.state && r.won == c.won)
  }

  predicate Quiet(c: Core, r: Core) {
    && Notices(c, r) && r.board == c.board && r.myTurn == c.myTurn && r.moves == c.moves
    && r.byteOfMove == c.byteOfMove && r.oldSq == c.oldSq
  }

  /** The piece on a square, as a kind by number. */
  function KindOn(b: seq<Option<nat>>, s: Square): Option<Kind>
    requires |b| == 64 && s.OnBoard()
  {
    var cell := b[s.Index()];
    if cell.Some? && cell.value < PIECES then Some(KindOf(cell.value)) else None
  }

  /** The kinds on the 64 squares. */
  function KindsOn(b: seq<Option<nat>>): (p: Placement)
    requires |b| == 64
  {
    seq(64, k requires 0 <= k < 64 => KindOn(b, SquareAt(k)))
  }

  /** The move is pseudo-legal for a piece that has moved before or not. */
  ghost predicate LegalFor(b: seq<Option<nat>>, moved: bool, from: Square, to: Square)
    requires |b| == 64 && from.OnBoard() && to.OnBoard()
  {
    KindOn(b, from).Some? && PseudoLegal(KindsOn(b), KindOn(b, from).value, moved, from, to)
  }

  /** The move is pseudo-legal, for a pawn whose first move it may or may not
      be. */
  ghost predicate Legal(b: seq<Option<nat>>, from: Square, to: Square)
    requires |b| == 64 && from.OnBoard() && to.OnBoard()
  {
    exists moved: bool :: LegalFor(b, moved, from, to)
  }

  /** The pawnMoved flag of the piece on a square. */
  predicate FlagOn(c: Core, s: Square)
    requires Shape(c) && s.OnBoard()
  {
    c.board[s.Index()].Some? && c.pieces[c.board[s.Index()].value].pawnMoved
  }

  predicate TakesKing(b: seq<Option<nat>>, to: Square)
    requires |b| == 64 && to.OnBoard()
  {
    KindOn(b, to).Some? && IsKing(KindOn(b, to).value)
  }

  /** A move of the player's own: one of its pieces makes a pseudo-legal move,
      and the turn is given away. */
  ghost predicate Drops(c: Core, r: Core, from: Square, to: Square)
    requires Shape(c)
  {
    && Movable(c.board, from, to)
    && KindOn(c.board, from).Some? && Owns(c.player, KindOn(c.board, from).value)
    && (KindOn(c.board, to).Some? ==> !SameTeam(KindOn(c.board, from).value, KindOn(c.board, to).value))
    && LegalFor(c.board, FlagOn(c, from), from, to)
    && r.board == MoveCells(c.board, from, to)
    && c.myTurn && !r.myTurn && r.player == c.player && r.moves == c.moves + 1
    && r.endGame == (c.endGame || TakesKing(c.board, to))
    && (if c.endGame then r.state == Exit && r.won else r.state == c.state && r.won == c.won)
  }

  /** The effect of one received byte. */
  predicate Receives(c: Core, r: Core, byte: Byte)
    requires Shape(c)
  {
    r.moves == c.moves &&
    if byte == BEGIN_MESSAGE then
      Notices(c, r) && r.board == c.board && r.myTurn == c.myTurn && r.byteOfMove == 0
    else if byte == YOUR_TURN then
      Notices(c, r) && r.board == c.board && r.myTurn
    else if c.byteOfMove == 0 then
      Notices(c, r) && r.board == c.board && r.myTurn == c.myTurn &&
      r.byteOfMove == 1 && r.oldSq == DecodeSquare(byte)
    else
      && InGame(r.state) && r.player == c.player && r.endGame == c.endGame && r.myTurn == c.myTurn
      && (c.board[c.oldSq.Index()].None? ==> r.board == c.board)
      && (c.board[c.oldSq.Index()].Some? ==>
            && r.board == MoveCells(c.board, c.oldSq, DecodeSquare(byte))
            && (if TakesKing(c.board, DecodeSquare(byte)) then r.state == Exit && !r.won else Notices(c, r)))
  }

  lemma ReceiveStays(c: Core, byte: Byte)
    requires Shape(c) && InGame(c.state)
    ensures InGame(ReceiveByte(c, byte).state)
  {
    hide MoveCells, MoveTo, DecodeSquare;
  }

  /** What a drop leaves of the fields besides the board. */
  lemma DropsControl(c: Core, r: Core, from: Square, to: Square)
    requires Shape(c) && c.state == Playing && Drops(c, r, from, to)
    ensures InGame(r.state) && r.player == c.player && !r.myTurn && r.moves == c.moves + 1
  {
  }

  lemma KindsAgree(c: Core)
    requires Shape(c) && KindsFixed(c)
    ensures KindsOn(c.board) == Kinds(c)
  {
    hide KindOf;
    forall k | 0 <= k < 64
      ensures KindsOn(c.board)[k] == Kinds(c)[k]
    {
    }
  }

  /** What the drop test accepts is pseudo-legal. */
  lemma AcceptedIsLegal(c: Core, to: Square)
    requires LocalInv(c) && c.drag.Some? && to.OnBoard() && DropAccepted(c, to)
    ensures Shape(c) && LegalFor(c.board, FlagOn(c, c.from), c.from, to)
  {
    hide KindOf, PseudoLegal, DropAccepted, Painted, OnScreen;
    DropIffLegal(c, to);
    KindsAgree(c);
  }

  /** A drop is one of the player's moves. */
  lemma ReleaseSummary(c: Core, x: U16, y: U16)
    requires LocalInv(c) && InGame(c.state) && c.drag.Some?
    ensures var o := Release(c, x, y);
            var to := Square(GetBoardX(x), GetBoardY(y));
            DropAccepted(c, to) ==>
              && o.send == MoveMessage(c.from, to) && Movable(c.board, c.from, to)
              && KindOn(c.board, c.from).Some? && Owns(c.player, KindOn(c.board, c.from).value)
              && (KindOn(c.board, to).Some? ==> !SameTeam(KindOn(c.board, c.from).value, KindOn(c.board, to).value))
              && LegalFor(c.board, FlagOn(c, c.from), c.from, to)
              && o.core.board == MoveCells(c.board, c.from, to)
              && o.core.endGame == (c.endGame || TakesKing(c.board, to))
              && c.myTurn && o.core.moves == c.moves + 1
    ensures var o := Release(c, x, y);
            !DropAccepted(c, Square(GetBoardX(x), GetBoardY(y))) ==>
              && o.send == [] && o.core.board == c.board && o.core.moves == c.moves
              && o.core.myTurn == c.myTurn && o.core.endGame == c.endGame
  {
    hide GetBoardX, GetBoardY, GetScreenX, GetScreenY, LegalFor;
    var to := Square(GetBoardX(x), GetBoardY(y));
    if DropAccepted(c, to) {
      AcceptedIsLegal(c, to);
      MoveConserves(c.board, c.from, to, c.drag.value);
    }
  }

  /** Holding a piece leaves its flag alone. */
  lemma DraggedFlag(c: Core, x: U16, y: U16, pressed: bool, s: Square)
    requires Shape(c) && s.OnBoard()
    ensures FlagOn(Dragged(c, x, y, pressed), s) == FlagOn(c, s)
  {
    hide GetBoardX, GetBoardY, Painted, Kinds;
  }

  lemma MouseSummary(c: Core, x: U16, y: U16, pressed: bool, released: bool) returns (from: Square, to: Square)
    requires LocalInv(c) && InGame(c.state) && (c.endGame ==> c.state == Exit && c.won)
    ensures from.OnBoard() && to.OnBoard()
    ensures var o := OnPlayingMouse(c, x, y, pressed, released);
            !o.clear && ((o.send == [] && Quiet(c, o.core)) ||
                         (o.send == MoveMessage(from, to) && Drops(c, o.core, from, to)))
  {
    assert Shape(c);
    hide GetBoardX, GetBoardY, GetScreenX, GetScreenY, PlaceAt, MoveTo, Painted, Kinds, LocalInv, Shape;
    hide DropAccepted, DropCells, MoveCells, KindOn, TakesKing, Movable, MoveMessage, LegalFor, FlagOn;
    from, to := Square(0, 0), Square(0, 0);
    var c1 := Dragged(c, x, y, pressed);
    DraggedKeeps(c, x, y, pressed);
    DraggedFlag(c, x, y, pressed, c1.from);
    if released && c1.drag.Some? {
      ReleaseSummary(c1, x, y);
      if DropAccepted(c1, Square(GetBoardX(x), GetBoardY(y))) {
        from, to := c1.from, Square(GetBoardX(x), GetBoardY(y));
      }
    }
  }

  /** Carrying out a received move, in terms of the cells. */
  lemma ApplySummary(c: Core)
    requires Shape(c) && KindsFixed(c)
    ensures var r := ApplyMove(c);
            && r.player == c.player && r.endGame == c.endGame && r.myTurn == c.myTurn && r.moves == c.moves
            && (if c.board[c.oldSq.Index()].None? then r.state == Crashed && r.board == c.board
                else
                  && r.board == MoveCells(c.board, c.oldSq, c.newSq)
                  && (if TakesKing(c.board, c.newSq) then r.state == Exit && !r.won
                      else r.state == c.state && r.won == c.won))
  {
    hide MoveCells, GetScreenX, GetScreenY, KindOf;
    var captured := c.board[c.newSq.Index()];
    if captured.Some? {
      assert c.pieces[captured.value].kind == KindOf(captured.value);
    }
  }

  lemma ReceiveSummary(c: Core, byte: Byte)
    requires Shape(c) && KindsFixed(c) && InGame(c.state) && byte != 0
    requires c.endGame ==> c.state == Exit && c.won
    ensures Receives(c, ReceiveByte(c, byte), byte)
  {
    hide ApplyMove, TakesKing, MoveCells;
    if byte != BEGIN_MESSAGE && byte != YOUR_TURN && c.byteOfMove != 0 {
      ApplySummary(c.(newSq := DecodeSquare(byte)));
    }
  }

  lemma FrameSummary(c: Core, byte: Byte)
    requires LocalInv(c) && InGame(c.state)
    requires c.endGame ==> c.state == Exit && c.won
    ensures var r := ReceiveByte(Updated(c), byte);
            if byte == 0 then Quiet(c, r) else Receives(c, r, byte)
  {
    hide UpdateFrom, LocalInv, Shape, KindsFixed, Distinct, Kinds, MoveCells, TakesKing, ReceiveByte, DecodeSquare;
    InvKinds(c);
    UpdateKinds(c);
    if byte == 0 {
      ReadsNothing(Updated(c));
    } else {
      ReceiveSummary(Updated(c), byte);
    }
  }

  lemma InvKinds(c: Core)
    requires LocalInv(c)
    ensures Shape(c) && Distinct(c.board) && KindsFixed(c)
  {
  }

  lemma ReadsNothing(c: Core)
    requires Shape(c)
    ensures ReceiveByte(c, 0) == c
  {
  }

  /** The three things an event can do. */
  ghost predicate Course(c: Core, o: Outcome, byte: Byte, from: Square, to: Square)
    requires Shape(c) && from.OnBoard() && to.OnBoard()
  {
    && !o.clear
    && (|| (o.send == [] && byte == 0 && Quiet(c, o.core))
        || (o.send == MoveMessage(from, to) && byte == 0 && Drops(c, o.core, from, to))
        || (o.send == [] && byte != 0 && Receives(c, o.core, byte)))
  }

  lemma NoticedCourse(c: Core, o: Outcome, byte: Byte, from: Square, to: Square)
    requires Shape(c) && from.OnBoard() && to.OnBoard() && c.state == Playing
    requires Course(Noticed(c), o, byte, from, to)
    ensures Course(c, o, byte, from, to)
  {
    hide KindOn, TakesKing, Movable, MoveCells, MoveMessage, DecodeSquare, LegalFor;
  }

  lemma EventCourse(c: Core, event: Event, byte: Byte) returns (from: Square, to: Square)
    requires LocalInv(c) && c.state == Playing
    requires !event.NewFrame? ==> byte == 0
    ensures from.OnBoard() && to.OnBoard()
    ensures Course(Noticed(c), OnPlaying(c, event, byte), byte, from, to)
  {
    from, to := Square(0, 0), Square(0, 0);
    ControlKeeps(c, Noticed(c));
    assert Shape(c);
    hide ReceiveByte, UpdateFrom, OnPlayingMouse, LocalInv, Shape, Drops, Receives;
    match event
    case Keyboard(_) =>
    case Mouse(x, y, pressed, released) => from, to := MouseSummary(Noticed(c), x, y, pressed, released);
    case NewFrame => FrameSummary(Noticed(c), byte);
  }

  /** Any event in the playing state. */
  lemma PlayingSummary(c: Core, event: Event, byte: Byte) returns (from: Square, to: Square)
    requires LocalInv(c) && c.state == Playing
    requires !event.NewFrame? ==> byte == 0
    ensures from.OnBoard() && to.OnBoard()
    ensures Course(c, Handle(c, event, byte), byte, from, to)
  {
    from, to := EventCourse(c, event, byte);
    NoticedCourse(c, Handle(c, event, byte), byte, from, to);
  }

  /** A game event clears nothing, and uses a byte only on a frame. */
  lemma OnlyFramesRead(c: Core, event: Event, byte: Byte)
    requires Shape(c)
    ensures !OnPlaying(c, event, byte).clear
    ensures event.NewFrame? || OnPlaying(c, event, byte) == OnPlaying(c, event, 0)
  {
    hide PickUp, PlaceAt, DropAccepted;
  }

  /** The port is cleared exactly when the player connects. */
  lemma OnlyConnectClears(c: Core, event: Event, byte: Byte)
    requires Shape(c)
    ensures Handle(c, event, byte).clear <==> Connects(c, event)
  {
    if c.state == Playing {
      OnlyFramesRead(c, event, byte);
    }
    hide OnPlaying;
  }
}
