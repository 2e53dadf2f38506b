/** The phases two connected peers go through, from the first ENTER to the end
    of the game, and the proof that every event leads from phase to phase. A
    phase names the leading peer p first; f is what is under way from p to q,
    g what is under way from q to p. With `strict` a phase also relates the two
    boards; that part needs runs in which no move touches square (0, 0). */
module Protocol {
  import opened Common
  import opened Codec
  import opened Chess
  import opened Game
  import opened GameInvariants
  import opened HandlerSummary
  import opened Network

  // ---------------------------------------------------------------------
  // Relations between the two boards

  const B_KING_ID := 4
  const W_KING_ID := 20

  predicate BothKings(b: seq<Option<nat>>) { Some(B_KING_ID) in b && Some(W_KING_ID) in b }

  predicate Running(c: Core) { c.state == Playing && !c.endGame }

  predicate Opposite(p: Core, q: Core) {
    (p.player == White && q.player == Black) || (p.player == Black && q.player == White)
  }

  /** Nothing is pending: the boards are equal and the game goes on. */
  predicate Agreed(p: Core, q: Core) {
    p.board == q.board && Running(p) && Running(q) && BothKings(p.board)
  }

  /** White moves first and the players alternate: with p to move, Black has
      made as many moves as White, or one less. */
  predicate ToMove(p: Core, q: Core) {
    if p.player == White then p.moves == q.moves else q.moves == p.moves + 1
  }

  /** A pseudo-legal move of a piece of the player's own; one taken is not. */
  ghost predicate Fair(player: Player, b: seq<Option<nat>>, from: Square, to: Square)
    requires |b| == 64 && from.OnBoard() && to.OnBoard()
  {
    && KindOn(b, from).Some? && Owns(player, KindOn(b, from).value)
    && (KindOn(b, to).Some? ==> !Owns(player, KindOn(b, to).value))
    && Legal(b, from, to)
  }

  /** p has moved, q has not yet carried the move out: doing so gives p's
      board, and p knows whether the move won. */
  ghost predicate Ahead(p: Core, q: Core, from: Square, to: Square)
    requires Shape(p) && Shape(q)
  {
    && Movable(q.board, from, to) && !IsCorner(from) && !IsCorner(to)
    && p.board == MoveCells(q.board, from, to) && BothKings(q.board)
    && p.endGame == TakesKing(q.board, to) && Fair(p.player, q.board, from, to)
    && (p.state == Playing || (p.state == Exit && p.won && p.endGame))
    && !q.endGame
  }

  /** q has carried the move out: the boards are equal, and if it took a king p
      has won and q has lost. */
  predicate CaughtUp(p: Core, q: Core) {
    && p.board == q.board
    && (if p.endGame then (p.state == Playing || (p.state == Exit && p.won)) && q.state == Exit && !q.won
        else Running(p) && Running(q) && BothKings(p.board))
  }

  // ---------------------------------------------------------------------
  // Phases

  predicate Idle(p: Core, q: Core, f: seq<Byte>, g: seq<Byte>) {
    p.state == Start && q.state == Start && f == [] && g == []
  }

  predicate OneWaiting(p: Core, q: Core, f: seq<Byte>, g: seq<Byte>) {
    p.state == Waiting && q.state == Start && f == [VM_CONNECTED] && g == []
  }

  /** q pressed ENTER last and has thrown p's VM_CONNECTED away. */
  predicate BothWaiting(p: Core, q: Core, f: seq<Byte>, g: seq<Byte>) {
    p.state == Waiting && q.state == Waiting && f == [] && g == [VM_CONNECTED]
  }

  predicate Choosing(p: Core, q: Core, f: seq<Byte>, g: seq<Byte>) {
    p.state == ChoosingPlayer && g == [] &&
    ((q.state == Waiting && f == [RECEIVE_VM_CONNECTED]) || (q.state == WaitChoosingPlayer && f == []))
  }

  function Greeting(q: Core): seq<Byte> { if q.state == Waiting then [RECEIVE_VM_CONNECTED] else [] }

  /** p has chosen its colour, and may have moved, before q knows. */
  ghost predicate Chosen(strict: bool, p: Core, q: Core, f: seq<Byte>, g: seq<Byte>, from: Square, to: Square)
    requires Shape(p) && Shape(q) && from.OnBoard() && to.OnBoard()
  {
    && InGame(p.state) && (q.state == Waiting || q.state == WaitChoosingPlayer) && g == []
    && q.moves == 0
    && (|| (p.player == Black && !p.myTurn && p.moves == 0 && f == Greeting(q) + [WHITE_BYTE] &&
            (strict ==> Running(p) && p.board == q.board))
        || (p.player == White && p.myTurn && p.moves == 0 && f == Greeting(q) + [BLACK_BYTE] &&
            (strict ==> Running(p) && p.board == q.board))
        || (p.player == White && !p.myTurn && p.moves == 1 && f == Greeting(q) + [BLACK_BYTE] + MoveMessage(from, to) &&
            (strict ==> Ahead(p, q, from, to))))
  }

  /** p holds the turn and nothing is under way. */
  predicate Holder(strict: bool, p: Core, q: Core, f: seq<Byte>, g: seq<Byte>) {
    && InGame(p.state) && InGame(q.state) && Opposite(p, q)
    && p.myTurn && !q.myTurn && f == [] && g == [] && ToMove(p, q)
    && (strict ==> Agreed(p, q))
  }

  /** What is left of a move message. */
  predicate Rest(f: seq<Byte>, from: Square, to: Square)
    requires from.OnBoard() && to.OnBoard()
  {
    || f == MoveMessage(from, to)
    || f == [EncodeSquare(from), EncodeSquare(to), YOUR_TURN]
    || f == [EncodeSquare(to), YOUR_TURN]
    || f == [YOUR_TURN]
    || f == []
  }

  /** How far the receiver has parsed the message, and what that says about the
      boards. */
  ghost predicate Parsed(p: Core, q: Core, f: seq<Byte>, from: Square, to: Square)
    requires Shape(p) && Shape(q)
  {
    if |f| <= 1 then CaughtUp(p, q) && (f == [] ==> p.endGame)
    else
      && Ahead(p, q, from, to) && q.state == Playing
      && (|f| == 3 ==> q.byteOfMove == 0)
      && (|f| == 2 ==> q.byteOfMove == 1 && q.oldSq == from)
  }

  /** A move of p's is under way to q. Only a peer that has left the game can
      lose the end of it. */
  ghost predicate Transit(strict: bool, p: Core, q: Core, f: seq<Byte>, g: seq<Byte>, qClosed: bool, from: Square, to: Square)
    requires Shape(p) && Shape(q) && from.OnBoard() && to.OnBoard()
  {
    && InGame(p.state) && InGame(q.state) && Opposite(p, q)
    && !p.myTurn && !q.myTurn && g == [] && Rest(f, from, to) && ToMove(q, p)
    && (f == [] ==> qClosed) && (qClosed ==> q.state == Exit)
    && (strict ==> Parsed(p, q, f, from, to))
  }

  ghost predicate ChosenPhase(strict: bool, p: Core, q: Core, f: seq<Byte>, g: seq<Byte>)
    requires Shape(p) && Shape(q)
  {
    exists from: Square, to: Square :: from.OnBoard() && to.OnBoard() && Chosen(strict, p, q, f, g, from, to)
  }

  ghost predicate TransitPhase(strict: bool, p: Core, q: Core, f: seq<Byte>, g: seq<Byte>, qClosed: bool)
    requires Shape(p) && Shape(q)
  {
    exists from: Square, to: Square :: from.OnBoard() && to.OnBoard() && Transit(strict, p, q, f, g, qClosed, from, to)
  }

  ghost predicate Phase(strict: bool, p: Core, q: Core, f: seq<Byte>, g: seq<Byte>, qClosed: bool)
    requires Shape(p) && Shape(q)
  {
    || Idle(p, q, f, g) || OneWaiting(p, q, f, g) || BothWaiting(p, q, f, g) || Choosing(p, q, f, g)
    || ChosenPhase(strict, p, q, f, g) || Holder(strict, p, q, f, g)
    || TransitPhase(strict, p, q, f, g, qClosed)
  }

  /** One of the two leads. */
  ghost predicate Phases(strict: bool, p: Core, q: Core, f: seq<Byte>, g: seq<Byte>, pClosed: bool, qClosed: bool)
    requires Shape(p) && Shape(q)
  {
    Phase(strict, p, q, f, g, qClosed) || Phase(strict, q, p, g, f, pClosed)
  }

  // ---------------------------------------------------------------------
  // One event of p: it reads `byte` (0 when it reads nothing), g is what is
  // left under way to it, and its own sends join f.

  /** The byte p reads is the first one under way to it, or there is none. */
  predicate Reading(p: Core, event: Event, byte: Byte, g: seq<Byte>, g': seq<Byte>) {
    || (byte == 0 && g' == g)
    || (Reads(p, event) && g != [] && byte == g[0] && g' == g[1..])
  }

  lemma KingsAreKings(id: nat)
    requires id < PIECES
    ensures IsKing(KindOf(id)) <==> id == B_KING_ID || id == W_KING_ID
  {
  }

  /** A move that takes no king leaves both on the board. */
  lemma KingsStay(b: seq<Option<nat>>, from: Square, to: Square)
    requires Movable(b, from, to) && Distinct(b) && BothKings(b) && !TakesKing(b, to)
    ensures BothKings(MoveCells(b, from, to))
  {
    MoveConserves(b, from, to, B_KING_ID);
    MoveConserves(b, from, to, W_KING_ID);
    KingsAreKings(B_KING_ID);
    KingsAreKings(W_KING_ID);
  }

  lemma DropIsFair(c: Core, r: Core, from: Square, to: Square)
    requires Shape(c) && Drops(c, r, from, to)
    ensures from.OnBoard() && to.OnBoard() && Fair(c.player, c.board, from, to)
  {
    hide Shape, KindOn, MoveCells, TakesKing, LegalFor;
  }

  /** A drop from equal boards puts the mover one move ahead. */
  lemma DropLeadsAhead(p: Core, r: Core, q: Core, event: Event, from: Square, to: Square)
    requires Shape(p) && Shape(r) && Shape(q) && from.OnBoard() && to.OnBoard()
    requires Drops(p, r, from, to) && Handle(p, event, 0).send == MoveMessage(from, to) && !CornerDrop(p, event)
    requires Running(p) && p.board == q.board && BothKings(q.board) && !q.endGame
    ensures Ahead(r, q, from, to)
  {
    hide Shape, Handle, Movable, MoveCells, KindOn, TakesKing, Owns, BothKings, Fair;
    SquareRoundTrip(from);
    SquareRoundTrip(to);
    DropIsFair(p, r, from, to);
  }

  lemma WholeMessage(from: Square, to: Square)
    requires from.OnBoard() && to.OnBoard()
    ensures Rest(MoveMessage(from, to), from, to) && |MoveMessage(from, to)| == 4
  {
  }

  /** The holder moves or waits. */
  lemma HolderLeads(strict: bool, p: Core, q: Core, event: Event, qClosed: bool) returns (from: Square, to: Square)
    requires LocalInv(p) && Shape(q) && Holder(strict, p, q, [], [])
    requires qClosed ==> q.state == Exit
    requires strict ==> !CornerDrop(p, event)
    ensures from.OnBoard() && to.OnBoard()
    ensures var o := Handle(p, event, 0);
            && !o.clear
            && (Holder(strict, o.core, q, o.send, []) || Transit(strict, o.core, q, o.send, [], qClosed, from, to))
  {
    from, to := Square(0, 0), Square(0, 0);
    assert Shape(p);
    var o := Handle(p, event, 0);
    if p.state == Playing {
      from, to := PlayingSummary(p, event, 0);
      if o.send == [] {
        hide LocalInv, Handle, Drops, Transit;
        HolderWaits(strict, p, q, o.core);
      } else {
        hide LocalInv, Shape, Handle, Drops, Holder, Transit, CornerDrop, Ahead, Movable, MoveCells, MoveMessage;
        HolderMoves(strict, p, q, o.core, event, qClosed, from, to);
      }
    } else {
      hide LocalInv, OnPlaying, OnNameKey, OnChoosingMouse, OnWaitingFrame, OnWaitChoosingFrame, Transit;
    }
  }

  lemma HolderWaits(strict: bool, p: Core, q: Core, r: Core)
    requires Shape(p) && Shape(q) && Shape(r)
    requires Holder(strict, p, q, [], []) && p.state == Playing && Quiet(p, r)
    ensures Holder(strict, r, q, [], [])
  {
    hide Shape, BothKings;
  }

  lemma HolderMoves(strict: bool, p: Core, q: Core, r: Core, event: Event, qClosed: bool, from: Square, to: Square)
    requires Shape(p) && Shape(q) && Shape(r) && from.OnBoard() && to.OnBoard()
    requires Holder(strict, p, q, [], []) && p.state == Playing && Drops(p, r, from, to) && (qClosed ==> q.state == Exit)
    requires Handle(p, event, 0).send == MoveMessage(from, to) && (strict ==> !CornerDrop(p, event))
    ensures Transit(strict, r, q, MoveMessage(from, to), [], qClosed, from, to)
  {
    DropsControl(p, r, from, to);
    WholeMessage(from, to);
    if strict {
      DropLeadsAhead(p, r, q, event, from, to);
    }
    hide Shape, Handle, Drops, Rest, Ahead, MoveMessage, CornerDrop, BothKings;
  }

  /** Without the turn and with nothing to read, a peer in the game at most
      notices its win. */
  lemma Idles(p: Core, event: Event)
    requires LocalInv(p) && InGame(p.state) && !p.myTurn
    ensures var o := Handle(p, event, 0);
            o.send == [] && !o.clear && InGame(o.core.state) && (o.core == p || Quiet(p, o.core))
  {
    assert Shape(p);
    hide LocalInv, Shape, OnPlaying, Movable, MoveCells, KindOn, TakesKing, Owns;
    if p.state == Playing {
      var from, to := PlayingSummary(p, event, 0);
    }
  }

  lemma HolderFollows(strict: bool, p: Core, q: Core, event: Event)
    requires LocalInv(p) && Shape(q) && Holder(strict, q, p, [], [])
    ensures var o := Handle(p, event, 0);
            o.send == [] && !o.clear && Holder(strict, q, o.core, [], [])
  {
    Idles(p, event);
  }

  lemma TransitLeads(strict: bool, p: Core, q: Core, f: seq<Byte>, event: Event, qClosed: bool, from: Square, to: Square)
    requires LocalInv(p) && Shape(q) && from.OnBoard() && to.OnBoard()
    requires Transit(strict, p, q, f, [], qClosed, from, to)
    ensures var o := Handle(p, event, 0);
            o.send == [] && !o.clear && Transit(strict, o.core, q, f, [], qClosed, from, to)
  {
    Idles(p, event);
  }

  /** The second square of the message carries the move out. */
  lemma ApplyCatchesUp(q: Core, p: Core, r: Core, from: Square, to: Square)
    requires Shape(p) && Shape(q) && Distinct(p.board)
    requires from.OnBoard() && to.OnBoard()
    requires Ahead(q, p, from, to) && p.state == Playing && p.byteOfMove == 1 && p.oldSq == from
    requires Receives(p, r, EncodeSquare(to))
    ensures CaughtUp(q, r)
  {
    SquareRoundTrip(to);
    if !TakesKing(p.board, to) {
      KingsStay(p.board, from, to);
    }
    hide BothKings, MoveCells, KindOn, TakesKing;
  }

  /** The receiver takes the next byte of the message. */
  lemma TransitFollows(strict: bool, p: Core, q: Core, f: seq<Byte>, event: Event, from: Square, to: Square)
    requires LocalInv(p) && Shape(q) && from.OnBoard() && to.OnBoard()
    requires Transit(strict, q, p, f, [], false, from, to)
    requires f != [] && Reads(p, event) && p.state == Playing
    ensures var o := Handle(p, event, f[0]);
            && o.send == [] && !o.clear
            && (Transit(strict, q, o.core, f[1..], [], false, from, to) || Holder(strict, o.core, q, [], f[1..]))
  {
    var src, dst := PlayingSummary(p, event, f[0]);
    assert Shape(p) && Distinct(p.board);
    var o := Handle(p, event, f[0]);
    hide LocalInv, Shape, Distinct, Handle, Quiet, Receives, Drops, Transit, Holder, MoveMessage;
    TransitLength(strict, p, q, f, from, to);
    if f[0] == 0 {
      TransitSkips(strict, p, q, o.core, f, from, to);
    } else {
      TransitTakes(strict, p, q, o.core, f, from, to);
    }
  }

  lemma TransitLength(strict: bool, p: Core, q: Core, f: seq<Byte>, from: Square, to: Square)
    requires Shape(p) && Shape(q) && from.OnBoard() && to.OnBoard() && Transit(strict, q, p, f, [], false, from, to)
    ensures !p.myTurn
  {
  }

  /** The next byte of a message and what is left after it, by what is left
      before it. */
  lemma RestTail(f: seq<Byte>, from: Square, to: Square)
    requires from.OnBoard() && to.OnBoard() && Rest(f, from, to) && f != []
    ensures |f| <= 4 && |f[1..]| == |f| - 1 && Rest(f[1..], from, to)
    ensures f[0] == if |f| == 4 then BEGIN_MESSAGE else if |f| == 3 then EncodeSquare(from)
                    else if |f| == 2 then EncodeSquare(to) else YOUR_TURN
    ensures |f| == 1 ==> f[1..] == []
  {
    hide EncodeSquare;
  }

  /** Without a corner in the move no byte of the message is 0. */
  lemma NoZero(p: Core, q: Core, f: seq<Byte>, from: Square, to: Square)
    requires Shape(p) && Shape(q) && from.OnBoard() && to.OnBoard()
    requires Rest(f, from, to) && f != [] && Parsed(q, p, f, from, to)
    ensures f[0] != 0
  {
    hide Shape, Rest, Parsed, EncodeSquare, DecodeSquare, IsCorner;
    RestTail(f, from, to);
    if |f| > 1 {
      ParsedNoCorner(p, q, f, from, to);
    }
    SquareRoundTrip(from);
    SquareRoundTrip(to);
  }

  lemma ParsedNoCorner(p: Core, q: Core, f: seq<Byte>, from: Square, to: Square)
    requires Shape(p) && Shape(q) && from.OnBoard() && to.OnBoard() && Parsed(q, p, f, from, to) && |f| > 1
    ensures !IsCorner(from) && !IsCorner(to)
  {
    hide Shape, IsCorner;
  }

  /** Square (0, 0) in the message is passed over. */
  lemma TransitSkips(strict: bool, p: Core, q: Core, r: Core, f: seq<Byte>, from: Square, to: Square)
    requires Shape(p) && Shape(q) && Shape(r) && from.OnBoard() && to.OnBoard()
    requires Transit(strict, q, p, f, [], false, from, to) && f != [] && f[0] == 0 && p.state == Playing && Quiet(p, r)
    ensures Transit(strict, q, r, f[1..], [], false, from, to)
  {
    RestTail(f, from, to);
    if strict {
      NoZero(p, q, f, from, to);
    }
    hide Shape, EncodeSquare, Rest, Parsed;
  }

  lemma TransitTakes(strict: bool, p: Core, q: Core, r: Core, f: seq<Byte>, from: Square, to: Square)
    requires Shape(p) && Shape(q) && Shape(r) && Distinct(p.board) && from.OnBoard() && to.OnBoard()
    requires Transit(strict, q, p, f, [], false, from, to) && f != [] && f[0] != 0 && p.state == Playing
    requires Receives(p, r, f[0])
    ensures Transit(strict, q, r, f[1..], [], false, from, to) || Holder(strict, r, q, [], f[1..])
  {
    SquareRoundTrip(from);
    SquareRoundTrip(to);
    RestTail(f, from, to);
    hide Shape, Distinct, Movable, MoveCells, KindOn, TakesKing, BothKings, EncodeSquare, DecodeSquare, Rest;
    if strict && |f| == 2 {
      ApplyCatchesUp(q, p, r, from, to);
    }
  }

  lemma ChosenLeads(strict: bool, p: Core, q: Core, f: seq<Byte>, event: Event, from: Square, to: Square)
    returns (from': Square, to': Square)
    requires LocalInv(p) && LocalInv(q) && from.OnBoard() && to.OnBoard() && Chosen(strict, p, q, f, [], from, to)
    requires strict ==> !CornerDrop(p, event)
    ensures from'.OnBoard() && to'.OnBoard()
    ensures var o := Handle(p, event, 0);
            !o.clear && Chosen(strict, o.core, q, f + o.send, [], from', to')
  {
    from', to' := from, to;
    FreshKings(q);
    assert Shape(p) && Shape(q);
    var o := Handle(p, event, 0);
    assert f + [] == f;
    if !p.myTurn || p.state != Playing {
      hide LocalInv, Shape, Handle, Chosen;
      ChosenIdles(strict, p, q, f, event, from, to);
    } else {
      var src, dst := PlayingSummary(p, event, 0);
      hide LocalInv, Shape, Handle, Chosen, Drops, Quiet, CornerDrop, MoveMessage;
      if o.send == [] {
        ChosenQuiet(strict, p, q, o.core, f, from, to);
      } else {
        from', to' := src, dst;
        ChosenMoves(strict, p, q, o.core, f, event, from, to, src, dst);
      }
    }
  }

  /** Without the turn, or after the game, the chooser sends nothing. */
  lemma ChosenIdles(strict: bool, p: Core, q: Core, f: seq<Byte>, event: Event, from: Square, to: Square)
    requires LocalInv(p) && Shape(q) && from.OnBoard() && to.OnBoard() && Chosen(strict, p, q, f, [], from, to)
    requires !p.myTurn || p.state != Playing
    ensures var o := Handle(p, event, 0);
            o.send == [] && !o.clear && Chosen(strict, o.core, q, f, [], from, to)
  {
    assert Shape(p);
    if !p.myTurn {
      Idles(p, event);
      hide LocalInv, Shape, Handle, Movable, MoveCells, BothKings, TakesKing, MoveMessage;
    } else {
      hide LocalInv, Shape, OnPlaying, OnNameKey, OnWaitingFrame, OnChoosingMouse, OnWaitChoosingFrame, MoveMessage;
    }
  }

  lemma ChosenQuiet(strict: bool, p: Core, q: Core, r: Core, f: seq<Byte>, from: Square, to: Square)
    requires Shape(p) && Shape(q) && Shape(r) && from.OnBoard() && to.OnBoard()
    requires Chosen(strict, p, q, f, [], from, to) && p.myTurn && p.state == Playing && Quiet(p, r)
    ensures Chosen(strict, r, q, f, [], from, to)
  {
    hide Shape, Ahead, MoveMessage;
  }

  /** White may move before Black knows the colours. */
  lemma ChosenMoves(strict: bool, p: Core, q: Core, r: Core, f: seq<Byte>, event: Event,
                    from: Square, to: Square, src: Square, dst: Square)
    requires Shape(p) && Shape(q) && Shape(r) && from.OnBoard() && to.OnBoard() && src.OnBoard() && dst.OnBoard()
    requires Chosen(strict, p, q, f, [], from, to) && p.myTurn && p.state == Playing && Drops(p, r, src, dst)
    requires Handle(p, event, 0).send == MoveMessage(src, dst) && (strict ==> !CornerDrop(p, event))
    requires BothKings(q.board) && !q.endGame
    ensures Chosen(strict, r, q, f + MoveMessage(src, dst), [], src, dst)
  {
    DropsControl(p, r, src, dst);
    if strict {
      DropLeadsAhead(p, r, q, event, src, dst);
    }
    hide Shape, Handle, Drops, Ahead, MoveMessage, CornerDrop, BothKings;
  }

  lemma FreshKings(c: Core)
    requires LocalInv(c) && !InGame(c.state)
    ensures c.board == InitBoard() && BothKings(c.board) && !c.myTurn && !c.endGame
  {
    assert InitBoard()[4] == Some(B_KING_ID) && InitBoard()[60] == Some(W_KING_ID);
  }

  /** The waiting peer reads the greeting, then its colour. */
  lemma ChosenFollows(strict: bool, p: Core, q: Core, f: seq<Byte>, event: Event, from: Square, to: Square)
    requires LocalInv(p) && Shape(q) && from.OnBoard() && to.OnBoard() && Chosen(strict, q, p, f, [], from, to)
    requires Reads(p, event)
    ensures var o := Handle(p, event, f[0]);
            && o.send == [] && !o.clear
            && (|| Chosen(strict, q, o.core, f[1..], [], from, to)
                || Transit(strict, q, o.core, f[1..], [], false, from, to)
                || Holder(strict, q, o.core, f[1..], [])
                || Holder(strict, o.core, q, [], f[1..]))
  {
    FreshKings(p);
    assert Shape(p);
    hide LocalInv, Handle, Chosen, Transit, Holder;
    if p.state == Waiting {
      GreetingRead(strict, p, q, f, event, from, to);
    } else {
      ColourRead(strict, p, q, f, event, from, to);
    }
  }

  lemma GreetingRead(strict: bool, p: Core, q: Core, f: seq<Byte>, event: Event, from: Square, to: Square)
    requires Shape(p) && Shape(q) && from.OnBoard() && to.OnBoard() && Chosen(strict, q, p, f, [], from, to)
    requires p.state == Waiting && Reads(p, event)
    ensures var o := Handle(p, event, f[0]);
            o.send == [] && !o.clear && Chosen(strict, q, o.core, f[1..], [], from, to)
  {
    hide Shape, Movable, MoveCells, BothKings, TakesKing, MoveMessage, OnPlaying, OnWaitChoosingFrame, OnNameKey, OnChoosingMouse;
    var c := if q.player == Black then WHITE_BYTE else BLACK_BYTE;
    if q.player == White && !q.myTurn {
      assert f == [RECEIVE_VM_CONNECTED] + ([c] + MoveMessage(from, to));
      assert f[1..] == [] + [c] + MoveMessage(from, to);
    } else {
      assert f[1..] == [] + [c];
    }
  }

  lemma ColourRead(strict: bool, p: Core, q: Core, f: seq<Byte>, event: Event, from: Square, to: Square)
    requires Shape(p) && Shape(q) && from.OnBoard() && to.OnBoard() && Chosen(strict, q, p, f, [], from, to)
    requires p.state != Waiting && Reads(p, event) && BothKings(p.board) && !p.endGame
    ensures var o := Handle(p, event, f[0]);
            && o.send == [] && !o.clear
            && (|| Transit(strict, q, o.core, f[1..], [], false, from, to)
                || Holder(strict, q, o.core, f[1..], [])
                || Holder(strict, o.core, q, [], f[1..]))
  {
    hide Shape, OnPlaying, OnNameKey, OnChoosingMouse, OnWaitingFrame, BothKings, MoveMessage, Movable, MoveCells, TakesKing, Rest;
    if q.player == White && !q.myTurn {
      assert f[1..] == MoveMessage(from, to);
      WholeMessage(from, to);
    } else {
      assert f[1..] == [];
    }
  }

  ghost predicate Setup(p: Core, q: Core, f: seq<Byte>, g: seq<Byte>) {
    Idle(p, q, f, g) || OneWaiting(p, q, f, g) || BothWaiting(p, q, f, g) || Choosing(p, q, f, g)
  }

  /** An event of the leading peer before a colour is chosen. */
  lemma SetupLeads(strict: bool, p: Core, q: Core, f: seq<Byte>, g: seq<Byte>, g': seq<Byte>, event: Event, byte: Byte)
    requires LocalInv(p) && LocalInv(q) && Setup(p, q, f, g) && Reading(p, event, byte, g, g')
    ensures var o := Handle(p, event, byte);
            && (o.clear ==> p.state == Start && q.state == Start)
            && (Setup(o.core, q, f + o.send, g') || Chosen(strict, o.core, q, f + o.send, g', Square(0, 0), Square(0, 0)))
  {
    assert Shape(p) && Shape(q);
    if p.state == ChoosingPlayer {
      FreshKings(p);
      FreshKings(q);
      FreshMoves(p);
      FreshMoves(q);
      hide LocalInv, Shape, Handle;
      ChooserLeads(strict, p, q, f, g, g', event, byte);
    } else {
      hide LocalInv, Shape;
      OpenerLeads(p, q, f, g, g', event, byte);
    }
  }

  lemma FreshMoves(c: Core)
    requires LocalInv(c) && !InGame(c.state)
    ensures c.moves == 0
  {
  }

  /** The chooser waits or picks a colour. */
  lemma ChooserLeads(strict: bool, p: Core, q: Core, f: seq<Byte>, g: seq<Byte>, g': seq<Byte>, event: Event, byte: Byte)
    requires Shape(p) && Shape(q) && p.state == ChoosingPlayer && Setup(p, q, f, g) && Reading(p, event, byte, g, g')
    requires p.board == q.board && BothKings(p.board) && !p.endGame && p.moves == 0 && q.moves == 0
    ensures var o := Handle(p, event, byte);
            !o.clear &&
            (Setup(o.core, q, f + o.send, g') || Chosen(strict, o.core, q, f + o.send, g', Square(0, 0), Square(0, 0)))
  {
    assert f + [] == f;
    hide Shape, OnPlaying, BothKings, Idle, OneWaiting, BothWaiting;
  }

  /** Before that, the leader connects or answers the other's greeting. */
  lemma OpenerLeads(p: Core, q: Core, f: seq<Byte>, g: seq<Byte>, g': seq<Byte>, event: Event, byte: Byte)
    requires Shape(p) && p.state != ChoosingPlayer && Setup(p, q, f, g) && Reading(p, event, byte, g, g')
    ensures var o := Handle(p, event, byte);
            (o.clear ==> p.state == Start && q.state == Start) && Setup(o.core, q, f + o.send, g')
  {
    assert f + [] == f;
    hide Shape, OnPlaying, OnChoosingMouse, OnWaitChoosingFrame;
  }

  /** An event of the other peer before a colour is chosen; a handshake that
      does not cross leaves nothing under way to it when it connects. */
  lemma SetupFollows(p: Core, q: Core, f: seq<Byte>, g: seq<Byte>, g': seq<Byte>, event: Event, byte: Byte)
    requires LocalInv(p) && LocalInv(q) && Setup(q, p, g, f) && Reading(p, event, byte, g, g')
    ensures var o := Handle(p, event, byte);
            var left := if o.clear then [] else g';
            Setup(q, o.core, left, f + o.send) || Setup(o.core, q, f + o.send, left)
  {
    assert Shape(p);
    hide LocalInv, Shape;
    if p.state == Start {
      StartFollows(p, q, f, g, g', event, byte);
    } else {
      WaitingFollows(p, q, f, g, g', event, byte);
    }
  }

  lemma StartFollows(p: Core, q: Core, f: seq<Byte>, g: seq<Byte>, g': seq<Byte>, event: Event, byte: Byte)
    requires Shape(p) && p.state == Start && Setup(q, p, g, f) && Reading(p, event, byte, g, g')
    ensures var o := Handle(p, event, byte);
            var left := if o.clear then [] else g';
            Setup(q, o.core, left, f + o.send) || Setup(o.core, q, f + o.send, left)
  {
    assert f + [] == f;
    hide Shape, OnPlaying, OnWaitingFrame, OnChoosingMouse, OnWaitChoosingFrame;
  }

  lemma WaitingFollows(p: Core, q: Core, f: seq<Byte>, g: seq<Byte>, g': seq<Byte>, event: Event, byte: Byte)
    requires Shape(p) && p.state != Start && Setup(q, p, g, f) && Reading(p, event, byte, g, g')
    ensures var o := Handle(p, event, byte);
            var left := if o.clear then [] else g';
            Setup(q, o.core, left, f + o.send) || Setup(o.core, q, f + o.send, left)
  {
    assert f + [] == f;
    hide Shape, OnPlaying, OnNameKey, OnChoosingMouse;
  }

  /** Being in one of the phases, whoever leads. */
  lemma InPhase(strict: bool, p: Core, q: Core, f: seq<Byte>, g: seq<Byte>, pClosed: bool, qClosed: bool, from: Square, to: Square)
    requires Shape(p) && Shape(q) && from.OnBoard() && to.OnBoard()
    requires Setup(p, q, f, g) || Holder(strict, p, q, f, g) || Chosen(strict, p, q, f, g, from, to) ||
             Transit(strict, p, q, f, g, qClosed, from, to)
    ensures Phases(strict, p, q, f, g, pClosed, qClosed)
    ensures Phases(strict, q, p, g, f, qClosed, pClosed)
  {
    hide Shape, Holder, Chosen, Transit, Idle, OneWaiting, BothWaiting, Choosing;
    assert Chosen(strict, p, q, f, g, from, to) ==> ChosenPhase(strict, p, q, f, g);
    assert Transit(strict, p, q, f, g, qClosed, from, to) ==> TransitPhase(strict, p, q, f, g, qClosed);
  }

  /** The squares of the move under way in a phase, if there is one. */
  lemma PhaseSquares(strict: bool, p: Core, q: Core, f: seq<Byte>, g: seq<Byte>, qClosed: bool)
    returns (from: Square, to: Square)
    requires Shape(p) && Shape(q) && Phase(strict, p, q, f, g, qClosed)
    ensures from.OnBoard() && to.OnBoard()
    ensures Setup(p, q, f, g) || Holder(strict, p, q, f, g) || Chosen(strict, p, q, f, g, from, to) ||
            Transit(strict, p, q, f, g, qClosed, from, to)
  {
    hide Shape, Holder, Chosen, Transit, Idle, OneWaiting, BothWaiting, Choosing;
    from, to := Square(0, 0), Square(0, 0);
    if ChosenPhase(strict, p, q, f, g) {
      from, to :| from.OnBoard() && to.OnBoard() && Chosen(strict, p, q, f, g, from, to);
    } else if TransitPhase(strict, p, q, f, g, qClosed) {
      from, to :| from.OnBoard() && to.OnBoard() && Transit(strict, p, q, f, g, qClosed, from, to);
    }
  }

  lemma LeadsPhase(strict: bool, p: Core, q: Core, f: seq<Byte>, g: seq<Byte>, g': seq<Byte>,
                   event: Event, byte: Byte, pClosed: bool, qClosed: bool)
    requires LocalInv(p) && LocalInv(q) && Phase(strict, p, q, f, g, qClosed) && Reading(p, event, byte, g, g')
    requires qClosed ==> q.state == Exit
    requires strict ==> !CornerDrop(p, event)
    ensures var o := Handle(p, event, byte);
            && (o.clear ==> p.state == Start && q.state == Start)
            && Phases(strict, o.core, q, f + o.send, g', pClosed, qClosed)
  {
    assert Shape(p) && Shape(q);
    hide LocalInv, Shape, Handle, Chosen, Transit, Holder, Setup, Phase, Phases, CornerDrop;
    var o := Handle(p, event, byte);
    var from, to := PhaseSquares(strict, p, q, f, g, qClosed);
    if Setup(p, q, f, g) {
      SetupLeads(strict, p, q, f, g, g', event, byte);
      from, to := Square(0, 0), Square(0, 0);
    } else {
      LeadsReadNothing(strict, p, q, f, g, qClosed, from, to);
      assert byte == 0 && g' == [];
      if Holder(strict, p, q, f, g) {
        from, to := HolderLeads(strict, p, q, event, qClosed);
        assert f + o.send == o.send;
      } else if Chosen(strict, p, q, f, g, from, to) {
        from, to := ChosenLeads(strict, p, q, f, event, from, to);
      } else {
        TransitLeads(strict, p, q, f, event, qClosed, from, to);
        assert f + o.send == f;
      }
    }
    InPhase(strict, o.core, q, f + o.send, g', pClosed, qClosed, from, to);
  }

  /** Once a colour is chosen, nothing is under way to the leading peer. */
  lemma LeadsReadNothing(strict: bool, p: Core, q: Core, f: seq<Byte>, g: seq<Byte>, qClosed: bool, from: Square, to: Square)
    requires Shape(p) && Shape(q) && from.OnBoard() && to.OnBoard()
    requires Holder(strict, p, q, f, g) || Chosen(strict, p, q, f, g, from, to) || Transit(strict, p, q, f, g, qClosed, from, to)
    ensures g == []
    ensures Holder(strict, p, q, f, g) ==> f == []
  {
  }

  /** With nothing to read, the receiving peer stays where it is. */
  lemma TransitWaits(strict: bool, p: Core, q: Core, f: seq<Byte>, event: Event, pClosed: bool, from: Square, to: Square)
    requires LocalInv(p) && Shape(q) && from.OnBoard() && to.OnBoard()
    requires Transit(strict, q, p, f, [], pClosed, from, to)
    ensures var o := Handle(p, event, 0);
            o.send == [] && !o.clear && Transit(strict, q, o.core, f, [], pClosed, from, to)
  {
    Idles(p, event);
    assert Shape(p);
    hide LocalInv, Shape, Handle, Movable, MoveCells, TakesKing, BothKings;
  }

  lemma ChosenWaits(strict: bool, p: Core, q: Core, f: seq<Byte>, event: Event, from: Square, to: Square)
    requires LocalInv(p) && Shape(q) && from.OnBoard() && to.OnBoard() && Chosen(strict, q, p, f, [], from, to)
    ensures Handle(p, event, 0) == Outcome(p, [], false)
  {
  }

  /** An event of the peer that does not lead. */
  lemma FollowsPhase(strict: bool, p: Core, q: Core, f: seq<Byte>, g: seq<Byte>, g': seq<Byte>,
                     event: Event, byte: Byte, pClosed: bool, qClosed: bool)
    requires LocalInv(p) && LocalInv(q) && Phase(strict, q, p, g, f, pClosed) && Reading(p, event, byte, g, g')
    requires pClosed ==> p.state == Exit
    ensures var o := Handle(p, event, byte);
            Phases(strict, o.core, q, f + o.send, if o.clear then [] else g', pClosed, qClosed)
  {
    assert Shape(p) && Shape(q);
    hide LocalInv, Shape, Handle, Chosen, Transit, Holder, Setup, Phase, Phases;
    var o := Handle(p, event, byte);
    var from, to := PhaseSquares(strict, q, p, g, f, pClosed);
    if Setup(q, p, g, f) {
      var left := if o.clear then [] else g';
      SetupFollows(p, q, f, g, g', event, byte);
      if Setup(q, o.core, left, f + o.send) {
        InPhase(strict, q, o.core, left, f + o.send, qClosed, pClosed, from, to);
      } else {
        InPhase(strict, o.core, q, f + o.send, left, pClosed, qClosed, from, to);
      }
    } else {
      LeadsReadNothing(strict, q, p, g, f, pClosed, from, to);
      assert f + [] == [];
      PlayerFollows(strict, p, q, g, g', event, byte, pClosed, qClosed, from, to);
    }
  }

  /** The same once a colour is chosen. */
  lemma PlayerFollows(strict: bool, p: Core, q: Core, g: seq<Byte>, g': seq<Byte>, event: Event, byte: Byte,
                      pClosed: bool, qClosed: bool, from: Square, to: Square)
    requires LocalInv(p) && Shape(q) && from.OnBoard() && to.OnBoard() && Reading(p, event, byte, g, g')
    requires pClosed ==> p.state == Exit
    requires Holder(strict, q, p, g, []) || Chosen(strict, q, p, g, [], from, to) || Transit(strict, q, p, g, [], pClosed, from, to)
    ensures var o := Handle(p, event, byte);
            o.send == [] && !o.clear && Phases(strict, o.core, q, [], g', pClosed, qClosed)
  {
    assert Shape(p);
    hide LocalInv, Shape, Handle, Chosen, Transit, Holder, Phase, Phases, Setup;
    var o := Handle(p, event, byte);
    LeadsReadNothing(strict, q, p, g, [], pClosed, from, to);
    if Holder(strict, q, p, g, []) {
      HolderFollows(strict, p, q, event);
    } else if byte == 0 && g' == g {
      if Chosen(strict, q, p, g, [], from, to) {
        ChosenWaits(strict, p, q, g, event, from, to);
      } else {
        TransitWaits(strict, p, q, g, event, pClosed, from, to);
      }
    } else {
      FollowerOpen(strict, p, q, g, pClosed, from, to);
      if Chosen(strict, q, p, g, [], from, to) {
        ChosenFollows(strict, p, q, g, event, from, to);
      } else {
        TransitFollows(strict, p, q, g, event, from, to);
      }
    }
    if Holder(strict, o.core, q, [], g') {
      InPhase(strict, o.core, q, [], g', pClosed, qClosed, from, to);
    } else {
      InPhase(strict, q, o.core, g', [], qClosed, pClosed, from, to);
    }
  }

  /** A follower that still reads has not left the game. */
  lemma FollowerOpen(strict: bool, p: Core, q: Core, f: seq<Byte>, pClosed: bool, from: Square, to: Square)
    requires Shape(p) && Shape(q) && from.OnBoard() && to.OnBoard()
    requires pClosed ==> p.state == Exit
    requires Chosen(strict, q, p, f, [], from, to) || Transit(strict, q, p, f, [], pClosed, from, to)
    ensures Chosen(strict, q, p, f, [], from, to) ==> !pClosed && f != []
    ensures p.state != Exit ==> !pClosed
    ensures InGame(p.state) || Chosen(strict, q, p, f, [], from, to)
  {
  }
}
