/** Games in which no handshakes cross, and what becomes of them. White's knight
    takes the rook on square (0, 0), and the boards part, a player loses a piece
    to its own side, or the receiver dies; a king is taken unseen, and both
    players win; a king is taken, and one does; a pawn makes two double steps;
    a pawn may not take the king. */
module Games {
  import opened Common
  import opened Codec
  import opened Chess
  import opened Geometry
  import opened Game
  import opened GameInvariants
  import opened Network
  import opened NetworkInvariant
  import opened Theorems
  import opened MoveRuns
  import opened Witness

  // ---------------------------------------------------------------------
  // An uncrossed handshake

  /** The states and queues of the two peers, and the wires. */
  predicate At(n: Net, c: Core, tx: seq<Byte>, rx: seq<Byte>, d: Core, ty: seq<Byte>, ry: seq<Byte>,
               out: seq<Byte>, inn: seq<Byte>) {
    && n.me.core == c && n.me.tx == tx && n.me.rx == rx && n.you.core == d && n.you.tx == ty && n.you.rx == ry
    && n.out == out && n.inn == inn
  }

  /** One more step of a run in which nothing crosses and no corner is touched. */
  lemma Go(strict: bool, s: Schedule, n: Net, first: bool, a: Action) returns (t: Schedule, m: Net)
    requires NetShape(n) && Reached(strict, s, n)
    requires var v := if first then n else Swap(n); !Crossing(v, a) && !CornerMove(v, a)
    ensures NetShape(m) && m == Step(n, first, a) && Reached(strict, t, m)
  {
    hide Step, Crossing, CornerMove, Reached;
    m := Step(n, first, a);
    t := Continue(strict, s, n, [(first, a)]);
    assert [(first, a)][1..] == [];
    RunOne(n, first, a);
  }

  function AsBlack(): Core { In(Playing).(player := Black, myTurn := false) }

  lemma EarlySends(c: Core, event: Event)
    requires Shape(c) && c.state != Playing
    ensures |Handle(c, event, 0).send| <= 1
  {
  }

  /** A letter, ENTER, and the greeting is on the wire. */
  lemma FirstConnects() returns (s: Schedule, n: Net)
    ensures NetShape(n) && Reached(true, s, n) && At(n, In(Waiting), [], [], In(Start), [], [], [VM_CONNECTED], [])
  {
    hide InitBoard, InitPieces, Shape, OnPlaying, Reached;
    InitShape();
    s, n := [], InitNet();
    assert Reached(true, s, n) by { Nothing(); }
    s, n := Go(true, s, n, true, Input(Keyboard(0x9e), 0));
    s, n := Go(true, s, n, false, Input(Keyboard(0x9e), 0));
    assert At(n, In(Start), [], [], In(Start), [], [], [], []);
    s, n := Go(true, s, n, true, Input(CONNECT, 0));
    assert EnqueueAll([], [VM_CONNECTED]) == [VM_CONNECTED];
    s, n := Go(true, s, n, true, Write);
  }

  lemma Nothing()
    ensures Reached(true, [], InitNet())
  {
    InitShape();
  }

  /** The other peer connects after that greeting has arrived and been thrown
      away; its own is answered. */
  lemma SecondConnects() returns (s: Schedule, n: Net)
    ensures NetShape(n) && Reached(true, s, n)
    ensures At(n, In(ChoosingPlayer), [RECEIVE_VM_CONNECTED], [], In(Waiting), [], [], [], [])
  {
    hide InitBoard, InitPieces, Shape, OnPlaying, Reached;
    s, n := FirstConnects();
    s, n := Go(true, s, n, false, Input(CONNECT, 1));
    assert EnqueueAll([], [VM_CONNECTED]) == [VM_CONNECTED];
    assert At(n, In(Waiting), [], [], In(Waiting), [VM_CONNECTED], [], [], []);
    s, n := Go(true, s, n, false, Write);
    s, n := Go(true, s, n, true, Read);
    assert At(n, In(Waiting), [], [VM_CONNECTED], In(Waiting), [], [], [], []);
    Answers();
    hide Handle, In;
    s, n := Go(true, s, n, true, Input(NewFrame, 0));
  }

  lemma Waits()
    ensures Handle(In(Waiting), NewFrame, RECEIVE_VM_CONNECTED) == Outcome(In(WaitChoosingPlayer), [], false)
    ensures Reads(In(Waiting), NewFrame) && In(Waiting).state == Waiting
  {
    hide InitCore;
  }

  lemma TakesBlack()
    ensures Handle(In(WaitChoosingPlayer), NewFrame, BLACK_BYTE) == Outcome(AsBlack(), [], false)
    ensures Reads(In(WaitChoosingPlayer), NewFrame) && In(WaitChoosingPlayer).state == WaitChoosingPlayer
  {
    hide InitCore;
  }

  lemma WhiteAndBlack()
    ensures AtRest(AsWhite()) && AsWhite().myTurn && AsWhite().player == White && AsWhite().animation
    ensures AtRest(AsBlack()) && !AsBlack().myTurn && AsBlack().player == Black
    ensures AsWhite().board == AsBlack().board == InitBoard() && AsWhite().pieces == AsBlack().pieces == InitPieces()
  {
    hide InitCore, InitBoard, InitPieces;
    WhiteReady();
    assert AsBlack() == AsWhite().(player := Black, myTurn := false);
  }

  lemma PicksFirst()
    ensures Handle(In(ChoosingPlayer), PICK_WHITE, 0) == Outcome(AsWhite(), [BLACK_BYTE], false)
    ensures In(ChoosingPlayer).state == ChoosingPlayer
    ensures EnqueueAll([], [BLACK_BYTE]) == [BLACK_BYTE]
  {
    hide InitCore;
  }

  lemma Greeted() returns (s: Schedule, n: Net)
    ensures NetShape(n) && Reached(true, s, n)
    ensures At(n, In(ChoosingPlayer), [], [], In(WaitChoosingPlayer), [], [], [], [])
  {
    hide In, Handle, Shape, Reached;
    s, n := SecondConnects();
    Waits();
    PicksFirst();
    s, n := Go(true, s, n, true, Write);
    s, n := Go(true, s, n, false, Read);
    EarlySends(In(Waiting), NewFrame);
    s, n := Go(true, s, n, false, Input(NewFrame, 0));
  }

  /** White picks its colour, and the game begins. */
  lemma GameBegins() returns (s: Schedule, n: Net)
    ensures NetShape(n) && Reached(true, s, n)
    ensures At(n, AsWhite(), [], [], AsBlack(), [], [], [], [])
  {
    hide In, AsWhite, AsBlack, Handle, Shape, Reached;
    s, n := Greeted();
    PicksFirst();
    s, n := Go(true, s, n, true, Input(PICK_WHITE, 0));
    WhiteAndBlack();
    TakesBlack();
    s, n := Go(true, s, n, true, Write);
    EarlySends(In(WaitChoosingPlayer), NewFrame);
    s, n := Go(true, s, n, false, Input(NewFrame, 1));
  }

  // ---------------------------------------------------------------------
  // Moves of knights, kings and pawns

  predicate KindsKnown(c: Core) { |c.pieces| == PIECES && forall k :: 0 <= k < PIECES ==> c.pieces[k].kind == KindOf(k) }

  /** Between two moves: the player to move comes first. */
  predicate Standing(n: Net, white: bool) {
    && NetShape(n) && Table(n) && KindsKnown(n.me.core) && KindsKnown(n.you.core)
    && n.me.core.myTurn && !n.you.core.myTurn
    && n.me.core.player == (if white then White else Black) && n.you.core.player == (if white then Black else White)
  }

  /** How knights, kings and pawns go, but for the double step. */
  predicate Goes(kind: Kind, from: Square, to: Square, taking: bool) {
    if kind == W_KNIGHT || kind == B_KNIGHT then KnightStep(from, to)
    else if IsKing(kind) then KingStep(from, to)
    else
      && IsPawn(kind) && to.row == from.row + (if kind == B_PAWN then 1 else -1)
      && (if taking then Abs(to.col - from.col) == 1 else to.col == from.col)
  }

  predicate King(cell: Option<nat>) { cell.Some? && cell.value < PIECES && IsKing(KindOf(cell.value)) }

  /** The piece on a cell, if any, is not of the given team. */
  predicate Free(cell: Option<nat>, white: bool) { cell.Some? ==> cell.value < PIECES && IsWhite(KindOf(cell.value)) != white }

  /** The player to move, whose board is b, may make the move. */
  predicate Can(b: seq<Option<nat>>, id: nat, kind: Kind, from: Square, to: Square) {
    && |b| == 64 && from.OnBoard() && to.OnBoard() && id < PIECES && KindOf(id) == kind && b[from.Index()] == Some(id)
    && Free(b[to.Index()], IsWhite(kind)) && (IsPawn(kind) ==> !King(b[to.Index()]))
    && Goes(kind, from, to, b[to.Index()].Some?)
  }

  /** The other player, whose board is b, can follow it. */
  predicate Bears(b: seq<Option<nat>>, from: Square, to: Square)
    requires |b| == 64 && from.OnBoard() && to.OnBoard()
  {
    IsCorner(from) || IsCorner(to) || (b[from.Index()].Some? && !King(b[to.Index()]))
  }

  lemma CanPlay(c: Core, id: nat, kind: Kind, from: Square, to: Square)
    requires Shape(c) && KindsKnown(c) && c.myTurn && c.player == (if IsWhite(kind) then White else Black)
    requires Can(c.board, id, kind, from, to)
    ensures from != to && MayPlay(c, from, to) && (King(c.board[to.Index()]) <==> !NoKing(c, to))
  {
    var p := c.pieces[id];
    PaintedIff(Kinds(c), kind, p.pawnMoved, from, to);
    hide Painted, KindOf;
  }

  lemma CanBear(c: Core, from: Square, to: Square)
    requires Shape(c) && KindsKnown(c) && from.OnBoard() && to.OnBoard() && Bears(c.board, from, to)
    ensures Carries(c, from, to)
  {
    hide KindOf, IsCorner;
  }

  /** A move as a run, seen from the other side when it is done. A player who
      has taken the king is no longer at rest. */
  lemma Play(strict: bool, s: Schedule, n: Net, id: nat, kind: Kind, from: Square, to: Square) returns (t: Schedule, m: Net)
    requires Standing(n, IsWhite(kind)) && Reached(strict, s, n)
    requires Can(n.me.core.board, id, kind, from, to) && |n.you.core.board| == 64 && Bears(n.you.core.board, from, to)
    requires strict ==> !IsCorner(from) && !IsCorner(to)
    ensures NetShape(m) && Reached(strict, t, m)
    ensures m.you.core.board == DropCells(n.me.core.board, id, from, to)
    ensures m.me.core.board == if IsCorner(from) || IsCorner(to) then n.you.core.board else MoveCells(n.you.core.board, from, to)
    ensures n.me.core.board == n.you.core.board && !IsCorner(from) && !IsCorner(to) ==> m.me.core.board == m.you.core.board
    ensures if King(n.me.core.board[to.Index()]) then Won(m, !IsWhite(kind)) else Standing(m, !IsWhite(kind))
  {
    hide Shape, MayPlay, NoKing, Carries, AtRest, IsCorner, DropCells, MoveCells, Reached, KindOf, Goes, King, Free;
    CanPlay(n.me.core, id, kind, from, to);
    CanBear(n.you.core, from, to);
    SameCells(n.me.core.board, id, from, to);
    t, m := PlayMove(strict, s, n, from, to);
  }

  lemma SameCells(b: seq<Option<nat>>, id: nat, from: Square, to: Square)
    requires |b| == 64 && from.OnBoard() && to.OnBoard() && from != to && b[from.Index()] == Some(id)
    ensures DropCells(b, id, from, to) == MoveCells(b, from, to)
  {
    assert from.Index() != to.Index();
  }

  /** The other player has just taken the king, and me does not know it. */
  predicate Won(n: Net, white: bool) {
    && NetShape(n) && AtRest(n.me.core) && NothingUnderWay(n) && KindsKnown(n.me.core)
    && n.me.core.myTurn && n.me.core.player == (if white then White else Black)
    && n.you.core.state == Playing && n.you.core.endGame
  }

  lemma TheStart() returns (s: Schedule, n: Net)
    ensures Standing(n, true) && Reached(true, s, n)
    ensures n.me.core.board == n.you.core.board == InitBoard()
  {
    hide AsWhite, AsBlack, Shape, Reached, InitPieces, InitBoard, AtRest;
    s, n := GameBegins();
    WhiteAndBlack();
    InitKinds();
  }

  lemma InitKinds()
    ensures forall k :: 0 <= k < PIECES ==> InitPieces()[k].kind == KindOf(k)
  {
  }

  /** The pieces of the games below. */
  lemma Roster()
    ensures KindOf(17) == KindOf(22) == W_KNIGHT && KindOf(1) == KindOf(6) == B_KNIGHT
    ensures KindOf(28) == W_PAWN && KindOf(10) == KindOf(11) == KindOf(13) == B_PAWN
    ensures KindOf(0) == B_ROOK && KindOf(4) == B_KING && KindOf(20) == W_KING
  {
  }

  /** Where they start, and squares on their way. */
  lemma Squares()
    ensures var b := InitBoard();
            && b[0] == Some(0) && b[1] == Some(1) && b[4] == Some(4) && b[6] == Some(6)
            && b[10] == Some(10) && b[11] == Some(11) && b[13] == Some(13)
            && b[52] == Some(28) && b[57] == Some(17) && b[60] == Some(20) && b[62] == Some(22)
            && b[17] == b[18] == b[19] == b[20] == b[21] == b[25] == b[27] == b[28] == b[35] == b[36] == None
            && b[42] == b[44] == b[45] == b[47] == None
  {
  }

  // ---------------------------------------------------------------------
  // The games

  const HOME := Square(6, 0)
  const OUT := Square(5, 2)
  const KING := Square(4, 0)

  /** What matters of the rest of the board. */
  predicate Aside(b: seq<Option<nat>>) {
    && |b| == 64 && b[6] == None && b[21] == Some(6) && b[62] == Some(22) && b[4] == Some(4)
    && b[17] == b[25] == b[27] == b[35] == b[45] == None
  }

  /** White's knight sets out while Black's goes to and fro. */
  lemma KnightStarts() returns (s: Schedule, n: Net)
    ensures Standing(n, true) && Reached(true, s, n)
    ensures var b, o := n.me.core.board, n.you.core.board;
            && b == o && |b| == 64 && b[25] == Some(17) && b[10] == Some(10) && b[0] == Some(0) && b[4] == Some(4)
            && b[6] == Some(6) && b[21] == None && b[62] == Some(22) && b[17] == b[27] == b[35] == b[45] == None
  {
    hide Standing, Reached, KindOf, InitBoard, MoveCells;
    Roster();
    Squares();
    s, n := TheStart();
    s, n := Play(true, s, n, 17, W_KNIGHT, Square(1, 7), Square(2, 5));
    s, n := Play(true, s, n, 6, B_KNIGHT, HOME, OUT);
    s, n := Play(true, s, n, 17, W_KNIGHT, Square(2, 5), Square(1, 3));
    s, n := Play(true, s, n, 6, B_KNIGHT, OUT, HOME);
  }

  /** It takes the pawn on (2, 1). */
  lemma KnightComes() returns (s: Schedule, n: Net)
    ensures Standing(n, true) && Reached(true, s, n)
    ensures var b, o := n.me.core.board, n.you.core.board;
            b == o && b[10] == Some(17) && b[0] == Some(0) && Aside(b)
  {
    hide Standing, Reached, KindOf, MoveCells;
    Roster();
    s, n := KnightStarts();
    s, n := Play(true, s, n, 17, W_KNIGHT, Square(1, 3), Square(2, 1));
    s, n := Play(true, s, n, 6, B_KNIGHT, HOME, OUT);
  }

  /** It goes on to take the rook on (0, 0), and the two boards part: White's
      knight stands on (0, 0) for White and still on (2, 1) for Black. */
  lemma TakesTheRook() returns (s: Schedule, n: Net)
    ensures Standing(n, false) && Reached(false, s, n)
    ensures var b, o := n.me.core.board, n.you.core.board;
            b[10] == Some(17) && b[0] == Some(0) && o[10] == None && o[0] == Some(17) && Aside(b) && Aside(o)
  {
    hide Standing, Reached, KindOf;
    Roster();
    s, n := KnightComes();
    ReachedStrict(s, n);
    s, n := Play(false, s, n, 17, W_KNIGHT, Square(2, 1), Square(0, 0));
  }

  /** So agreement fails in an uncrossed run: both peers are in the game and
      nothing is under way, and the boards differ. */
  lemma CornerDivides() returns (s: Schedule, n: Net)
    ensures NetShape(n) && Reached(false, s, n) && NothingUnderWay(n)
    ensures n.me.core.state == n.you.core.state == Playing && n.me.core.board != n.you.core.board
  {
    hide Reached;
    s, n := TakesTheRook();
  }

  /** A move as far as the receiver's fate: its last square has been read. */
  lemma UpToFate(strict: bool, s: Schedule, n: Net, id: nat, kind: Kind, from: Square, to: Square) returns (t: Schedule, m: Net)
    requires Standing(n, IsWhite(kind)) && Reached(strict, s, n)
    requires Can(n.me.core.board, id, kind, from, to)
    requires strict ==> !IsCorner(from) && !IsCorner(to)
    ensures NetShape(m) && Reached(strict, t, m) && m.you.core.state == Fate(n.you.core, from, to)
    ensures m.me.core.state == Playing && m.me.core.endGame == King(n.me.core.board[to.Index()]) && m.me.rx == []
    ensures !m.me.core.myTurn && !m.you.core.myTurn
  {
    hide Reached, Shape, KindOf, Kinds, Accepts, Absorb, Alive, Fate, IsCorner, Arrived, Delivery, MoveMessage, Run, DropCells, King, NoKing, Goes, Free;
    CanPlay(n.me.core, id, kind, from, to);
    var d := n.you.core;
    var n1 := DragRun(strict, n, from, to);
    t := Continue(strict, s, n, [(true, Input(PressAt(from), 0)), (true, Input(DropAt(to), 0))]);
    ThreeBytes(d, from, to);
    MessageEnd(from, to);
    var f := MoveMessage(from, to)[..3];
    assert [] + MoveMessage(from, to) == MoveMessage(from, to);
    Deliver(strict, n1, f);
    t := Continue(strict, t, n1, Delivery(3));
    m := Run(n1, Delivery(3));
    SwitchAlike(Absorb(d, f), m.you.core, !d.animation);
    MovedFields(n.me.core, m.me.core, from, to);
  }

  lemma MovedFields(c: Core, r: Core, from: Square, to: Square)
    requires AtRest(c) && from.OnBoard() && to.OnBoard() && c.board[from.Index()].Some?
    requires r == Moved(c, from, to).(pieces := r.pieces)
    ensures r.state == Playing && r.endGame == !NoKing(c, to) && !r.myTurn
  {
  }

  /** The knight on (0, 0) comes back to (1, 2), for White alone. */
  lemma KnightReturns() returns (s: Schedule, n: Net)
    ensures Standing(n, true) && Reached(false, s, n)
    ensures var b, o := n.me.core.board, n.you.core.board;
            |b| == |o| == 64 && b[17] == Some(17) && b[27] == None && o[17] == None
  {
    hide Standing, Reached, KindOf;
    Roster();
    s, n := TakesTheRook();
    s, n := Play(false, s, n, 6, B_KNIGHT, OUT, HOME);
    s, n := Play(false, s, n, 17, W_KNIGHT, Square(0, 0), Square(1, 2));
    s, n := Play(false, s, n, 6, B_KNIGHT, HOME, OUT);
  }

  /** Its next move starts from a square that is empty for Black: Black's
      program dereferences a null piece, and nobody has the turn again. */
  lemma ReceiverDies() returns (s: Schedule, n: Net)
    ensures NetShape(n) && Reached(false, s, n) && n.you.core.state == Crashed
    ensures !n.me.core.myTurn && !n.you.core.myTurn
  {
    hide Reached, KindOf, Shape, AtRest, KindsKnown;
    Roster();
    s, n := KnightReturns();
    DiesFrom(n.you.core, Square(1, 2), Square(3, 3));
    s, n := UpToFate(false, s, n, 17, W_KNIGHT, Square(1, 2), Square(3, 3));
  }

  lemma DiesFrom(c: Core, from: Square, to: Square)
    requires Shape(c) && from.OnBoard() && to.OnBoard() && !IsCorner(from) && !IsCorner(to) && c.board[from.Index()] == None
    ensures Fate(c, from, to) == Crashed
  {
  }

  lemma EndsFrom(c: Core, from: Square, to: Square)
    requires Shape(c) && KindsKnown(c) && from.OnBoard() && to.OnBoard() && !IsCorner(from) && !IsCorner(to)
    requires c.board[from.Index()].Some? && King(c.board[to.Index()])
    ensures Fate(c, from, to) == Exit
  {
    hide KindOf;
  }

  // ---------------------------------------------------------------------
  // A game to its end

  /** A player who has taken the king leaves on the next frame. */
  lemma Leaves(n: Net)
    requires NetShape(n) && n.me.core.state == Playing && n.me.core.endGame && n.me.rx == []
    ensures !Crossing(n, Input(NewFrame, 0)) && !CornerMove(n, Input(NewFrame, 0))
    ensures var m := Step(n, true, Input(NewFrame, 0));
            && m.me.core.state == Exit && m.me.core.won && m.you == n.you && m.me.rx == [] && m.me.tx == n.me.tx
            && m.out == n.out && m.inn == n.inn
  {
    hide Shape;
  }

  /** The knight takes the king, both peers leave, and one has won. */
  lemma KingTaken() returns (s: Schedule, n: Net)
    ensures NetShape(n) && Reached(true, s, n)
    ensures n.me.core.state == n.you.core.state == Exit && n.me.core.won && !n.you.core.won
  {
    hide Reached, KindOf, Crossing, CornerMove, Step, Shape, AtRest, KindsKnown;
    Roster();
    s, n := KnightComes();
    EndsFrom(n.you.core, Square(2, 1), KING);
    s, n := UpToFate(true, s, n, 17, W_KNIGHT, Square(2, 1), KING);
    Leaves(n);
    s, n := Go(true, s, n, true, Input(NewFrame, 0));
    WinnerAgreement(s, n);
  }

  // ---------------------------------------------------------------------
  // A piece of one's own

  /** White's other knight follows to (1, 3). */
  lemma OtherKnightStarts() returns (s: Schedule, n: Net)
    ensures Standing(n, true) && Reached(false, s, n)
    ensures var b, o := n.me.core.board, n.you.core.board;
            && |b| == |o| == 64 && b[45] == o[45] == Some(22) && b[21] == o[21] == Some(6) && b[6] == o[6] == None
            && b[25] == o[25] == b[35] == o[35] == b[10] == None && o[10] == Some(17)
  {
    hide Standing, Reached, KindOf;
    Roster();
    s, n := TakesTheRook();
    s, n := Play(false, s, n, 6, B_KNIGHT, OUT, HOME);
    s, n := Play(false, s, n, 22, W_KNIGHT, Square(6, 7), Square(5, 5));
    s, n := Play(false, s, n, 6, B_KNIGHT, HOME, OUT);
  }

  lemma OtherKnightComes() returns (s: Schedule, n: Net)
    ensures Standing(n, true) && Reached(false, s, n)
    ensures var b, o := n.me.core.board, n.you.core.board;
            |b| == |o| == 64 && b[25] == o[25] == Some(22) && b[10] == None && o[10] == Some(17)
  {
    hide Standing, Reached, KindOf;
    Roster();
    s, n := OtherKnightStarts();
    s, n := Play(false, s, n, 22, W_KNIGHT, Square(5, 5), Square(3, 4));
    s, n := Play(false, s, n, 6, B_KNIGHT, OUT, HOME);
    s, n := Play(false, s, n, 22, W_KNIGHT, Square(3, 4), Square(1, 3));
    s, n := Play(false, s, n, 6, B_KNIGHT, HOME, OUT);
  }

  /** What the two boards then show, and what White may do. */
  lemma KnightSees() returns (s: Schedule, n: Net)
    ensures Standing(n, true) && Reached(false, s, n) && MayPlay(n.me.core, Square(1, 3), Square(2, 1))
    ensures n.you.core.board[25] == Some(22) && n.you.core.board[10] == Some(17)
  {
    hide Reached, Shape, KindOf, AtRest, MayPlay;
    Roster();
    s, n := OtherKnightComes();
    CanPlay(n.me.core, 22, W_KNIGHT, Square(1, 3), Square(2, 1));
  }

  /** The two steps that bring a byte into the receive queue. */
  lemma ByteComes(n: Net)
    requires NetShape(n) && Idle(n) && n.me.tx != [] && n.you.core.state == Playing
    ensures var m := Run(n, [(true, Write), (false, Read)]);
            m.you.core == n.you.core && m.you.rx == [n.me.tx[0]] && m.me.core == n.me.core
    ensures Clean(false, n, [(true, Write), (false, Read)])
  {
    hide Shape;
    var u := [(true, Write), (false, Read)];
    assert u[1..] == [(false, Read)] && u[1..][1..] == [];
    var n1 := Step(n, true, Write);
    var n2 := Step(n1, false, Read);
    assert Run(n, u) == Run(n1, u[1..]) == Run(n2, []);
  }

  /** The tag and the first square of a message. */
  lemma TwoBytes(c: Core, from: Square, to: Square)
    requires AtRest(c) && from.OnBoard() && to.OnBoard() && !IsCorner(from)
    ensures var f := [BEGIN_MESSAGE, EncodeSquare(from)];
            var r := Absorb(c, f);
            && f <= MoveMessage(from, to) && MoveMessage(from, to)[2..] == [EncodeSquare(to), YOUR_TURN]
            && Alive(c, f) && r.byteOfMove == 1 && r.oldSq == from && r.board == c.board
            && r.state == Playing && !r.endGame && r.player == c.player
  {
    hide Shape, EncodeSquare, ReceiveByte, IsCorner, Absorb, Alive;
    var a := EncodeSquare(from);
    assert [BEGIN_MESSAGE] + ([a] + []) == [BEGIN_MESSAGE, a];
    var c1 := ReceiveByte(c, BEGIN_MESSAGE);
    var c2 := ReceiveByte(c1, a);
    BeginKeeps(c);
    FirstSquare(c, from);
    AliveStep(c1, a, []);
    AliveStep(c, BEGIN_MESSAGE, [a] + []);
    AbsorbNothing(c2);
    AbsorbStep(c1, a, []);
    AbsorbStep(c, BEGIN_MESSAGE, [a] + []);
  }

  /** White's second knight is sent to (2, 1); the first square has been read,
      the second is next. */
  lemma SecondSquareNext() returns (s: Schedule, n: Net)
    ensures NetShape(n) && Reached(false, s, n)
    ensures var c := n.me.core;
            && c.state == Playing && !c.endGame && c.player == Black && c.byteOfMove == 1 && c.oldSq == Square(1, 3)
            && c.board[25] == Some(22) && c.board[10] == Some(17)
            && ByteRead(n, NewFrame) == EncodeSquare(Square(2, 1))
  {
    hide Reached, KindOf, Run, Delivery, EncodeSquare, ReceiveByte, Shape, Kinds, Accepts, Absorb;
    var from, to := Square(1, 3), Square(2, 1);
    s, n := KnightSees();
    var d := n.you.core;
    var u := [(true, Input(PressAt(from), 0)), (true, Input(DropAt(to), 0))];
    var n1 := DragRun(false, n, from, to);
    s := Continue(false, s, n, u);
    var f := [BEGIN_MESSAGE, EncodeSquare(from)];
    TwoBytes(d, from, to);
    Deliver(false, n1, f);
    s := Continue(false, s, n1, Delivery(2));
    var n2 := Run(n1, Delivery(2));
    SwitchAlike(Absorb(d, f), n2.you.core, !d.animation);
    ByteComes(n2);
    s := Continue(false, s, n2, [(true, Write), (false, Read)]);
    n := Run(n2, [(true, Write), (false, Read)]);
    SwapReached(false, s, n);
    n := Swap(n);
    SquareRoundTrip(to);
  }

  /** The move then takes White's own knight off Black's board: without a
      condition on the corner, OnlyOpponentsTaken fails on the receive path. */
  lemma OwnPieceTaken() returns (s: Schedule, n: Net)
    ensures NetShape(n) && Reached(false, s, n) && n.me.core.state == Playing && n.me.core.player == Black
    ensures var o := Handle(n.me.core, NewFrame, ByteRead(n, NewFrame));
            && o.send == [] && Loses(n.me.core.board, o.core.board, Some(17)) && Some(17) in n.me.core.board
            && !Owns(n.me.core.player, KindOf(17))
  {
    hide Reached, NetInv, LocalInv, Shape, ReceiveByte, EncodeSquare, Handle, MoveCells, Loses;
    s, n := SecondSquareNext();
    ReachedInv(false, s, n);
    InvLocal(false, n);
    InvBoard(n.me.core);
    var c, b := n.me.core, ByteRead(n, NewFrame);
    SquareRoundTrip(Square(2, 1));
    FrameReads(c, b);
    CarriedOut(c, Square(2, 1));
    MoveLoses(c.board, c.oldSq, Square(2, 1));
    assert c.board[10] in c.board;
  }

  lemma CarriedOut(c: Core, to: Square)
    requires Shape(c) && c.byteOfMove == 1 && to.OnBoard() && !IsCorner(to) && c.board[c.oldSq.Index()].Some?
    ensures ReceiveByte(c, EncodeSquare(to)).board == MoveCells(c.board, c.oldSq, to)
  {
    SquareRoundTrip(to);
    hide EncodeSquare, DecodeSquare, MoveCells, GetScreenX, GetScreenY;
  }

  // ---------------------------------------------------------------------
  // Two winners

  /** What the two knights have not touched. */
  predicate Untouched(b: seq<Option<nat>>) {
    && |b| == 64 && b[0] == Some(0) && b[4] == Some(4) && b[60] == Some(20) && b[11] == Some(11)
    && b[19] == None && b[62] == Some(22) && b[47] == None
  }

  /** A knight of each side sets out. */
  lemma BothCome() returns (s: Schedule, n: Net)
    ensures Standing(n, true) && Reached(true, s, n)
    ensures var b, o := n.me.core.board, n.you.core.board;
            b == o && Untouched(b) && b[25] == Some(17) && b[35] == Some(1) && b[10] == Some(10) && b[45] == None
  {
    hide Standing, Reached, KindOf, InitBoard, MoveCells;
    Roster();
    Squares();
    s, n := TheStart();
    s, n := Play(true, s, n, 17, W_KNIGHT, Square(1, 7), Square(2, 5));
    s, n := Play(true, s, n, 1, B_KNIGHT, Square(1, 0), Square(2, 2));
    s, n := Play(true, s, n, 17, W_KNIGHT, Square(2, 5), Square(1, 3));
    s, n := Play(true, s, n, 1, B_KNIGHT, Square(2, 2), Square(3, 4));
  }

  /** White's takes a pawn, Black's looks at the white king. */
  lemma BothAttack() returns (s: Schedule, n: Net)
    ensures Standing(n, true) && Reached(true, s, n)
    ensures var b, o := n.me.core.board, n.you.core.board;
            b == o && Untouched(b) && b[10] == Some(17) && b[45] == Some(1)
  {
    hide Standing, Reached, KindOf, MoveCells;
    Roster();
    s, n := BothCome();
    s, n := Play(true, s, n, 17, W_KNIGHT, Square(1, 3), Square(2, 1));
    s, n := Play(true, s, n, 1, B_KNIGHT, Square(3, 4), Square(5, 5));
  }

  predicate Opened(b: seq<Option<nat>>) {
    && |b| == 64 && b[4] == Some(4) && b[11] == None && b[62] == None && b[47] == Some(22) && b[45] == Some(1)
    && b[60] == Some(20)
  }

  /** White's knight takes the rook on (0, 0); Black makes way for the king. */
  lemma WayIsMade() returns (s: Schedule, n: Net)
    ensures Standing(n, false) && Reached(false, s, n)
    ensures var b, o := n.me.core.board, n.you.core.board;
            Opened(b) && Opened(o) && b[10] == Some(17) && o[10] == None && o[0] == Some(17)
  {
    hide Standing, Reached, KindOf;
    Roster();
    s, n := BothAttack();
    ReachedStrict(s, n);
    s, n := Play(false, s, n, 17, W_KNIGHT, Square(2, 1), Square(0, 0));
    s, n := Play(false, s, n, 11, B_PAWN, Square(3, 1), Square(3, 2));
    s, n := Play(false, s, n, 22, W_KNIGHT, Square(6, 7), Square(7, 5));
  }

  /** The king takes the knight that Black still sees on (2, 1), and so comes
      within reach of the one White sees on (0, 0). */
  lemma KingWalks() returns (s: Schedule, n: Net)
    ensures Standing(n, true) && Reached(false, s, n)
    ensures var b, o := n.me.core.board, n.you.core.board;
            |b| == |o| == 64 && b[0] == Some(17) && b[10] == Some(4) && o[45] == Some(1) && o[60] == Some(20)
  {
    hide Standing, Reached, KindOf;
    Roster();
    s, n := WayIsMade();
    s, n := Play(false, s, n, 4, B_KING, KING, Square(3, 1));
    s, n := Play(false, s, n, 22, W_KNIGHT, Square(7, 5), Square(6, 7));
    s, n := Play(false, s, n, 4, B_KING, Square(3, 1), Square(2, 1));
  }

  lemma OtherLeaves(s: Schedule, n: Net) returns (t: Schedule, m: Net)
    requires NetShape(n) && Reached(false, s, n) && n.you.core.state == Playing && n.you.core.endGame && n.you.rx == []
    ensures NetShape(m) && Reached(false, t, m) && m.you.core.state == Exit && m.you.core.won && m.me == n.me
  {
    hide Reached, Crossing, CornerMove, Shape, Act;
    Leaves(Swap(n));
    t, m := Go(false, s, n, false, Input(NewFrame, 0));
  }

  /** White takes the king with a move from the corner, which Black does not
      see; Black takes White's: in an uncrossed run both leave having won. */
  lemma TwoWinners() returns (s: Schedule, n: Net)
    ensures NetShape(n) && Reached(false, s, n)
    ensures n.me.core.state == n.you.core.state == Exit && n.me.core.won && n.you.core.won
  {
    hide Reached, KindOf, Crossing, CornerMove, Step, Shape, AtRest, KindsKnown, MayPlay, MoveMessage, Run, SamePieces;
    Roster();
    s, n := KingWalks();
    s, n := Play(false, s, n, 17, W_KNIGHT, Square(0, 0), Square(2, 1));
    s, n := OtherLeaves(s, n);
    CanPlay(n.me.core, 1, B_KNIGHT, Square(5, 5), Square(4, 7));
    var u := [(true, Input(PressAt(Square(5, 5)), 0)), (true, Input(DropAt(Square(4, 7)), 0))];
    var n1 := DragRun(false, n, Square(5, 5), Square(4, 7));
    s := Continue(false, s, n, u);
    MovedFields(n.me.core, n1.me.core, Square(5, 5), Square(4, 7));
    Leaves(n1);
    s, n := Go(false, s, n1, true, Input(NewFrame, 0));
  }

  // ---------------------------------------------------------------------
  // A king that cannot be taken

  const PAWN := Square(5, 1)

  lemma PawnComes() returns (s: Schedule, n: Net)
    ensures Standing(n, true) && Reached(true, s, n)
    ensures var b, o := n.me.core.board, n.you.core.board;
            && b == o && |b| == 64 && b[36] == Some(28) && b[28] == b[20] == None && b[13] == Some(13) && b[4] == Some(4)
            && b[6] == Some(6) && b[21] == None
  {
    hide Standing, Reached, KindOf, InitBoard, MoveCells;
    Roster();
    Squares();
    s, n := TheStart();
    s, n := Play(true, s, n, 28, W_PAWN, Square(4, 6), Square(4, 5));
    s, n := Play(true, s, n, 6, B_KNIGHT, HOME, OUT);
    s, n := Play(true, s, n, 28, W_PAWN, Square(4, 5), Square(4, 4));
    s, n := Play(true, s, n, 6, B_KNIGHT, OUT, HOME);
  }

  lemma PawnGoesOn() returns (s: Schedule, n: Net)
    ensures Standing(n, true) && Reached(true, s, n)
    ensures var b, o := n.me.core.board, n.you.core.board;
            && b == o && |b| == 64 && b[20] == Some(28) && b[13] == Some(13) && b[4] == Some(4)
            && b[6] == Some(6) && b[21] == None
  {
    hide Standing, Reached, KindOf, MoveCells;
    Roster();
    s, n := PawnComes();
    s, n := Play(true, s, n, 28, W_PAWN, Square(4, 4), Square(4, 3));
    s, n := Play(true, s, n, 6, B_KNIGHT, HOME, OUT);
    s, n := Play(true, s, n, 28, W_PAWN, Square(4, 3), Square(4, 2));
    s, n := Play(true, s, n, 6, B_KNIGHT, OUT, HOME);
  }

  lemma PawnArrives() returns (s: Schedule, n: Net)
    ensures Standing(n, true) && Reached(true, s, n)
    ensures var b, o := n.me.core.board, n.you.core.board;
            |b| == 64 && b[PAWN.Index()] == Some(28) && b[KING.Index()] == Some(4)
  {
    hide Standing, Reached, KindOf, MoveCells;
    Roster();
    s, n := PawnGoesOn();
    s, n := Play(true, s, n, 28, W_PAWN, Square(4, 2), PAWN);
    s, n := Play(true, s, n, 6, B_KNIGHT, HOME, OUT);
  }

  /** White's pawn, on turn and next to the black king, may take it by the
      rules; dropped on it the pawn goes back, and nothing is sent. */
  lemma KingIsSpared() returns (s: Schedule, n: Net)
    ensures NetShape(n) && Reached(true, s, n) && Table(n) && n.me.core.myTurn && n.me.core.player == White
    ensures var c := n.me.core;
            && PseudoLegal(Kinds(c), W_PAWN, c.pieces[28].pawnMoved, PAWN, KING) && Kinds(c)[PAWN.Index()] == Some(W_PAWN)
            && (forall x, y, x', y' :: Over(x, y, PAWN) && Over(x', y', KING) ==>
                  Handle(Handle(c, Mouse(x, y, true, false), 0).core, Mouse(x', y', false, true), 0).send == [])
  {
    hide Reached, KindOf, PseudoLegal, Kinds, Accepts, Handle, Shape;
    Roster();
    s, n := PawnArrives();
    NextToKing(n.me.core);
    PawnSparesKing(Kinds(n.me.core), n.me.core.pieces[28].pawnMoved, PAWN, KING);
    forall x, y, x', y' | Over(x, y, PAWN) && Over(x', y', KING)
      ensures Handle(Handle(n.me.core, Mouse(x, y, true, false), 0).core, Mouse(x', y', false, true), 0).send == []
    {
      PutBack(n.me.core, 28, PAWN, KING, x, y, x', y');
    }
  }

  lemma NextToKing(c: Core)
    requires Shape(c) && KindsKnown(c) && c.board[PAWN.Index()] == Some(28) && c.board[KING.Index()] == Some(4)
    ensures c.pieces[28].kind == W_PAWN
    ensures Kinds(c)[PAWN.Index()] == Some(W_PAWN) && Kinds(c)[KING.Index()] == Some(B_KING)
  {
    hide KindOf;
    Roster();
  }

  /** A piece dropped where the test refuses it goes back. */
  lemma PutBack(c: Core, id: nat, from: Square, to: Square, x: U16, y: U16, x': U16, y': U16)
    requires AtRest(c) && c.myTurn && from.OnBoard() && to.OnBoard() && c.board[from.Index()] == Some(id)
    requires Over(x, y, from) && Over(x', y', to)
    requires var p := c.pieces[id]; Owns(c.player, p.kind) && !Accepts(Kinds(c), p.kind, p.pawnMoved, from, to)
    ensures Handle(Handle(c, Mouse(x, y, true, false), 0).core, Mouse(x', y', false, true), 0).send == []
  {
    hide Painted, Over, Handle, Owns, SameTeam, Kinds, Accepts;
    Pressed(c, from, x, y);
    var d := Handle(c, Mouse(x, y, true, false), 0).core;
    NotAccepted(c, d, id, from, to);
    Refused(d, to, x', y');
  }

  lemma NotAccepted(c: Core, d: Core, id: nat, from: Square, to: Square)
    requires Shape(c) && Shape(d) && from.OnBoard() && to.OnBoard() && id < PIECES && d.drag == Some(id) && d.board == c.board
    requires var p := c.pieces[id];
             && d.lit == Painted(Kinds(c), p.kind, p.pawnMoved, from) && !Accepts(Kinds(c), p.kind, p.pawnMoved, from, to)
             && d.pieces == c.pieces[id := p.(priority := true, change := true)]
    ensures !DropAccepted(d, to)
  {
    hide Painted;
  }

  lemma Refused(c: Core, to: Square, x: U16, y: U16)
    requires Shape(c) && c.state == Playing && !c.endGame && c.drag.Some? && to.OnBoard() && !DropAccepted(c, to)
    requires Over(x, y, to)
    ensures Handle(c, Mouse(x, y, false, true), 0).send == []
  {
    hide GetBoardX, GetBoardY, GetScreenX, GetScreenY;
    assert Square(GetBoardX(x), GetBoardY(y)) == to;
  }

  // ---------------------------------------------------------------------
  // Two double steps

  const START := Square(4, 6)
  const HALFWAY := Square(4, 4)
  const BEYOND := Square(4, 2)

  /** White switches animation off. */
  lemma SwitchedOff() returns (s: Schedule, n: Net)
    ensures NetShape(n) && Reached(true, s, n)
    ensures At(n, AsWhite().(animation := false), [], [], AsBlack(), [], [], [], [])
  {
    hide AsWhite, AsBlack, Shape, Reached;
    WhiteAndBlack();
    s, n := GameBegins();
    assert Handle(AsWhite(), Keyboard(TOGGLE_ANIMATION), 0) == Outcome(AsWhite().(animation := false), [], false);
    s, n := Go(true, s, n, true, Input(Keyboard(TOGGLE_ANIMATION), 0));
  }

  /** A pawn with its flag down may step two squares over empty ones. */
  lemma DoubleStep(c: Core, from: Square, to: Square)
    requires Shape(c) && c.myTurn && c.player == White && from.OnBoard() && to == Square(from.col, from.row - 2) && to.OnBoard()
    requires c.board[from.Index()] == Some(28) && c.pieces[28].kind == W_PAWN && !c.pieces[28].pawnMoved
    requires c.board[to.Index()] == None && c.board[Square(from.col, from.row - 1).Index()] == None
    ensures MayPlay(c, from, to) && NoKing(c, to)
  {
    PaintedIff(Kinds(c), W_PAWN, false, from, to);
    hide Painted;
  }

  /** White's pawn has stepped to the fourth square of its file, its flag
      down. */
  predicate Stepped(c: Core) {
    && |c.board| == 64 && |c.pieces| == PIECES && c.player == White && !c.animation
    && c.board[HALFWAY.Index()] == Some(28) && c.board[BEYOND.Index()] == None && c.board[Square(4, 3).Index()] == None
    && c.pieces[28].kind == W_PAWN && !c.pieces[28].pawnMoved
  }

  predicate KnightHome(b: seq<Option<nat>>) { |b| == 64 && b[HOME.Index()] == Some(6) && b[OUT.Index()] == None }

  lemma StartsPawn(n: Net)
    requires NetShape(n) && At(n, AsWhite().(animation := false), [], [], AsBlack(), [], [], [], [])
    ensures Table(n) && MayPlay(n.me.core, START, HALFWAY) && NoKing(n.me.core, HALFWAY)
    ensures Carries(n.you.core, START, HALFWAY) && KindsKnown(n.me.core) && KindsKnown(n.you.core)
    ensures n.me.core.board == n.you.core.board == InitBoard() && n.me.core.board[START.Index()] == Some(28)
    ensures n.me.core.pieces[28].kind == W_PAWN && !n.me.core.pieces[28].pawnMoved
    ensures n.me.core.player == White && n.you.core.player == Black && !n.me.core.animation
  {
    hide AsWhite, AsBlack, MayPlay, KindOf, InitPieces;
    WhiteAndBlack();
    InitKinds();
    FreshPieces();
    DoubleStep(n.me.core, START, HALFWAY);
  }

  /** The first double step. */
  lemma StepsFirst() returns (s: Schedule, n: Net)
    ensures Standing(n, false) && Reached(true, s, n) && Stepped(n.you.core)
    ensures KnightHome(n.me.core.board) && KnightHome(n.you.core.board)
  {
    hide AsWhite, AsBlack, Reached, MayPlay, NoKing, Carries, KindOf, AtRest, Shape;
    s, n := SwitchedOff();
    StartsPawn(n);
    s, n := PlayMove(true, s, n, START, HALFWAY);
  }

  lemma KnightLeaves(n: Net)
    requires Standing(n, false) && KnightHome(n.me.core.board) && KnightHome(n.you.core.board)
    ensures MayPlay(n.me.core, HOME, OUT) && NoKing(n.me.core, OUT) && Carries(n.you.core, HOME, OUT)
  {
    hide KindOf, Painted;
    Roster();
    var c := n.me.core;
    PaintedIff(Kinds(c), B_KNIGHT, c.pieces[6].pawnMoved, HOME, OUT);
  }

  /** Black's answer. */
  lemma StepsOnce() returns (s: Schedule, n: Net)
    ensures NetShape(n) && Reached(true, s, n) && Table(n) && n.me.core.myTurn && Stepped(n.me.core)
  {
    hide Reached, MayPlay, NoKing, Carries, KindOf, AtRest, Shape;
    s, n := StepsFirst();
    KnightLeaves(n);
    s, n := PlayMove(true, s, n, HOME, OUT);
  }

  lemma FreshPieces()
    ensures InitPieces()[28].kind == W_PAWN && !InitPieces()[28].pawnMoved
  {
  }

  /** With animation off the flag stays down, and the pawn, away from its own
      square, may step two squares again. */
  lemma StepsTwice() returns (s: Schedule, n: Net)
    ensures NetShape(n) && Reached(true, s, n) && Table(n) && n.me.core.board[HALFWAY.Index()] == Some(28)
    ensures HALFWAY.Index() != HomeOf(28) && MayPlay(n.me.core, HALFWAY, BEYOND)
  {
    hide Reached;
    s, n := StepsOnce();
    DoubleStep(n.me.core, HALFWAY, BEYOND);
  }
}
