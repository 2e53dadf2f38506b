/** A concrete crossed handshake and what becomes of it. */
module Witness {
  import opened Common
  import opened Codec
  import opened Chess
  import opened Game
  import opened HandlerSummary
  import opened Network
  import opened Theorems
  import opened Handshake
  import opened MoveRuns

  /** One step appended to a run whose end is known. */
  lemma Extend(s: Schedule, n: Net, first: bool, a: Action) returns (t: Schedule)
    requires NetShape(n) && Run(InitNet(), s) == n
    ensures Run(InitNet(), t) == Step(n, first, a)
  {
    InitShape();
    RunAll(InitNet(), s, [(first, a)]);
    RunOne(n, first, a);
    t := s + [(first, a)];
  }

  /** A peer of the witness: its letter typed, in the given state. */
  function In(state: GameState): Core { InitCore().(nameSize := 1, state := state) }

  function AsWhite(): Core { In(Playing).(player := White, myTurn := true) }

  function Pair(core: Core, tx: seq<Byte>, rx: seq<Byte>, sent: seq<Byte>, taken: seq<Byte>, wire: seq<Byte>): Net {
    var node := Node(core, tx, rx, false, sent, taken);
    Net(node, node, wire, wire)
  }

  const CONNECT: Event := Keyboard(ENTER)
  const PICK_WHITE: Event := Mouse(400, 540, true, false)

  /** Both peers type a letter and connect before either has heard of the
      other. */
  lemma BothConnect() returns (s: Schedule, n: Net)
    ensures Run(InitNet(), s) == n == Pair(In(Waiting), [VM_CONNECTED], [], [VM_CONNECTED], [], [])
  {
    hide InitBoard, InitPieces, Shape;
    s, n := [], InitNet();
    s := Extend(s, n, true, Input(Keyboard(0x9e), 0));
    n := Step(n, true, Input(Keyboard(0x9e), 0));
    s := Extend(s, n, false, Input(Keyboard(0x9e), 0));
    n := Step(n, false, Input(Keyboard(0x9e), 0));
    assert n == Pair(In(Start), [], [], [], [], []);
    s := Extend(s, n, true, Input(CONNECT, 0));
    n := Step(n, true, Input(CONNECT, 0));
    s := Extend(s, n, false, Input(CONNECT, 0));
    n := Step(n, false, Input(CONNECT, 0));
    assert EnqueueAll([], [VM_CONNECTED]) == [VM_CONNECTED];
  }

  /** The two greetings pass each other. */
  lemma BothHear() returns (s: Schedule, n: Net)
    ensures Run(InitNet(), s) == n == Pair(In(Waiting), [], [VM_CONNECTED], [VM_CONNECTED], [], [])
  {
    s, n := BothConnect();
    hide Handle, InitCore, Shape;
    s := Extend(s, n, true, Write);
    n := Step(n, true, Write);
    s := Extend(s, n, false, Write);
    n := Step(n, false, Write);
    s := Extend(s, n, true, Read);
    n := Step(n, true, Read);
    s := Extend(s, n, false, Read);
    n := Step(n, false, Read);
  }

  /** Both peers answer the greeting and become choosers. */
  lemma BothChoose() returns (s: Schedule, n: Net)
    ensures Run(InitNet(), s) == n ==
      Pair(In(ChoosingPlayer), [RECEIVE_VM_CONNECTED], [], [VM_CONNECTED, RECEIVE_VM_CONNECTED], [VM_CONNECTED], [])
  {
    s, n := BothHear();
    Answers();
    hide Handle, InitCore, Shape, EnqueueAll, In;
    s := Extend(s, n, true, Input(NewFrame, 0));
    n := Step(n, true, Input(NewFrame, 0));
    s := Extend(s, n, false, Input(NewFrame, 0));
    n := Step(n, false, Input(NewFrame, 0));
  }

  /** A waiting peer answers a greeting and becomes a chooser. */
  lemma Answers()
    ensures Handle(In(Waiting), NewFrame, VM_CONNECTED) == Outcome(In(ChoosingPlayer), [RECEIVE_VM_CONNECTED], false)
    ensures Reads(In(Waiting), NewFrame) && In(Waiting).state == Waiting
    ensures EnqueueAll([], [RECEIVE_VM_CONNECTED]) == [RECEIVE_VM_CONNECTED]
  {
    hide InitCore;
  }

  /** Crossed handshakes can give both players White and the turn. */
  lemma CrossedBothHoldTheTurn() returns (s: Schedule, n: Net)
    ensures Run(InitNet(), s) == n && !Clean(false, InitNet(), s)
    ensures n.me.core == AsWhite() && n.you.core == AsWhite()
    ensures n == Pair(AsWhite(), [RECEIVE_VM_CONNECTED, BLACK_BYTE], [],
                      [VM_CONNECTED, RECEIVE_VM_CONNECTED, BLACK_BYTE], [VM_CONNECTED], [])
  {
    s, n := BothChoose();
    Picks();
    hide Handle, InitCore, Shape, EnqueueAll, In, AsWhite;
    s := Extend(s, n, true, Input(PICK_WHITE, 0));
    n := Step(n, true, Input(PICK_WHITE, 0));
    s := Extend(s, n, false, Input(PICK_WHITE, 0));
    n := Step(n, false, Input(PICK_WHITE, 0));
    StaysCrossed(s, n);
  }

  /** A chooser clicks White. */
  lemma Picks()
    ensures Handle(In(ChoosingPlayer), PICK_WHITE, 0) == Outcome(AsWhite(), [BLACK_BYTE], false)
    ensures In(ChoosingPlayer).state == ChoosingPlayer && AsWhite().myTurn
    ensures EnqueueAll([RECEIVE_VM_CONNECTED], [BLACK_BYTE]) == [RECEIVE_VM_CONNECTED, BLACK_BYTE]
  {
    hide InitCore;
  }

  /** Two peers that both hold the turn did not meet in a clean run. */
  lemma StaysCrossed(s: Schedule, n: Net)
    requires Run(InitNet(), s) == n && n.me.core.myTurn && n.you.core.myTurn
    ensures !Clean(false, InitNet(), s)
  {
    if Clean(false, InitNet(), s) {
      TurnToken(s, n);
    }
  }

  /** The leftover greeting and colour byte are read as a move from (7, 5). It
      is a null dereference exactly when nothing stands there. */
  lemma LeftoverCrashes(c: Core, colour: Byte)
    requires Shape(c) && c.state == Playing && !c.endGame && c.byteOfMove == 0
    requires colour == BLACK_BYTE || colour == WHITE_BYTE
    ensures var c1 := Handle(c, NewFrame, RECEIVE_VM_CONNECTED).core;
            && c1.state == Playing
            && (Handle(c1, NewFrame, colour).core.state == Crashed <==> c.board[Square(7, 5).Index()] == None)
  {
    hide UpdateFrom, MoveCells;
    assert DecodeSquare(RECEIVE_VM_CONNECTED) == Square(7, 5);
  }

  /** After a crossed handshake the player who moves neither piece dies on the
      other's leftover bytes. */
  lemma CrossedCrash() returns (s: Schedule, n: Net)
    ensures Run(InitNet(), s) == n && n.me.core.state == Crashed
  {
    s, n := CrossedBothHoldTheTurn();
    hide Handle, InitCore, Shape;
    s := Extend(s, n, false, Write);
    n := Step(n, false, Write);
    s := Extend(s, n, true, Read);
    n := Step(n, true, Read);
    s := Extend(s, n, false, Write);
    n := Step(n, false, Write);
    s := Extend(s, n, true, Read);
    n := Step(n, true, Read);
    assert n.me.core == AsWhite() && n.me.rx == [RECEIVE_VM_CONNECTED, BLACK_BYTE];
    s, n := ReadTwice(s, n);
  }

  lemma ReadTwice(s: Schedule, n: Net) returns (t: Schedule, m: Net)
    requires NetShape(n) && Run(InitNet(), s) == n && n.me.core == AsWhite()
    requires n.me.rx == [RECEIVE_VM_CONNECTED, BLACK_BYTE]
    ensures Run(InitNet(), t) == m && m.me.core.state == Crashed
  {
    var c := Handle(n.me.core, NewFrame, RECEIVE_VM_CONNECTED).core;
    InitEmpty();
    LeftoverCrashes(n.me.core, BLACK_BYTE);
    OnlyFramesRead(n.me.core, NewFrame, RECEIVE_VM_CONNECTED);
    hide Handle, InitCore, Shape;
    t := Extend(s, n, true, Input(NewFrame, 0));
    m := ReadOne(n);
    t := Extend(t, m, true, Input(NewFrame, 0));
    EventCores(m, NewFrame, 0);
    m := Step(m, true, Input(NewFrame, 0));
  }

  /** A frame of a playing peer takes the first byte. */
  lemma ReadOne(n: Net) returns (m: Net)
    requires NetShape(n) && n.me.core.state == Playing && n.me.rx != []
    ensures m == Step(n, true, Input(NewFrame, 0))
    ensures m.me.core == Handle(n.me.core, NewFrame, n.me.rx[0]).core && m.me.rx == n.me.rx[1..]
  {
    m := Step(n, true, Input(NewFrame, 0));
    EventCores(n, NewFrame, 0);
    OnlyFramesRead(n.me.core, NewFrame, n.me.rx[0]);
    hide OnPlaying, Shape;
  }

  lemma InitEmpty()
    ensures Shape(AsWhite()) && AsWhite().board == InitBoard() && InitBoard()[Square(7, 5).Index()] == None
    ensures AsWhite().state == Playing && !AsWhite().endGame && AsWhite().byteOfMove == 0
  {
    assert Shape(InitCore());
    hide Shape, InitPieces;
  }

  // ---------------------------------------------------------------------
  // Boards that part

  lemma WhiteReady()
    ensures var c := AsWhite();
            && AtRest(c) && c.myTurn && c.player == White && c.board == InitBoard() && c.pieces == InitPieces()
            && c.byteOfMove == 0 && c.animation
  {
    assert Shape(InitCore());
    hide Shape, InitBoard, InitPieces;
  }

  /** With a piece on (7, 5) the leftover bytes carry it to (0, 1). */
  lemma LeftoverMoves(c: Core)
    requires Shape(c) && c.state == Playing && !c.endGame && c.byteOfMove == 0
    requires c.board[Square(7, 5).Index()].Some? && NoKing(c, Square(0, 1))
    ensures var f := [RECEIVE_VM_CONNECTED, BLACK_BYTE];
            var r := Absorb(c, f);
            && Alive(c, f) && r.state == Playing && !r.endGame && SamePieces(c.pieces, r.pieces, true)
            && r.board == MoveCells(c.board, Square(7, 5), Square(0, 1))
  {
    hide Absorb, Alive, MoveCells;
    var b := BLACK_BYTE;
    var c1 := ReceiveByte(c, RECEIVE_VM_CONNECTED);
    var c2 := ReceiveByte(c1, b);
    assert DecodeSquare(RECEIVE_VM_CONNECTED) == Square(7, 5) && DecodeSquare(b) == Square(0, 1);
    assert [RECEIVE_VM_CONNECTED] + ([b] + []) == [RECEIVE_VM_CONNECTED, b];
    AliveStep(c1, b, []);
    AliveStep(c, RECEIVE_VM_CONNECTED, [b] + []);
    AbsorbNothing(c2);
    AbsorbStep(c1, b, []);
    AbsorbStep(c, RECEIVE_VM_CONNECTED, [b] + []);
    AbsorbSpares(c, [RECEIVE_VM_CONNECTED, b]);
  }

  /** A player who has moved a piece to (7, 5) reads the other's leftover bytes
      and then the other's first move. */
  lemma ReadsAll(c: Core, from: Square, to: Square)
    requires Shape(c) && c.state == Playing && !c.endGame && c.byteOfMove == 0
    requires c.board[Square(7, 5).Index()].Some? && NoKing(c, Square(0, 1))
    requires from.OnBoard() && to.OnBoard() && !IsCorner(from) && !IsCorner(to)
    requires var b := MoveCells(c.board, Square(7, 5), Square(0, 1)); b[from.Index()].Some? && b[to.Index()].None?
    ensures var f := [RECEIVE_VM_CONNECTED, BLACK_BYTE] + MoveMessage(from, to);
            && Alive(c, f) && Absorb(c, f).state == Playing
            && Absorb(c, f).board == MoveCells(MoveCells(c.board, Square(7, 5), Square(0, 1)), from, to)
  {
    hide Absorb, Alive, MoveCells, MoveMessage, ReceiveByte, IsCorner;
    var f := [RECEIVE_VM_CONNECTED, BLACK_BYTE];
    var r := Absorb(c, f);
    LeftoverMoves(c);
    MessageKeepsGame(r, from, to);
    AbsorbedBoard(r, from, to);
    AbsorbAll(c, f, MoveMessage(from, to));
  }

  const KNIGHT_HOME := Square(6, 7)
  const PAWN_HOME := Square(7, 6)
  const MEETING := Square(7, 5)

  lemma BothMayPlay()
    ensures var c := AsWhite();
            && AtRest(c) && MayPlay(c, KNIGHT_HOME, MEETING) && MayPlay(c, PAWN_HOME, MEETING)
            && c.board[KNIGHT_HOME.Index()] == Some(22) && c.board[PAWN_HOME.Index()] == Some(31)
            && c.board[MEETING.Index()] == None && c.board[Square(0, 1).Index()] == Some(8)
            && c.pieces[8].kind == B_PAWN
  {
    WhiteReady();
    var c := AsWhite();
    PaintedIff(Kinds(c), W_KNIGHT, c.pieces[22].pawnMoved, KNIGHT_HOME, MEETING);
    PaintedIff(Kinds(c), W_PAWN, c.pieces[31].pawnMoved, PAWN_HOME, MEETING);
    hide Painted, AsWhite, InitCore;
  }

  /** The player has moved piece id from `mine` to (7, 5). */
  predicate HasMoved(c: Core, id: nat, mine: Square) {
    && Shape(c) && c.state == Playing && !c.endGame && c.byteOfMove == 0
    && mine.OnBoard() && c.board == DropCells(InitBoard(), id, mine, MEETING) && c.pieces[8].kind == B_PAWN
  }

  function Plays(mine: Square): Schedule
    requires mine.OnBoard()
  {
    [(true, Input(PressAt(mine), 0)), (true, Input(DropAt(MEETING), 0))]
  }

  lemma OneMoves(n: Net, id: nat, mine: Square) returns (m: Net)
    requires NetShape(n) && n.me.core == AsWhite() && |n.me.tx| <= 6
    requires (mine == KNIGHT_HOME && id == 22) || (mine == PAWN_HOME && id == 31)
    ensures NetShape(m) && m == Run(n, Plays(mine)) && HasMoved(m.me.core, id, mine)
    ensures m.me.tx == n.me.tx + MoveMessage(mine, MEETING) && m.you == n.you
    ensures m.out == n.out && m.inn == n.inn && m.me.rx == n.me.rx
  {
    hide AsWhite, MayPlay, Run, MoveMessage, DropCells, InitBoard;
    BothMayPlay();
    WhiteReady();
    m := DragRun(false, n, mine, MEETING);
  }

  /** Each of the two players moves a piece to (7, 5). */
  lemma BothMove() returns (s: Schedule, n: Net)
    ensures NetShape(n) && Run(InitNet(), s) == n && Idle(n) && Idle(Swap(n)) && !Clean(false, InitNet(), s)
    ensures n.me.tx == [RECEIVE_VM_CONNECTED, BLACK_BYTE] + MoveMessage(KNIGHT_HOME, MEETING)
    ensures n.you.tx == [RECEIVE_VM_CONNECTED, BLACK_BYTE] + MoveMessage(PAWN_HOME, MEETING)
    ensures HasMoved(n.me.core, 22, KNIGHT_HOME) && HasMoved(n.you.core, 31, PAWN_HOME)
  {
    hide AsWhite, Shape, Run, MoveMessage, Plays, InitNet, DropCells, InitBoard, Clean;
    s, n := CrossedBothHoldTheTurn();
    InitShape();
    var n1 := OneMoves(n, 22, KNIGHT_HOME);
    RunAll(InitNet(), s, Plays(KNIGHT_HOME));
    CleanAll(false, InitNet(), s, Plays(KNIGHT_HOME));
    var n2 := OneMoves(Swap(n1), 31, PAWN_HOME);
    FlipRun(false, Swap(n1), Plays(PAWN_HOME));
    s := s + Plays(KNIGHT_HOME);
    RunAll(InitNet(), s, Flip(Plays(PAWN_HOME)));
    CleanAll(false, InitNet(), s, Flip(Plays(PAWN_HOME)));
    s, n := s + Flip(Plays(PAWN_HOME)), Swap(n2);
  }

  /** What each of them then reads. */
  lemma BothRead(c: Core, id: nat, mine: Square, theirs: Square)
    requires HasMoved(c, id, mine)
    requires (mine == KNIGHT_HOME && theirs == PAWN_HOME && id == 22) || (mine == PAWN_HOME && theirs == KNIGHT_HOME && id == 31)
    ensures var f := [RECEIVE_VM_CONNECTED, BLACK_BYTE] + MoveMessage(theirs, MEETING);
            && Alive(c, f) && Absorb(c, f).state == Playing && Absorb(c, f).board[Square(0, 1).Index()] == Some(id)
  {
    hide Absorb, Alive, MoveMessage;
    ReadsAll(c, theirs, MEETING);
  }

  /** After crossed handshakes the boards can part for good: both players are
      in the game, nothing is under way, and the boards differ. */
  lemma CrossedDivides() returns (s: Schedule, n: Net)
    ensures NetShape(n) && Run(InitNet(), s) == n && !Clean(false, InitNet(), s) && NothingUnderWay(n)
    ensures n.me.core.state == n.you.core.state == Playing && n.me.core.board != n.you.core.board
  {
    hide Shape, Run, MoveMessage, InitNet, HasMoved, Alive, Absorb, Alike, Delivery, Clean;
    s, n := BothMove();
    InitShape();
    var c, d := n.me.core, n.you.core;
    var f, g := n.me.tx, n.you.tx;
    BothRead(d, 31, PAWN_HOME, KNIGHT_HOME);
    BothRead(c, 22, KNIGHT_HOME, PAWN_HOME);
    Deliver(false, n, f);
    RunAll(InitNet(), s, Delivery(|f|));
    CleanAll(false, InitNet(), s, Delivery(|f|));
    var n1 := Run(n, Delivery(|f|));
    SwitchAlike(Absorb(d, f), n1.you.core, !d.animation);
    Deliver(false, Swap(n1), g);
    FlipRun(false, Swap(n1), Delivery(|g|));
    s := s + Delivery(|f|);
    RunAll(InitNet(), s, Flip(Delivery(|g|)));
    CleanAll(false, InitNet(), s, Flip(Delivery(|g|)));
    s, n := s + Flip(Delivery(|g|)), Swap(Run(Swap(n1), Delivery(|g|)));
    SwitchAlike(Absorb(c, g), n.me.core, !c.animation);
  }
}
