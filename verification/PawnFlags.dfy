/** The flag that allows a pawn its double step, and where the pawn stands. */
module PawnFlags {
  import opened Common
  import opened Codec
  import opened Geometry
  import opened Chess
  import opened PieceMotion
  import opened Game
  import opened GameInvariants
  import opened HandlerSummary
  import opened Network
  import opened Protocol
  import opened NetworkInvariant
  import opened Theorems
  import opened Handshake
  import opened GameRecord

  predicate OwnPawn(c: Core, id: nat) { id < PIECES && IsPawn(KindOf(id)) && Owns(c.player, KindOf(id)) }

  /** A pawn on square k stands on its own square or further on. */
  predicate Onward(id: nat, k: nat)
    requires id < PIECES && k < 64
  {
    k == HomeOf(id) || (if IsWhite(KindOf(id)) then k / 8 < HomeOf(id) / 8 else k / 8 > HomeOf(id) / 8)
  }

  /** On its own square the flag is down; elsewhere it is up, or the piece has
      been sent off and has not arrived. */
  predicate FlagFits(p: PieceState, home: bool) {
    if home then !p.pawnMoved && !p.moving else p.pawnMoved || (p.moving && !p.AtTarget())
  }

  predicate PawnOk(c: Core, k: nat)
    requires Shape(c) && k < 64
  {
    c.board[k].Some? && OwnPawn(c, c.board[k].value) ==>
      Onward(c.board[k].value, k) && FlagFits(c.pieces[c.board[k].value], k == HomeOf(c.board[k].value))
  }

  predicate PawnInv(c: Core)
    requires Shape(c)
  {
    forall k :: 0 <= k < 64 ==> PawnOk(c, k)
  }

  /** A frame with animation off finds an own pawn sent off whose flag is
      down. */
  predicate SnapsPawn(c: Core, event: Event) {
    Shape(c) && event.NewFrame? && c.state == Playing && !c.animation && exists k :: 0 <= k < 64 && SentOff(c, k)
  }

  predicate SentOff(c: Core, k: nat)
    requires Shape(c) && k < 64
  {
    c.board[k].Some? && OwnPawn(c, c.board[k].value) &&
    c.pieces[c.board[k].value].moving && !c.pieces[c.board[k].value].pawnMoved
  }

  lemma FrameFlag(p: PieceState, home: bool, animation: bool)
    requires FlagFits(p, home) && IsPawn(p.kind) && (animation || !p.moving || p.pawnMoved)
    ensures FlagFits(Frame(p, animation), home)
  {
  }

  lemma UpdateFlags(c: Core)
    requires Shape(c) && Distinct(c.board) && KindsFixed(c) && PawnInv(c) && c.state == Playing && !SnapsPawn(c, NewFrame)
    ensures PawnInv(Updated(c))
  {
    hide UpdateFrom, Distinct, FlagFits, Onward, Frame;
    var u := Updated(c);
    forall k | 0 <= k < 64
      ensures PawnOk(u, k)
    {
      assert PawnOk(c, k);
      if c.board[k].Some? && OwnPawn(c, c.board[k].value) {
        var id := c.board[k].value;
        UpdatedPiece(c, id);
        assert Some(id) in c.board;
        assert c.animation || !SentOff(c, k);
        FrameFlag(c.pieces[id], k == HomeOf(id), c.animation);
      }
    }
  }

  /** The byte moves no own piece. */
  predicate ReadsFairly(c: Core, byte: Byte)
    requires Shape(c)
  {
    byte == BEGIN_MESSAGE || byte == YOUR_TURN || byte == 0 || c.byteOfMove == 0 ||
    (KindOn(c.board, c.oldSq).Some? && !Owns(c.player, KindOn(c.board, c.oldSq).value))
  }

  lemma ReceiveFlags(c: Core, byte: Byte)
    requires Shape(c) && Distinct(c.board) && PawnInv(c) && ReadsFairly(c, byte)
    ensures PawnInv(ReceiveByte(c, byte))
  {
    hide FlagFits, Onward, GetScreenX, GetScreenY, MoveTo, DecodeSquare, KindOf, HomeOf;
    var r := ReceiveByte(c, byte);
    forall k | 0 <= k < 64
      ensures PawnOk(r, k)
    {
      assert PawnOk(c, k);
    }
  }

  /** With the turn, a pawn that has left its square has its flag up. */
  lemma SettledFlags(c: Core, k: nat)
    requires Shape(c) && PawnInv(c) && PawnsSettled(c) && KindsFixed(c) && k < 64
    requires c.board[k].Some? && OwnPawn(c, c.board[k].value)
    ensures c.pieces[c.board[k].value].pawnMoved <==> k != HomeOf(c.board[k].value)
  {
    assert PawnOk(c, k);
    hide KindOf, HomeOf, Onward;
  }

  /** The held piece may be drawn anywhere. */
  lemma HeldFlags(c: Core, p: PieceState)
    requires LocalInv(c) && c.drag.Some? && PawnInv(c)
    requires var q := c.pieces[c.drag.value]; p.pawnMoved == q.pawnMoved && p.moving == q.moving
    ensures Shape(c.(pieces := c.pieces[c.drag.value := p])) && PawnInv(c.(pieces := c.pieces[c.drag.value := p]))
  {
    var r := c.(pieces := c.pieces[c.drag.value := p]);
    var id := c.drag.value;
    forall k | 0 <= k < 64
      ensures PawnOk(r, k)
    {
      assert PawnOk(c, k);
      if c.board[k] == Some(id) && OwnPawn(c, id) {
        SettledFlags(c, k);
      }
    }
    hide KindOf, HomeOf, Onward, Painted, Kinds, OnScreen;
  }

  lemma DraggedFlags(c: Core, x: U16, y: U16, pressed: bool)
    requires LocalInv(c) && InGame(c.state) && PawnInv(c)
    ensures PawnInv(Dragged(c, x, y, pressed))
  {
    var r := Dragged(c, x, y, pressed);
    if c.drag.Some? {
      HeldFlags(c, PlaceAt(c.pieces[c.drag.value], x - 29, y - 29));
      hide LocalInv, PawnInv;
    } else {
      hide KindOf, HomeOf, Onward, Painted, Kinds, OnScreen, Distinct, GetBoardX, GetBoardY;
      forall k | 0 <= k < 64
        ensures PawnOk(r, k)
      {
        assert PawnOk(c, k);
      }
    }
  }

  /** A legal pawn move leads onward. */
  lemma PawnGoesOn(b: Placement, id: nat, moved: bool, from: Square, to: Square)
    requires id < PIECES && IsPawn(KindOf(id)) && from.OnBoard() && to.OnBoard()
    requires PawnMove(b, KindOf(id), moved, from, to) && Onward(id, from.Index())
    ensures Onward(id, to.Index()) && to.Index() != HomeOf(id)
  {
    assert from.Index() / 8 == from.row && to.Index() / 8 == to.row;
    hide KindOf;
  }

  /** A piece sent from one square to another is not there yet. */
  lemma SentAway(p: PieceState, from: Square, to: Square)
    requires from.OnBoard() && to.OnBoard() && from != to
    ensures var r := MoveTo(PlaceAt(p, GetScreenX(from.col), GetScreenY(from.row)), GetScreenX(to.col), GetScreenY(to.row));
            r.moving && !r.AtTarget()
  {
    hide GetScreenX, GetScreenY;
    ScreenIsLinear(from.col);
    ScreenIsLinear(from.row);
    ScreenIsLinear(to.col);
    ScreenIsLinear(to.row);
  }

  /** The player's own move. */
  lemma DropFlags(c: Core, to: Square, p: PieceState)
    requires LocalInv(c) && c.drag.Some? && PawnInv(c) && to.OnBoard() && to != c.from
    requires p.moving && !p.AtTarget()
    requires IsPawn(KindOf(c.drag.value)) ==>
      PawnMove(Kinds(c), KindOf(c.drag.value), c.pieces[c.drag.value].pawnMoved, c.from, to)
    ensures var r := c.(pieces := c.pieces[c.drag.value := p], board := DropCells(c.board, c.drag.value, c.from, to));
            Shape(r) && PawnInv(r)
  {
    var id := c.drag.value;
    var r := c.(pieces := c.pieces[id := p], board := DropCells(c.board, id, c.from, to));
    assert c.board[c.from.Index()] == Some(id);
    assert PawnOk(c, c.from.Index());
    if OwnPawn(c, id) {
      PawnGoesOn(Kinds(c), id, c.pieces[id].pawnMoved, c.from, to);
    }
    hide KindOf, HomeOf, Onward, Painted, Kinds, OnScreen, PawnMove;
    forall k | 0 <= k < 64
      ensures PawnOk(r, k)
    {
      assert PawnOk(c, k);
      if k != to.Index() && k != c.from.Index() {
        assert c.board[k] != Some(id);
      }
    }
  }

  /** Fields that the flags do not depend on. */
  lemma OtherFields(c: Core, r: Core)
    requires Shape(c) && Shape(r) && PawnInv(c)
    requires r.board == c.board && r.pieces == c.pieces && r.player == c.player
    ensures PawnInv(r)
  {
    forall k | 0 <= k < 64
      ensures PawnOk(r, k)
    {
      assert PawnOk(c, k);
    }
    hide KindOf, HomeOf, Onward, FlagFits;
  }

  lemma ReleaseFlags(c: Core, x: U16, y: U16)
    requires LocalInv(c) && c.drag.Some? && PawnInv(c)
    ensures PawnInv(Release(c, x, y).core)
  {
    hide LocalInv, PawnInv, Shape, GetScreenX, GetScreenY, GetBoardX, GetBoardY, Kinds, PseudoLegal, PawnMove, KindOf;
    var to := Square(GetBoardX(x), GetBoardY(y));
    var id := c.drag.value;
    InvParts(c);
    var p := c.pieces[id].(priority := false, change := true);
    var home := PlaceAt(p, GetScreenX(c.from.col), GetScreenY(c.from.row));
    var r := Release(c, x, y).core;
    if DropAccepted(c, to) {
      DropIffLegal(c, to);
      LegalParts(c, to);
      SentAway(p, c.from, to);
      var q := MoveTo(home, GetScreenX(to.col), GetScreenY(to.row));
      DropFlags(c, to, q);
      OtherFields(c.(pieces := c.pieces[id := q], board := DropCells(c.board, id, c.from, to)), r);
    } else {
      HeldFlags(c, home);
      OtherFields(c.(pieces := c.pieces[id := home]), r);
    }
  }

  lemma InvParts(c: Core)
    requires LocalInv(c)
    ensures Shape(c) && c.from.OnBoard() && Distinct(c.board) && KindsFixed(c)
    ensures c.drag.Some? ==> c.drag.value < PIECES && |c.pieces| == PIECES && c.myTurn && PawnsSettled(c)
  {
  }

  lemma LegalParts(c: Core, to: Square)
    requires LocalInv(c) && c.drag.Some? && to.OnBoard()
    requires var p := c.pieces[c.drag.value]; PseudoLegal(Kinds(c), p.kind, p.pawnMoved, c.from, to)
    ensures to != c.from
    ensures IsPawn(KindOf(c.drag.value)) ==>
      PawnMove(Kinds(c), KindOf(c.drag.value), c.pieces[c.drag.value].pawnMoved, c.from, to)
  {
    hide Kinds, PawnMove, NothingBetween, KindOf;
  }

  lemma MouseFlags(c: Core, x: U16, y: U16, pressed: bool, released: bool)
    requires LocalInv(c) && InGame(c.state) && PawnInv(c)
    ensures PawnInv(OnPlayingMouse(c, x, y, pressed, released).core)
  {
    hide LocalInv, PawnInv, Dragged, Release, Shape;
    InvParts(c);
    DraggedFlags(c, x, y, pressed);
    DraggedKeeps(c, x, y, pressed);
    if released && Dragged(c, x, y, pressed).drag.Some? {
      ReleaseFlags(Dragged(c, x, y, pressed), x, y);
    }
  }

  lemma PlayingFlags(c: Core, event: Event, byte: Byte)
    requires LocalInv(c) && c.state == Playing && PawnInv(c) && ReadsFairly(c, byte) && !SnapsPawn(c, event)
    ensures PawnInv(OnPlaying(c, event, byte).core)
  {
    hide LocalInv, PawnInv, Shape, OnPlayingMouse, ReceiveByte, UpdateFrom, SnapsPawn, Distinct, KindsFixed;
    InvParts(c);
    var d := Noticed(c);
    OtherFields(c, d);
    NoticedParts(c);
    match event
    case NewFrame =>
      UpdateFlags(c);
      OtherFields(Updated(c), Updated(d));
      ReceiveFlags(Updated(d), byte);
    case Keyboard(scan) => OtherFields(c, OnPlaying(c, event, byte).core);
    case Mouse(x, y, pressed, released) =>
      ControlKeeps(c, d);
      MouseFlags(d, x, y, pressed, released);
  }

  /** Noticing the end of the game touches no field the parser reads. */
  lemma NoticedParts(c: Core)
    requires Shape(c) && c.state == Playing
    ensures var d := Noticed(c);
            && Shape(d) && InGame(d.state) && Updated(d).board == Updated(c).board && Updated(d).pieces == Updated(c).pieces
            && Updated(d).player == Updated(c).player && Updated(d).board == c.board
            && (forall byte :: ReadsFairly(c, byte) ==> ReadsFairly(Updated(d), byte))
  {
    hide UpdateFrom;
  }

  /** A fresh board fits for either player. */
  lemma FreshFlags(c: Core)
    requires Shape(c) && c.board == InitBoard() && c.pieces == InitPieces()
    ensures PawnInv(c)
  {
    forall k | 0 <= k < 64
      ensures PawnOk(c, k)
    {
      if c.board[k].Some? {
        assert k == HomeOf(c.board[k].value);
      }
    }
  }

  lemma FreshBefore(c: Core)
    requires LocalInv(c) && !InGame(c.state)
    ensures Shape(c) && c.board == InitBoard() && c.pieces == InitPieces()
  {
  }

  lemma SetupKeepsFresh(c: Core, event: Event, byte: Byte)
    requires LocalInv(c) && !InGame(c.state)
    ensures var r := Handle(c, event, byte).core; r.board == InitBoard() && r.pieces == InitPieces()
  {
    hide LocalInv, Shape, OnPlaying, InitBoard, InitPieces;
    FreshBefore(c);
  }

  lemma HandleFlags(c: Core, event: Event, byte: Byte)
    requires LocalInv(c) && PawnInv(c) && !SnapsPawn(c, event) && (c.state == Playing ==> ReadsFairly(c, byte))
    ensures PawnInv(Handle(c, event, byte).core)
  {
    hide LocalInv, PawnInv, OnPlaying, Shape, OnNameKey, OnWaitingFrame, OnChoosingMouse, OnWaitChoosingFrame, ReadsFairly, SnapsPawn;
    InvParts(c);
    if c.state == Playing {
      PlayingFlags(c, event, byte);
    } else if !InGame(c.state) {
      SetupKeepsFresh(c, event, byte);
      FreshFlags(Handle(c, event, byte).core);
    }
  }

  /** The piece stands away from its own square, wherever it is, with its flag
      down. */
  predicate Stuck(c: Core, id: nat)
    requires Shape(c) && id < PIECES
  {
    forall k :: 0 <= k < 64 && c.board[k] == Some(id) ==>
      k != HomeOf(id) && !c.pieces[id].moving && !c.pieces[id].pawnMoved
  }

  /** The condition is exact: whatever it reads, a frame that finds such a pawn
      leaves it, unless what it reads takes it, on a square not its own with the
      flag down. */
  lemma SnapBreaks(c: Core, byte: Byte, k: nat)
    requires LocalInv(c) && PawnInv(c) && SnapsPawn(c, NewFrame) && k < 64 && SentOff(c, k) && ReadsFairly(c, byte)
    ensures var r := Handle(c, NewFrame, byte).core;
            Shape(r) && Stuck(r, c.board[k].value) && (byte == 0 ==> r.board == c.board && !PawnInv(r))
  {
    hide LocalInv, UpdateFrom, KindOf, HomeOf, Onward, Distinct, KindsFixed, ReceiveByte, PawnInv, ReadsFairly;
    var id := c.board[k].value;
    InvParts(c);
    NoticedParts(c);
    UpdatedPiece(c, id);
    PawnAt(c, k);
    assert Some(id) in c.board;
    StuckAlone(Updated(c), id, k);
    StuckSame(Updated(c), Updated(Noticed(c)), id);
    ReceiveStuck(Updated(Noticed(c)), byte, id);
    var r := Handle(c, NewFrame, byte).core;
    if byte == 0 {
      ReadsNothing(Updated(Noticed(c)));
      StuckBreaks(r, id, k);
    }
  }

  lemma PawnAt(c: Core, k: nat)
    requires Shape(c) && PawnInv(c) && k < 64
    ensures PawnOk(c, k)
  {
    hide FlagFits, Onward, HomeOf;
  }

  lemma StuckAlone(c: Core, id: nat, k: nat)
    requires Shape(c) && Distinct(c.board) && k < 64 && c.board[k] == Some(id) && id < PIECES && k != HomeOf(id)
    requires !c.pieces[id].moving && !c.pieces[id].pawnMoved
    ensures Stuck(c, id)
  {
    hide HomeOf;
  }

  /** Stuck depends on the board and the piece's flags alone. */
  lemma StuckSame(c: Core, r: Core, id: nat)
    requires Shape(c) && Shape(r) && id < PIECES && Stuck(c, id) && r.board == c.board
    requires r.pieces[id].moving == c.pieces[id].moving && r.pieces[id].pawnMoved == c.pieces[id].pawnMoved
    ensures Stuck(r, id)
  {
    hide HomeOf;
  }

  /** The other player's move may take the piece, but does not move it. */
  lemma ReceiveStuck(c: Core, byte: Byte, id: nat)
    requires Shape(c) && id < PIECES && Stuck(c, id) && ReadsFairly(c, byte) && Owns(c.player, KindOf(id))
    ensures Stuck(ReceiveByte(c, byte), id)
  {
    hide HomeOf, GetScreenX, GetScreenY, MoveTo, DecodeSquare, KindOf;
  }

  lemma StuckBreaks(c: Core, id: nat, k: nat)
    requires Shape(c) && k < 64 && id < PIECES && c.board[k] == Some(id) && Stuck(c, id) && OwnPawn(c, id)
    ensures !PawnInv(c)
  {
    hide HomeOf, KindOf, Onward;
    assert !PawnOk(c, k);
  }

  /** A pawn found so stays so until its player's next move. */
  lemma HandleStuck(c: Core, event: Event, byte: Byte, id: nat)
    requires LocalInv(c) && InGame(c.state) && (c.state == Playing ==> ReadsFairly(c, byte))
    requires id < PIECES && Shape(c) && Stuck(c, id) && Owns(c.player, KindOf(id))
    requires Handle(c, event, byte).core.moves == c.moves
    ensures Stuck(Handle(c, event, byte).core, id)
  {
    hide LocalInv, UpdateFrom, KindOf, Stuck, Distinct, KindsFixed, ReceiveByte, ReadsFairly, OnPlayingMouse, Shape;
    InvParts(c);
    if c.state == Playing {
      var d := Noticed(c);
      NoticedParts(c);
      match event
      case NewFrame =>
        UpdatedPiece(c, id);
        FrameStuck(c, id);
        StuckSame(Updated(c), Updated(d), id);
        ReceiveStuck(Updated(d), byte, id);
      case Keyboard(scan) => StuckSame(c, OnPlaying(c, event, byte).core, id);
      case Mouse(x, y, pressed, released) =>
        StuckSame(c, d, id);
        MouseStuck(d, x, y, pressed, released, id);
    }
  }

  lemma FrameStuck(c: Core, id: nat)
    requires Shape(c) && Distinct(c.board) && id < PIECES && Stuck(c, id)
    ensures Stuck(Updated(c), id)
  {
    hide HomeOf, UpdateFrom, Distinct;
    UpdatedPiece(c, id);
  }

  lemma MouseStuck(c: Core, x: U16, y: U16, pressed: bool, released: bool, id: nat)
    requires Shape(c) && id < PIECES && Stuck(c, id) && OnPlayingMouse(c, x, y, pressed, released).core.moves == c.moves
    ensures Stuck(OnPlayingMouse(c, x, y, pressed, released).core, id)
  {
    hide Stuck, Dragged, Release, Shape;
    var d := Dragged(c, x, y, pressed);
    DraggedSame(c, x, y, pressed, id);
    StuckSame(c, d, id);
    if released && d.drag.Some? {
      ReleaseSame(d, x, y, id);
      StuckSame(d, Release(d, x, y).core, id);
    }
  }

  lemma DraggedSame(c: Core, x: U16, y: U16, pressed: bool, id: nat)
    requires Shape(c) && id < PIECES
    ensures var r := Dragged(c, x, y, pressed);
            && r.board == c.board && r.moves == c.moves && Shape(r)
            && r.pieces[id].moving == c.pieces[id].moving && r.pieces[id].pawnMoved == c.pieces[id].pawnMoved
  {
    hide GetBoardX, GetBoardY, Kinds, Painted;
  }

  lemma ReleaseSame(c: Core, x: U16, y: U16, id: nat)
    requires Shape(c) && id < PIECES && c.drag.Some? && Release(c, x, y).core.moves == c.moves
    ensures var r := Release(c, x, y).core;
            && r.board == c.board && Shape(r)
            && r.pieces[id].moving == c.pieces[id].moving && r.pieces[id].pawnMoved == c.pieces[id].pawnMoved
  {
    hide GetBoardX, GetBoardY, GetScreenX, GetScreenY, DropAccepted, MoveTo, DropCells;
  }

  // ---------------------------------------------------------------------
  // Runs

  /** In a run without corner moves a peer reads only moves of the other's
      pieces. */
  lemma ReadsOthersMoves(n: Net, event: Event)
    requires NetInv(true, n) && n.me.core.state == Playing
    ensures NetShape(n) && ReadsFairly(n.me.core, ByteRead(n, event))
  {
    hide NetInv, Shape, Transit, ReadsFairly;
    InvShape(true, n);
    ReadsZero(n.me.core);
    if ByteRead(n, event) != 0 {
      var from, to := FollowsTransit(n, event);
      TransitReads(n.me.core, n.you.core, Flow(Swap(n)), Flow(n), n.me.closed, from, to);
    }
  }

  lemma ReadsZero(c: Core)
    requires Shape(c)
    ensures ReadsFairly(c, 0)
  {
  }

  lemma TransitReads(p: Core, q: Core, f: seq<Byte>, g: seq<Byte>, pClosed: bool, from: Square, to: Square)
    requires Shape(p) && Shape(q) && from.OnBoard() && to.OnBoard()
    requires Transit(true, q, p, f, g, pClosed, from, to) && f != []
    ensures ReadsFairly(p, f[0])
  {
    hide Shape, MoveCells, TakesKing, BothKings, EncodeSquare, KindOn, Rest, CaughtUp;
    RestTail(f, from, to);
  }

  function View(first: bool, n: Net): Net { if first then n else Swap(n) }

  /** A peer snaps no pawn in the run. */
  ghost predicate NoSnap(first: bool, n: Net, s: Schedule)
    requires NetShape(n)
    decreases |s|
  {
    s == [] ||
    ((s[0].0 == first && s[0].1.Input? ==> !SnapsPawn(View(first, n).me.core, s[0].1.event)) &&
     NoSnap(first, Step(n, s[0].0, s[0].1), s[1..]))
  }

  /** n is a pair reached by an uncrossed run without corner moves, seen from a
      peer that snapped no pawn in it. */
  ghost predicate Unsnapped(first: bool, s: Schedule, n: Net) {
    Clean(true, InitNet(), s) && NoSnap(first, InitNet(), s) && n == View(first, Run(InitNet(), s))
  }

  lemma StepFlags(n: Net, first: bool, a: Action)
    requires NetInv(true, n) && Shape(n.me.core) && PawnInv(n.me.core)
    requires first && a.Input? ==> !SnapsPawn(n.me.core, a.event)
    ensures NetShape(n) && PawnInv(Step(n, first, a).me.core)
  {
    hide NetInv, LocalInv, Shape, PawnInv, Handle, SnapsPawn, Step, ReadsFairly;
    InvShape(true, n);
    InvLocal(true, n);
    StepCore(n, first, a);
    if first && a.Input? {
      if n.me.core.state == Playing {
        ReadsOthersMoves(n, a.event);
        HandleFlags(n.me.core, a.event, ByteRead(n, a.event));
      } else {
        var m := if n.me.core.state == WaitChoosingPlayer && a.event.NewFrame? && a.arrived > 0 then Receive(n) else n;
        HandleFlags(n.me.core, a.event, ByteRead(m, a.event));
      }
    }
  }

  lemma {:induction false} RunFlags(first: bool, n: Net, s: Schedule)
    requires NetInv(true, n) && NetShape(n) && Clean(true, n, s) && NoSnap(first, n, s)
    requires Shape(View(first, n).me.core) && PawnInv(View(first, n).me.core)
    ensures Shape(View(first, Run(n, s)).me.core) && PawnInv(View(first, Run(n, s)).me.core)
    decreases |s|
  {
    hide NetInv, PawnInv, Step, Crossing, CornerMove, SnapsPawn, Shape;
    if s != [] {
      ViewFlags(first, n, s[0].0, s[0].1);
      StepKeeps(true, n, s[0].0, s[0].1);
      RunFlags(first, Step(n, s[0].0, s[0].1), s[1..]);
    }
  }

  lemma ViewFlags(first: bool, n: Net, turn: bool, a: Action)
    requires NetInv(true, n) && NetShape(n) && Shape(View(first, n).me.core) && PawnInv(View(first, n).me.core)
    requires turn == first && a.Input? ==> !SnapsPawn(View(first, n).me.core, a.event)
    ensures Shape(View(first, Step(n, turn, a)).me.core) && PawnInv(View(first, Step(n, turn, a)).me.core)
  {
    hide NetInv, PawnInv, SnapsPawn, Shape, Act;
    SwapKeeps(true, n);
    StepFlags(View(first, n), turn == first, a);
    assert Swap(Swap(n)) == n;
  }

  lemma UnsnappedInv(first: bool, s: Schedule, n: Net)
    requires Unsnapped(first, s, n)
    ensures NetInv(true, n) && NetShape(n) && Shape(n.me.core) && PawnInv(n.me.core)
  {
    hide NetInv, LocalInv, PawnInv, Run, Clean, NoSnap, InitBoard, InitPieces;
    InitShape();
    InitialNetInv(true);
    FreshFlags(InitCore());
    RunFlags(first, InitNet(), s);
    RunKeeps(true, InitNet(), s);
    SwapKeeps(true, Run(InitNet(), s));
    InvShape(true, n);
  }

  /** In every run without corner moves in which the peer snaps no pawn of its
      own, its pawns' flags say on its turn exactly that they have left their
      squares, so a double step is a first move. */
  lemma FlagMeansMoved(first: bool, s: Schedule, n: Net, k: nat)
    requires Unsnapped(first, s, n) && n.me.core.myTurn && k < 64
    ensures Shape(n.me.core)
    ensures n.me.core.board[k].Some? && OwnPawn(n.me.core, n.me.core.board[k].value) ==>
      (n.me.core.pieces[n.me.core.board[k].value].pawnMoved <==> k != HomeOf(n.me.core.board[k].value))
  {
    hide NetInv, LocalInv, PawnInv, Unsnapped, OwnPawn;
    UnsnappedInv(first, s, n);
    InvLocal(true, n);
    TurnParts(n.me.core);
    var c := n.me.core;
    if c.board[k].Some? && OwnPawn(c, c.board[k].value) {
      SettledFlags(c, k);
    }
  }

  lemma TurnParts(c: Core)
    requires LocalInv(c) && c.myTurn
    ensures Shape(c) && PawnsSettled(c) && KindsFixed(c) && |c.board| == 64
  {
  }

  /** A step of either peer, as the first one sees it. */
  lemma StepStuck(n: Net, first: bool, a: Action, id: nat)
    requires NetInv(true, n) && Shape(n.me.core) && InGame(n.me.core.state)
    requires id < PIECES && Stuck(n.me.core, id) && Owns(n.me.core.player, KindOf(id))
    ensures NetShape(n)
    ensures var r := Step(n, first, a).me.core;
            && r.moves >= n.me.core.moves && InGame(r.state) && r.player == n.me.core.player
            && (r.moves == n.me.core.moves ==> Stuck(r, id))
  {
    hide NetInv, LocalInv, Shape, Stuck, Handle, Step, ReadsFairly, KindOf;
    InvShape(true, n);
    InvLocal(true, n);
    StepCore(n, first, a);
    if first && a.Input? {
      var c, byte := n.me.core, ByteRead(n, a.event);
      if c.state == Playing {
        ReadsOthersMoves(n, a.event);
      }
      InGameFields(c, a.event, byte);
      if Handle(c, a.event, byte).core.moves == c.moves {
        HandleStuck(c, a.event, byte, id);
      }
    }
  }

  lemma InGameFields(c: Core, event: Event, byte: Byte)
    requires LocalInv(c) && InGame(c.state) && (!event.NewFrame? ==> byte == 0)
    ensures Shape(c)
    ensures var r := Handle(c, event, byte).core; r.moves >= c.moves && InGame(r.state) && r.player == c.player
  {
    hide LocalInv, Shape, Handle, Drops, Quiet, Receives;
    InvParts(c);
    if c.state == Playing {
      var from, to := PlayingSummary(c, event, byte);
      var r := Handle(c, event, byte).core;
      PlayingGoesOn(c, event, byte);
      if Drops(c, r, from, to) {
        DropsControl(c, r, from, to);
      } else if Quiet(c, r) {
        QuietFields(c, r);
      } else {
        ReceivesControl(c, r, byte);
      }
    } else {
      SetupFields(c, event, byte);
    }
  }

  lemma FirstShape(n: Net)
    requires NetShape(n)
    ensures Shape(n.me.core) && Shape(n.you.core)
  {
  }

  lemma {:induction false} RunStuck(n: Net, u: Schedule, id: nat)
    requires NetInv(true, n) && NetShape(n) && Clean(true, n, u) && Shape(n.me.core) && InGame(n.me.core.state)
    requires id < PIECES && Stuck(n.me.core, id) && Owns(n.me.core.player, KindOf(id))
    ensures Shape(Run(n, u).me.core) && Run(n, u).me.core.moves >= n.me.core.moves
    ensures Run(n, u).me.core.moves == n.me.core.moves ==> Stuck(Run(n, u).me.core, id)
    decreases |u|
  {
    hide NetInv, NetShape, Stuck, Step, Crossing, CornerMove, Shape, KindOf;
    if u == [] {
      return;
    }
    var m := Step(n, u[0].0, u[0].1);
    StepStuck(n, u[0].0, u[0].1, id);
    StepKeeps(true, n, u[0].0, u[0].1);
    FirstShape(m);
    if m.me.core.moves == n.me.core.moves {
      RunStuck(m, u[1..], id);
    } else {
      MovesGrow(m, u[1..]);
    }
    FirstShape(Run(n, u));
  }

  lemma {:induction false} MovesGrow(n: Net, u: Schedule)
    requires NetInv(true, n) && NetShape(n) && Clean(true, n, u) && InGame(n.me.core.state)
    ensures Run(n, u).me.core.moves >= n.me.core.moves
    decreases |u|
  {
    hide NetInv, NetShape, Step, Crossing, CornerMove, Shape, LocalInv, Handle;
    if u != [] {
      var m := Step(n, u[0].0, u[0].1);
      StepKeeps(true, n, u[0].0, u[0].1);
      StepCore(n, u[0].0, u[0].1);
      InvLocal(true, n);
      if u[0].0 && u[0].1.Input? {
        InGameFields(n.me.core, u[0].1.event, ByteRead(n, u[0].1.event));
      }
      MovesGrow(m, u[1..]);
    }
  }

  /** What such a frame does lasts: in every continuation without corner moves,
      until the player's next own move, the pawn, unless it has been taken,
      stands away from its square with its flag down, so on that turn the flag
      is wrong and the pawn may make another double step. */
  lemma SnapLasts(first: bool, s: Schedule, n: Net, k: nat, u: Schedule)
    requires Unsnapped(first, s, n) && NetShape(n) && SnapsPawn(n.me.core, NewFrame) && k < 64 && SentOff(n.me.core, k)
    requires Clean(true, Step(n, true, Input(NewFrame, 0)), u)
    ensures var m := Step(n, true, Input(NewFrame, 0));
            var r := Run(m, u);
            Shape(r.me.core) && (r.me.core.moves == m.me.core.moves ==> Stuck(r.me.core, n.me.core.board[k].value))
  {
    hide NetInv, LocalInv, PawnInv, Run, Clean, NoSnap, Stuck, SnapsPawn, ReadsFairly, Handle, Step, Shape, KindOf, IsPawn;
    UnsnappedInv(first, s, n);
    InvLocal(true, n);
    SnapIsPlaying(n.me.core);
    var id := n.me.core.board[k].value;
    ReadsOthersMoves(n, NewFrame);
    var byte := ByteRead(n, NewFrame);
    SnapBreaks(n.me.core, byte, k);
    InGameFields(n.me.core, NewFrame, byte);
    StepCore(n, true, Input(NewFrame, 0));
    FramesCross(n);
    StepKeeps(true, n, true, Input(NewFrame, 0));
    RunStuck(Step(n, true, Input(NewFrame, 0)), u, id);
  }

  lemma SnapIsPlaying(c: Core)
    requires SnapsPawn(c, NewFrame)
    ensures c.state == Playing && |c.board| == 64
  {
  }

  lemma FramesCross(n: Net)
    requires NetShape(n)
    ensures !Crossing(n, Input(NewFrame, 0)) && (n.me.core.state == Playing ==> !CornerMove(n, Input(NewFrame, 0)))
  {
    hide Shape, UpdateFrom, ReceiveByte;
  }

  /** So in such a run a release sends a move exactly when the rules allow it,
      with "first move" read as in Article 3.7: the pawn is on its own
      square. */
  lemma SentMovesObeyTheLaws(first: bool, s: Schedule, n: Net, x: U16, y: U16, pressed: bool)
    requires Unsnapped(first, s, n)
    requires Shape(n.me.core) && n.me.core.state == Playing && Dragged(Noticed(n.me.core), x, y, pressed).drag.Some?
    ensures var d := Dragged(Noticed(n.me.core), x, y, pressed);
            var kind, left := d.pieces[d.drag.value].kind, d.from.Index() != HomeOf(d.drag.value);
            var to := Square(GetBoardX(x), GetBoardY(y));
            && d.board == n.me.core.board && d.board[d.from.Index()] == d.drag
            && (Handle(n.me.core, Mouse(x, y, pressed, true), 0).send != [] <==>
                  && to.OnBoard() && PseudoLegal(Kinds(n.me.core), kind, left, d.from, to)
                  && !WhitePawnTakesKing(Kinds(n.me.core), kind, d.from, to))
  {
    hide NetInv, LocalInv, Run, Clean, NoSnap, InitNet, Handle, PseudoLegal, WhitePawnTakesKing, Kinds, GetBoardX, GetBoardY, Dragged, Shape;
    var c := n.me.core;
    var d := Dragged(Noticed(c), x, y, pressed);
    var to := Square(GetBoardX(x), GetBoardY(y));
    ReachedStrict(s, n);
    ReachedInv(true, s, n);
    InvLocal(true, n);
    SentMovesAreLegal(s, n, x, y, pressed);
    HeldPiece(c, x, y, pressed);
    FlagMeansMoved(first, s, n, d.from.Index());
    if to.OnBoard() && !IsPawn(d.pieces[d.drag.value].kind) {
      FlagIsForPawns(Kinds(c), d.pieces[d.drag.value].kind, d.from, to);
    }
  }

  /** What is held after the first half of a mouse event. */
  lemma HeldPiece(c: Core, x: U16, y: U16, pressed: bool)
    requires LocalInv(c) && c.state == Playing && Shape(c) && Dragged(Noticed(c), x, y, pressed).drag.Some?
    ensures var d := Dragged(Noticed(c), x, y, pressed);
            && c.myTurn && d.board == c.board && d.from.OnBoard() && c.board[d.from.Index()] == d.drag
            && d.drag.value < PIECES && |c.pieces| == |d.pieces| == PIECES
            && d.pieces[d.drag.value].kind == KindOf(d.drag.value) && Owns(c.player, KindOf(d.drag.value))
            && d.pieces[d.drag.value].pawnMoved == c.pieces[d.drag.value].pawnMoved
  {
    ControlKeeps(c, Noticed(c));
    DraggedKeeps(Noticed(c), x, y, pressed);
    hide Painted, Kinds, OnScreen, Distinct, GetBoardX, GetBoardY, KindOf;
  }

  lemma FlagIsForPawns(b: Placement, kind: Kind, s: Square, to: Square)
    requires to.OnBoard() && !IsPawn(kind)
    ensures PseudoLegal(b, kind, true, s, to) <==> PseudoLegal(b, kind, false, s, to)
  {
  }
}
