/** The two boards as positions of one game: in every run without corner moves
    there is a record of pseudo-legal moves, made by White and Black in turn,
    whose positions the two boards show. */
module GameRecord {
  import opened Common
  import opened Codec
  import opened Game
  import opened GameInvariants
  import opened HandlerSummary
  import opened Network
  import opened Protocol
  import opened NetworkInvariant
  import opened Theorems
  import opened Handshake

  type Ply = m: (Square, Square) | m.0.OnBoard() && m.1.OnBoard() witness (Square(0, 0), Square(0, 0))

  /** The position after the moves of a record. */
  function Position(rec: seq<Ply>): (b: seq<Option<nat>>)
    ensures |b| == 64
    decreases |rec|
  {
    if rec == [] then InitBoard()
    else MoveCells(Position(rec[..|rec| - 1]), rec[|rec| - 1].0, rec[|rec| - 1].1)
  }

  /** White makes the first move, and the players alternate. */
  function Mover(k: nat): Player { if k % 2 == 0 then White else Black }

  /** Every move of the record is a pseudo-legal move of the player to move. */
  ghost predicate LegalGame(rec: seq<Ply>) {
    forall k :: 0 <= k < |rec| ==> LegalAt(rec, k)
  }

  ghost predicate LegalAt(rec: seq<Ply>, k: nat)
    requires k < |rec|
  {
    Fair(Mover(k), Position(rec[..k]), rec[k].0, rec[k].1)
  }

  /** The board shows the last position; only that of a player who did not make
      the last move may still show the one before. */
  predicate Shows(c: Core, rec: seq<Ply>) {
    || c.board == Position(rec)
    || (rec != [] && c.board == Position(rec[..|rec| - 1]) && !(InGame(c.state) && c.player == Mover(|rec| - 1)))
  }

  ghost predicate Recorded(n: Net, rec: seq<Ply>) {
    && LegalGame(rec) && |rec| == n.me.core.moves + n.you.core.moves
    && Shows(n.me.core, rec) && Shows(n.you.core, rec)
  }

  lemma Longer(rec: seq<Ply>, from: Square, to: Square)
    requires LegalGame(rec) && from.OnBoard() && to.OnBoard() && Fair(Mover(|rec|), Position(rec), from, to)
    ensures LegalGame(rec + [(from, to)]) && Position(rec + [(from, to)]) == MoveCells(Position(rec), from, to)
  {
    hide Fair, MoveCells, InitBoard, LegalAt, Mover;
    var r := rec + [(from, to)];
    assert r[..|rec|] == rec;
    forall k | 0 <= k < |r|
      ensures LegalAt(r, k)
    {
      LegalKept(rec, from, to, k);
    }
  }

  lemma LegalKept(rec: seq<Ply>, from: Square, to: Square, k: nat)
    requires k <= |rec| && from.OnBoard() && to.OnBoard() && Fair(Mover(|rec|), Position(rec), from, to)
    requires k < |rec| ==> LegalAt(rec, k)
    ensures LegalAt(rec + [(from, to)], k)
  {
    hide Fair, Position, Mover;
    assert (rec + [(from, to)])[..k] == rec[..k];
    assert rec[..|rec|] == rec;
  }

  /** A player on turn sees the last position and is the one to move. */
  lemma OnTurn(n: Net, rec: seq<Ply>)
    requires NetInv(true, n) && Recorded(n, rec) && n.me.core.state == Playing && n.me.core.myTurn
    ensures n.me.core.board == Position(rec) && n.me.core.player == Mover(|rec|)
    ensures n.you.core.board == Position(rec) && !(InGame(n.you.core.state) && n.you.core.player == Mover(|rec|))
  {
    hide LocalInv, LegalGame, Position, Chosen, Transit, Phase;
    InvShape(true, n);
    var p, q, f, g := n.me.core, n.you.core, Flow(n), Flow(Swap(n));
    if Phase(true, p, q, f, g, n.you.closed) {
      var from, to := PhaseSquares(true, p, q, f, g, n.you.closed);
      LeaderOnTurn(p, q, f, g, n.you.closed, from, to);
    } else {
      var from, to := PhaseSquares(true, q, p, g, f, n.me.closed);
      FollowerOnTurn(q, p, g, f, n.me.closed, from, to);
    }
  }

  /** What the phases say of the leading peer on turn. */
  lemma LeaderOnTurn(p: Core, q: Core, f: seq<Byte>, g: seq<Byte>, qClosed: bool, from: Square, to: Square)
    requires Shape(p) && Shape(q) && from.OnBoard() && to.OnBoard() && p.state == Playing && p.myTurn
    requires Setup(p, q, f, g) || Holder(true, p, q, f, g) || Chosen(true, p, q, f, g, from, to) ||
             Transit(true, p, q, f, g, qClosed, from, to)
    ensures p.board == q.board
    ensures InGame(q.state) ==> Opposite(p, q) && ToMove(p, q)
    ensures !InGame(q.state) ==> p.player == White && p.moves == 0 && q.moves == 0
  {
    hide Shape, Ahead, MoveMessage, Rest;
  }

  lemma FollowerOnTurn(q: Core, p: Core, f: seq<Byte>, g: seq<Byte>, pClosed: bool, from: Square, to: Square)
    requires Shape(p) && Shape(q) && from.OnBoard() && to.OnBoard() && p.state == Playing && p.myTurn
    ensures !Setup(q, p, f, g) && !Holder(true, q, p, f, g) && !Chosen(true, q, p, f, g, from, to) &&
            !Transit(true, q, p, f, g, pClosed, from, to)
  {
    hide Shape, Ahead, MoveMessage, Rest;
  }

  // ---------------------------------------------------------------------
  // One event

  /** Nothing but the screen and the control fields changes. */
  lemma SameRecord(c: Core, r: Core, rec: seq<Ply>)
    requires Shows(c, rec) && r.board == c.board && r.player == c.player && (InGame(r.state) ==> InGame(c.state))
    ensures Shows(r, rec)
  {
    hide Position;
  }

  /** The record is the old one, or has a move more: one the player on turn may
      make with the piece's flag as it is. */
  ghost predicate Grew(c: Core, rec: seq<Ply>, more: seq<Ply>) {
    || more == rec
    || (&& Shape(c) && c.state == Playing && c.myTurn && |more| == |rec| + 1 && more[..|rec|] == rec && c.board == Position(rec)
        && KindOn(c.board, more[|rec|].0).Some? && Owns(c.player, KindOn(c.board, more[|rec|].0).value)
        && LegalFor(c.board, FlagOn(c, more[|rec|].0), more[|rec|].0, more[|rec|].1))
  }

  /** A drop adds its move to the record. */
  lemma DropRecords(n: Net, r: Core, rec: seq<Ply>, from: Square, to: Square)
    requires NetInv(true, n) && Recorded(n, rec) && n.me.core.state == Playing
    requires Shape(n.me.core) && Drops(n.me.core, r, from, to)
    ensures Recorded(n.(me := n.me.(core := r)), rec + [(from, to)])
    ensures Grew(n.me.core, rec, rec + [(from, to)])
  {
    hide NetInv, LegalGame, Position, Fair, MoveCells, LegalFor, KindOn, TakesKing, Movable;
    OnTurn(n, rec);
    DropIsFair(n.me.core, r, from, to);
    Longer(rec, from, to);
    assert (rec + [(from, to)])[..|rec|] == rec;
  }

  /** A byte read completes the move on record, or leaves the board alone. */
  lemma ReadRecords(n: Net, event: Event, rec: seq<Ply>)
    requires NetInv(true, n) && Recorded(n, rec) && n.me.core.state == Playing && ByteRead(n, event) != 0
    requires Shape(n.me.core)
    requires var r := Handle(n.me.core, event, ByteRead(n, event)).core;
             Receives(n.me.core, r, ByteRead(n, event)) && InGame(r.state)
    ensures var r := Handle(n.me.core, event, ByteRead(n, event)).core;
            Recorded(n.(me := n.me.(core := r)), rec)
  {
    hide NetInv, LegalGame, Position, Fair, MoveCells, Transit, Handle, Receives, Shape;
    var r := Handle(n.me.core, event, ByteRead(n, event)).core;
    ReceivesControl(n.me.core, r, ByteRead(n, event));
    if r.board != n.me.core.board {
      var from, to := ReceivedIsFair(n, event);
      var src, dst := FollowsTransit(n, event);
      LastMover(n.you.core, n.me.core, Flow(Swap(n)), Flow(n), n.me.closed, src, dst, rec);
    }
  }

  lemma ReceivesControl(c: Core, r: Core, byte: Byte)
    requires Shape(c) && Receives(c, r, byte)
    ensures r.moves == c.moves && r.player == c.player
  {
    hide Shape, MoveCells, TakesKing;
  }

  /** The peer whose move is under way made the last move. */
  lemma LastMover(p: Core, q: Core, f: seq<Byte>, g: seq<Byte>, qClosed: bool, from: Square, to: Square, rec: seq<Ply>)
    requires Shape(p) && Shape(q) && from.OnBoard() && to.OnBoard() && Transit(true, p, q, f, g, qClosed, from, to)
    requires Shows(p, rec) && |rec| == p.moves + q.moves
    ensures p.board == Position(rec)
  {
    hide Shape, Parsed, Rest, Position;
  }

  /** Before the game the only move on record is White's first, and a peer that
      enters the game then is Black. */
  lemma EnteringIsBlack(n: Net, event: Event, rec: seq<Ply>)
    requires NetInv(true, n) && Recorded(n, rec) && !InGame(n.me.core.state) && rec != []
    ensures Shape(n.me.core) && n.me.core.moves == 0 && |rec| == 1
    ensures var r := Handle(n.me.core, event, ByteRead(n, event)).core; InGame(r.state) ==> r.player == Black
  {
    hide LocalInv, LegalGame, Position, Chosen, Transit, Phase, Handle, Shape, Setup;
    InvShape(true, n);
    InvLocal(true, n);
    var p, q, f, g := n.me.core, n.you.core, Flow(n), Flow(Swap(n));
    FreshMoves(p);
    if !InGame(q.state) {
      FreshMoves(q);
    }
    TakeFlow(n, event);
    if Phase(true, p, q, f, g, n.you.closed) {
      var from, to := PhaseSquares(true, p, q, f, g, n.you.closed);
      Outside(p, q, f, g, n.you.closed, from, to);
      SetupIsEarly(p, q, f, g);
    } else {
      var from, to := PhaseSquares(true, q, p, g, f, n.me.closed);
      SetupIsEarly(q, p, g, f);
      Inside(q, p, g, f, n.me.closed, from, to);
      ColourIsBlack(q, p, g, f, from, to, event, ByteRead(n, event));
    }
  }

  lemma Outside(p: Core, q: Core, f: seq<Byte>, g: seq<Byte>, qClosed: bool, from: Square, to: Square)
    requires Shape(p) && Shape(q) && from.OnBoard() && to.OnBoard() && !InGame(p.state)
    ensures !Holder(true, p, q, f, g) && !Chosen(true, p, q, f, g, from, to) && !Transit(true, p, q, f, g, qClosed, from, to)
  {
    hide Shape;
  }

  lemma Inside(p: Core, q: Core, f: seq<Byte>, g: seq<Byte>, qClosed: bool, from: Square, to: Square)
    requires Shape(p) && Shape(q) && from.OnBoard() && to.OnBoard() && !InGame(q.state)
    ensures !Holder(true, p, q, f, g) && !Transit(true, p, q, f, g, qClosed, from, to)
  {
    hide Shape;
  }

  lemma ColourIsBlack(p: Core, q: Core, f: seq<Byte>, g: seq<Byte>, from: Square, to: Square, event: Event, byte: Byte)
    requires Shape(p) && Shape(q) && from.OnBoard() && to.OnBoard() && Chosen(true, p, q, f, g, from, to) && p.moves > 0
    requires byte == 0 || (Reads(q, event) && f != [] && byte == f[0])
    ensures p.moves == 1
    ensures var r := Handle(q, event, byte).core; InGame(r.state) ==> r.player == Black
  {
    hide Shape, Ahead, MoveMessage, OnPlaying, OnNameKey, OnChoosingMouse;
  }

  lemma SetupFields(c: Core, event: Event, byte: Byte)
    requires Shape(c) && c.state != Playing
    ensures var r := Handle(c, event, byte).core;
            r.board == c.board && r.moves == c.moves && (InGame(c.state) ==> r == c)
  {
    hide OnPlaying, Shape, ClickedPlayer;
  }

  /** An event of the first peer. */
  lemma EventRecords(n: Net, event: Event, rec: seq<Ply>) returns (more: seq<Ply>)
    requires NetInv(true, n) && Recorded(n, rec)
    ensures Shape(n.me.core)
    ensures Recorded(n.(me := n.me.(core := Handle(n.me.core, event, ByteRead(n, event)).core)), more)
    ensures Grew(n.me.core, rec, more)
  {
    hide NetInv, LegalGame, Position, Handle, Shape, Drops, Receives, Quiet, LocalInv, Grew;
    Unchanged(n.me.core, rec);
    InvShape(true, n);
    InvLocal(true, n);
    InvBoard(n.me.core);
    more := rec;
    var c, byte := n.me.core, ByteRead(n, event);
    var o := Handle(c, event, byte);
    if c.state == Playing {
      var from, to := PlayingSummary(c, event, byte);
      PlayingGoesOn(c, event, byte);
      if Drops(c, o.core, from, to) && byte == 0 {
        more := rec + [(from, to)];
        DropRecords(n, o.core, rec, from, to);
      } else if byte == 0 {
        QuietFields(c, o.core);
        SameRecord(c, o.core, rec);
      } else {
        ReadRecords(n, event, rec);
      }
    } else {
      SetupFields(c, event, byte);
      if !InGame(c.state) && rec != [] {
        EnteringIsBlack(n, event, rec);
      }
    }
  }

  lemma Unchanged(c: Core, rec: seq<Ply>)
    ensures Grew(c, rec, rec)
  {
  }

  lemma PlayingGoesOn(c: Core, event: Event, byte: Byte)
    requires Shape(c) && c.state == Playing
    ensures InGame(Handle(c, event, byte).core.state)
  {
    hide Shape;
    HandleFollows(c, event, byte);
  }

  lemma QuietFields(c: Core, r: Core)
    requires Quiet(c, r)
    ensures r.board == c.board && r.player == c.player && r.moves == c.moves
  {
  }

  // ---------------------------------------------------------------------
  // Runs

  lemma StepRecords(n: Net, first: bool, a: Action, rec: seq<Ply>) returns (more: seq<Ply>)
    requires NetInv(true, n) && Recorded(n, rec)
    ensures NetShape(n) && Recorded(Step(n, first, a), more)
    ensures Grew(if first then n.me.core else n.you.core, rec, more)
  {
    hide NetInv, LegalGame, Position, Handle, Shape, Shows, Step, Grew;
    Unchanged(if first then n.me.core else n.you.core, rec);
    InvShape(true, n);
    SwapKeeps(true, n);
    var v := if first then n else Swap(n);
    StepCore(v, true, a);
    StepOther(v, a);
    StepSwaps(n, first, a);
    more := rec;
    if a.Input? {
      if v.me.core.state == WaitChoosingPlayer && a.event.NewFrame? && a.arrived > 0 {
        NetworkInvariant.ReceiveKeeps(true, v);
        more := EventRecords(Receive(v), a.event, rec);
      } else {
        more := EventRecords(v, a.event, rec);
      }
    }
  }

  lemma StepOther(n: Net, a: Action)
    requires NetShape(n)
    ensures Step(n, true, a).you.core == n.you.core
  {
    ActFollows(n, a);
    hide Act;
  }

  lemma StepSwaps(n: Net, first: bool, a: Action)
    requires NetShape(n)
    ensures NetShape(Swap(n)) && Step(n, first, a) == if first then Step(n, true, a) else Swap(Step(Swap(n), true, a))
  {
    hide Act;
  }

  lemma {:induction false} RunRecords(n: Net, s: Schedule, rec: seq<Ply>) returns (more: seq<Ply>)
    requires NetInv(true, n) && Recorded(n, rec) && NetShape(n) && Clean(true, n, s)
    ensures Recorded(Run(n, s), more)
    decreases |s|
  {
    hide NetInv, NetShape, Recorded, Step, Crossing, CornerMove;
    more := rec;
    if s != [] {
      StepKeeps(true, n, s[0].0, s[0].1);
      more := StepRecords(n, s[0].0, s[0].1, rec);
      more := RunRecords(Step(n, s[0].0, s[0].1), s[1..], more);
    }
  }

  /** In every run in which no handshakes cross and no move touches (0, 0) there
      is a record of pseudo-legal moves, made by White and Black in turn, one
      for each move made: the board of the player who moved last shows the
      position it leads to, and the other board shows that position or the one
      before the last move. */
  lemma BoardsShowOneGame(s: Schedule, n: Net) returns (rec: seq<Ply>)
    requires Reached(true, s, n)
    ensures LegalGame(rec) && |rec| == n.me.core.moves + n.you.core.moves
    ensures Shows(n.me.core, rec) && Shows(n.you.core, rec)
  {
    hide NetInv, Run, Clean, InitNet, LegalGame, Shows;
    InitShape();
    InitialNetInv(true);
    NoRecord();
    rec := RunRecords(InitNet(), s, []);
  }

  lemma NoRecord()
    ensures Recorded(InitNet(), [])
  {
    hide InitBoard, InitPieces;
  }

  /** With nothing under way between two players both boards show the position
      at the end of the record. */
  lemma QuietBoardsShowIt(s: Schedule, n: Net) returns (rec: seq<Ply>)
    requires Reached(true, s, n) && InGame(n.me.core.state) && InGame(n.you.core.state)
    requires Flow(n) == [] && Flow(Swap(n)) == []
    ensures LegalGame(rec) && |rec| == n.me.core.moves + n.you.core.moves
    ensures n.me.core.board == n.you.core.board == Position(rec)
  {
    hide LegalGame, Position;
    rec := BoardsShowOneGame(s, n);
    QuietBoardsEqual(s, n);
    ReachedStrict(s, n);
    OneSided(s, n);
    hide Reached;
  }
}
