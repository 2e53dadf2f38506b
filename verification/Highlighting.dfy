/** possiblePosition: painting the squares of a piece into the board buffer.
    The board is an array of 64 piece pointers; reads past it return whatever
    lies there, given by `past`. The painted squares do not depend on it. */
module Highlighting {
  import opened Common
  import opened Chess
  import opened Framebuffer
  import opened Pieces

  /** Kinds of the pieces the cells point to. */
  ghost function KindsOf(board: array<Piece?>): (b: Placement)
    requires board.Length == 64
    reads board
  {
    seq(64, k requires 0 <= k < 64 reads board => if board[k] != null then Some(board[k].kind) else None)
  }

  /** Is the pointer at an index non-null, wherever the index points? */
  function Peek(board: array<Piece?>, past: int -> bool, index: int): bool
    requires board.Length == 64
    reads board
  {
    if 0 <= index < 64 then board[index] != null else past(index)
  }

  /** The squares of a ray, up to a bound on the number of steps. */
  ghost function RaySet(b: Placement, s: Square, dx: int, dy: int, bound: int): set<Square> {
    set k | 0 <= k < 64 && RayHits(b, s, dx, dy, bound, SquareAt(k)) :: SquareAt(k)
  }

  lemma RaySetIff(b: Placement, s: Square, dx: int, dy: int, bound: int, to: Square)
    requires to.OnBoard()
    ensures to in RaySet(b, s, dx, dy, bound) <==> RayHits(b, s, dx, dy, bound, to)
  {
    assert SquareAt(to.Index()) == to;
  }

  /** The flag of a ray says, as long as the ray is on the board, that nothing
      has been met yet. */
  ghost predicate FlagOk(b: Placement, s: Square, dx: int, dy: int, i: int, flag: bool) {
    Along(s, dx, dy, i - 1).OnBoard() ==> (flag <==> RayClear(b, s, dx, dy, i))
  }

  /** What one more step hits. */
  lemma RayStep(b: Placement, s: Square, dx: int, dy: int, i: int, flag: bool, to: Square)
    requires s.OnBoard() && -1 <= dx <= 1 && -1 <= dy <= 1 && (dx != 0 || dy != 0) && 0 < i
    requires FlagOk(b, s, dx, dy, i, flag) && to.OnBoard()
    ensures RayHits(b, s, dx, dy, i + 1, to) <==> RayHits(b, s, dx, dy, i, to) || (flag && to == Along(s, dx, dy, i))
  {
    if to == Along(s, dx, dy, i) && flag {
      assert RayClear(b, s, dx, dy, i);
    }
    hide Occupied;
  }

  lemma FlagStep(b: Placement, s: Square, dx: int, dy: int, i: int, flag: bool)
    requires s.OnBoard() && -1 <= dx <= 1 && -1 <= dy <= 1 && (dx != 0 || dy != 0) && 0 < i
    requires FlagOk(b, s, dx, dy, i, flag)
    ensures FlagOk(b, s, dx, dy, i + 1, flag && !Occupied(b, Along(s, dx, dy, i)))
  {
  }

  /** One more step of a ray. */
  lemma RayGrows(b: Placement, s: Square, dx: int, dy: int, i: int, flag: bool)
    requires s.OnBoard() && -1 <= dx <= 1 && -1 <= dy <= 1 && (dx != 0 || dy != 0) && 0 < i
    requires FlagOk(b, s, dx, dy, i, flag)
    ensures RaySet(b, s, dx, dy, i + 1) ==
            RaySet(b, s, dx, dy, i) + (if flag && Along(s, dx, dy, i).OnBoard() then {Along(s, dx, dy, i)} else {})
    ensures FlagOk(b, s, dx, dy, i + 1, flag && !Occupied(b, Along(s, dx, dy, i)))
  {
    hide RayHits, RayClear, FlagOk, Occupied, Along;
    FlagStep(b, s, dx, dy, i, flag);
    forall to: Square | to.OnBoard()
      ensures to in RaySet(b, s, dx, dy, i + 1) <==> to in RaySet(b, s, dx, dy, i) || (flag && to == Along(s, dx, dy, i))
    {
      RaySetIff(b, s, dx, dy, i, to);
      RaySetIff(b, s, dx, dy, i + 1, to);
      RayStep(b, s, dx, dy, i, flag, to);
    }
  }

  /** The two branches of the source for one diagonal and one i: paint while the
      flag holds, and lower it at the first piece. */
  method DiagonalStep(m: array<Byte>, board: array<Piece?>, past: int -> bool,
                      s: Square, dx: int, dy: int, i: int, flag: bool)
    returns (flag': bool)
    requires m.Length == BYTES && board.Length == 64 && s.OnBoard() && 0 < i < 8
    modifies m
    ensures OrangeSet(m) == old(OrangeSet(m)) + (if flag then Only(Along(s, dx, dy, i)) else {})
    ensures Daubed(old(m[..]), m[..])
    ensures flag' == (flag && !Peek(board, past, Along(s, dx, dy, i).Index()))
  {
    hide OrangeSet, Daubed;
    DaubedSteps();
    flag' := flag;
    var t := Along(s, dx, dy, i);
    if Peek(board, past, t.row * 8 + t.col) && flag {
      Highlight(m, t);
      flag' := false;
    } else if flag {
      Highlight(m, t);
    }
  }

  /** A pass of the diagonal loop extends one ray by one step. */
  method ExtendRay(m: array<Byte>, board: array<Piece?>, past: int -> bool,
                   s: Square, dx: int, dy: int, i: int, flag: bool, ghost b: Placement)
    returns (flag': bool)
    requires m.Length == BYTES && board.Length == 64 && s.OnBoard() && 0 < i < 8
    requires (dx == 1 || dx == -1) && (dy == 1 || dy == -1)
    requires b == KindsOf(board) && FlagOk(b, s, dx, dy, i, flag) && RaySet(b, s, dx, dy, i) <= OrangeSet(m)
    modifies m
    ensures OrangeSet(m) == old(OrangeSet(m)) + RaySet(b, s, dx, dy, i + 1)
    ensures Daubed(old(m[..]), m[..])
    ensures RaySet(b, s, dx, dy, i) <= RaySet(b, s, dx, dy, i + 1)
    ensures FlagOk(b, s, dx, dy, i + 1, flag')
  {
    DaubedSteps();
    var t := Along(s, dx, dy, i);
    RayGrows(b, s, dx, dy, i, flag);
    assert t.OnBoard() ==> (Occupied(b, t) <==> Peek(board, past, t.Index()));
    flag' := DiagonalStep(m, board, past, s, dx, dy, i, flag);
    hide OrangeSet, RaySet, RayClear, Occupied, Peek;
  }

  /** The four-flag diagonal loop. */
  method PaintDiagonals(m: array<Byte>, board: array<Piece?>, past: int -> bool, s: Square, ghost b: Placement)
    requires m.Length == BYTES && board.Length == 64 && s.OnBoard() && b == KindsOf(board)
    modifies m
    ensures OrangeSet(m) == old(OrangeSet(m)) + Diagonals(b, s, 8)
    ensures Daubed(old(m[..]), m[..])
  {
    hide OrangeSet, RaySet, Daubed;
    DaubedSteps();
    ghost var base := OrangeSet(m);
    var one, two, three, four := true, true, true, true;
    NoSteps(b, s);
    var i := 1;
    while i < 8
      invariant 1 <= i <= 8 && b == KindsOf(board)
      invariant FlagOk(b, s, 1, 1, i, one) && FlagOk(b, s, 1, -1, i, two)
      invariant FlagOk(b, s, -1, -1, i, three) && FlagOk(b, s, -1, 1, i, four)
      invariant OrangeSet(m) == base + Diagonals(b, s, i)
      invariant Daubed(old(m[..]), m[..])
    {
      hide FlagOk, KindsOf;
      one := ExtendRay(m, board, past, s, 1, 1, i, one, b);
      two := ExtendRay(m, board, past, s, 1, -1, i, two, b);
      three := ExtendRay(m, board, past, s, -1, -1, i, three, b);
      four := ExtendRay(m, board, past, s, -1, 1, i, four, b);
      i := i + 1;
    }
  }

  ghost function Diagonals(b: Placement, s: Square, bound: int): set<Square> {
    RaySet(b, s, 1, 1, bound) + RaySet(b, s, 1, -1, bound) + RaySet(b, s, -1, -1, bound) + RaySet(b, s, -1, 1, bound)
  }

  ghost function Straights(b: Placement, s: Square, bound: int): set<Square> {
    RaySet(b, s, 0, -1, bound) + RaySet(b, s, 0, 1, bound) + RaySet(b, s, 1, 0, bound) + RaySet(b, s, -1, 0, bound)
  }

  lemma NoSteps(b: Placement, s: Square)
    ensures Diagonals(b, s, 1) == {}
    ensures forall dx, dy :: RaySet(b, s, dx, dy, 1) == {}
  {
  }

  /** A pass of a straight loop: the square is painted, and the loop breaks at
      a piece. */
  method ExtendStraight(m: array<Byte>, board: array<Piece?>, s: Square, dx: int, dy: int, i: int, ghost b: Placement)
    returns (stop: bool)
    requires m.Length == BYTES && board.Length == 64 && s.OnBoard() && 0 < i < 8
    requires (dx == 0 && (dy == 1 || dy == -1)) || (dy == 0 && (dx == 1 || dx == -1))
    requires b == KindsOf(board) && RayClear(b, s, dx, dy, i) && Along(s, dx, dy, i).OnBoard()
    modifies m
    requires RaySet(b, s, dx, dy, i) <= OrangeSet(m)
    ensures OrangeSet(m) == old(OrangeSet(m)) + RaySet(b, s, dx, dy, i + 1)
    ensures Daubed(old(m[..]), m[..])
    ensures RaySet(b, s, dx, dy, i) <= RaySet(b, s, dx, dy, i + 1)
    ensures if stop then RaySet(b, s, dx, dy, i + 1) == RaySet(b, s, dx, dy, 8) else RayClear(b, s, dx, dy, i + 1)
  {
    hide OrangeSet, RaySet, RayClear, Daubed;
    DaubedSteps();
    var t := Along(s, dx, dy, i);
    RayGrows(b, s, dx, dy, i, true);
    RayClearer(b, s, dx, dy, i);
    Highlight(m, t);
    stop := board[t.row * 8 + t.col] != null;
    if stop {
      RayStops(b, s, dx, dy, i + 1, 8);
    }
  }

  /** One of the four straight loops: from the piece's own square outwards, up to
      and including the first piece met. */
  method PaintStraight(m: array<Byte>, board: array<Piece?>, s: Square, dx: int, dy: int, ghost b: Placement)
    requires m.Length == BYTES && board.Length == 64 && s.OnBoard() && b == KindsOf(board)
    requires (dx == 0 && (dy == 1 || dy == -1)) || (dy == 0 && (dx == 1 || dx == -1))
    modifies m
    ensures OrangeSet(m) == old(OrangeSet(m)) + {s} + RaySet(b, s, dx, dy, 8)
    ensures Daubed(old(m[..]), m[..])
  {
    hide OrangeSet, RaySet, RayClear, KindsOf, Daubed;
    DaubedSteps();
    ghost var base := OrangeSet(m);
    Highlight(m, s);
    NoSteps(b, s);
    RayOpen(b, s, dx, dy);
    var i := 1;
    while Along(s, dx, dy, i).OnBoard()
      invariant 1 <= i <= 8 && b == KindsOf(board)
      invariant RayClear(b, s, dx, dy, i)
      invariant OrangeSet(m) == base + {s} + RaySet(b, s, dx, dy, i)
      invariant Daubed(old(m[..]), m[..])
      decreases 8 - i
    {
      var stop := ExtendStraight(m, board, s, dx, dy, i, b);
      if stop {
        return;
      }
      i := i + 1;
    }
    RayLeaves(b, s, dx, dy, i, 8);
  }

  lemma RayOpen(b: Placement, s: Square, dx: int, dy: int)
    ensures RayClear(b, s, dx, dy, 1)
  {
  }

  lemma RayClearer(b: Placement, s: Square, dx: int, dy: int, i: int)
    requires RayClear(b, s, dx, dy, i) && 0 < i
    ensures RayClear(b, s, dx, dy, i + 1) <==> !Occupied(b, Along(s, dx, dy, i))
  {
  }

  /** A ray that has met a piece hits nothing behind it. */
  lemma RayStops(b: Placement, s: Square, dx: int, dy: int, i: int, bound: int)
    requires 1 < i <= bound && Occupied(b, Along(s, dx, dy, i - 1))
    ensures RaySet(b, s, dx, dy, i) == RaySet(b, s, dx, dy, bound)
  {
    forall to: Square | to.OnBoard()
      ensures to in RaySet(b, s, dx, dy, i) <==> to in RaySet(b, s, dx, dy, bound)
    {
      RaySetIff(b, s, dx, dy, i, to);
      RaySetIff(b, s, dx, dy, bound, to);
    }
  }

  /** A ray that has left the board does not come back. */
  lemma RayLeaves(b: Placement, s: Square, dx: int, dy: int, i: int, bound: int)
    requires s.OnBoard() && -1 <= dx <= 1 && -1 <= dy <= 1
    requires 0 < i <= bound && !Along(s, dx, dy, i).OnBoard()
    ensures RaySet(b, s, dx, dy, i) == RaySet(b, s, dx, dy, bound)
  {
    forall to: Square | to.OnBoard()
      ensures to in RaySet(b, s, dx, dy, i) <==> to in RaySet(b, s, dx, dy, bound)
    {
      RaySetIff(b, s, dx, dy, i, to);
      RaySetIff(b, s, dx, dy, bound, to);
    }
  }

  /** The straight part of possiblePosition. */
  method PaintStraights(m: array<Byte>, board: array<Piece?>, s: Square, ghost b: Placement)
    requires m.Length == BYTES && board.Length == 64 && s.OnBoard() && b == KindsOf(board)
    modifies m
    ensures OrangeSet(m) == old(OrangeSet(m)) + {s} + Straights(b, s, 8)
    ensures Daubed(old(m[..]), m[..])
  {
    hide OrangeSet, RaySet, KindsOf, Daubed;
    DaubedSteps();
    PaintStraight(m, board, s, 0, -1, b);
    PaintStraight(m, board, s, 0, 1, b);
    PaintStraight(m, board, s, 1, 0, b);
    PaintStraight(m, board, s, -1, 0, b);
  }

  lemma RaysIff(b: Placement, s: Square, to: Square)
    requires to.OnBoard()
    ensures to in Diagonals(b, s, 8) <==> DiagonalHits(b, s, 8, to)
    ensures to in {s} + Straights(b, s, 8) <==> StraightHits(b, s, to)
  {
    RaySetIff(b, s, 1, 1, 8, to);
    RaySetIff(b, s, 1, -1, 8, to);
    RaySetIff(b, s, -1, -1, 8, to);
    RaySetIff(b, s, -1, 1, 8, to);
    RaySetIff(b, s, 0, -1, 8, to);
    RaySetIff(b, s, 0, 1, 8, to);
    RaySetIff(b, s, 1, 0, 8, to);
    RaySetIff(b, s, -1, 0, 8, to);
    hide RayHits, RaySet;
  }

  /** The rays stay on the board. */
  lemma RaysOnBoard(b: Placement, s: Square, t: Square)
    requires s.OnBoard()
    ensures t in Diagonals(b, s, 8) ==> t.OnBoard()
    ensures t in Straights(b, s, 8) ==> t.OnBoard()
    ensures forall kind, moved :: t in Painted(b, kind, moved, s) ==> t.OnBoard()
  {
    hide RayHits, Paints;
  }

  /** The highlighted squares of the sliding pieces, as rays and steps. */
  lemma PaintedSliders(b: Placement, kind: Kind, moved: bool, s: Square)
    requires s.OnBoard()
    ensures kind == B_BISHOP || kind == W_BISHOP ==> Painted(b, kind, moved, s) == Diagonals(b, s, 8)
    ensures kind == B_ROOK || kind == W_ROOK ==> Painted(b, kind, moved, s) == {s} + Straights(b, s, 8)
    ensures kind == B_QUEEN || kind == W_QUEEN ==> Painted(b, kind, moved, s) == Diagonals(b, s, 8) + {s} + Straights(b, s, 8)
  {
    hide Diagonals, Straights, Painted, DiagonalHits, StraightHits;
    var all := if kind == B_BISHOP || kind == W_BISHOP then Diagonals(b, s, 8)
               else if kind == B_ROOK || kind == W_ROOK then {s} + Straights(b, s, 8)
               else Diagonals(b, s, 8) + {s} + Straights(b, s, 8);
    if B_BISHOP <= kind <= B_QUEEN || W_BISHOP <= kind <= W_QUEEN {
      forall t: Square
        ensures t in all ==> t.OnBoard()
        ensures t in Painted(b, kind, moved, s) ==> t.OnBoard()
        ensures t.OnBoard() ==> (t in Painted(b, kind, moved, s) <==> t in all)
      {
        RaysOnBoard(b, s, t);
        if t.OnBoard() {
          RaysIff(b, s, t);
          PaintedIff(b, kind, moved, s, t);
        }
      }
      SameSquares(Painted(b, kind, moved, s), all);
    }
  }

  /** The squares painted for a knight, in the order of the source. */
  function KnightSquares(s: Square): set<Square> {
    var x, y := s.col, s.row;
    Only(Square(x + 2, y - 1)) + Only(Square(x + 2, y + 1)) + Only(Square(x - 2, y - 1)) + Only(Square(x - 2, y + 1)) +
    Only(Square(x + 1, y + 2)) + Only(Square(x + 1, y - 2)) + Only(Square(x - 1, y - 2)) + Only(Square(x - 1, y + 2))
  }

  function KingSquares(s: Square): set<Square> {
    var x, y := s.col, s.row;
    Only(Square(x + 1, y + 1)) + Only(Square(x + 1, y)) + Only(Square(x + 1, y - 1)) + Only(Square(x, y + 1)) +
    Only(Square(x, y - 1)) + Only(Square(x - 1, y + 1)) + Only(Square(x - 1, y)) + Only(Square(x - 1, y - 1))
  }

  /** The squares painted for a pawn. */
  ghost function PawnSquares(b: Placement, black: bool, moved: bool, s: Square): set<Square> {
    Captures(b, black, s) + Advances(b, black, moved, s)
  }

  ghost function Captures(b: Placement, black: bool, s: Square): set<Square> {
    var dir := if black then 1 else -1;
    var right, left := Square(s.col + 1, s.row + dir), Square(s.col - 1, s.row + dir);
    (if PawnTakes(b, black, right) then {right} else {}) + (if PawnTakes(b, black, left) then {left} else {})
  }

  ghost function Advances(b: Placement, black: bool, moved: bool, s: Square): set<Square> {
    var dir := if black then 1 else -1;
    var one, two := Square(s.col, s.row + dir), Square(s.col, s.row + 2 * dir);
    if Occupied(b, one) then {}
    else if Occupied(b, two) || moved then Only(one)
    else Only(two) + Only(one)
  }

  predicate PawnTakes(b: Placement, black: bool, t: Square) {
    Occupied(b, t) && (if black then b[t.Index()].value >= 5 else b[t.Index()].value < 5)
  }

  /** Two sets of squares of the board with the same members. */
  lemma SameSquares(a: set<Square>, b: set<Square>)
    requires forall t: Square :: t in a ==> t.OnBoard()
    requires forall t: Square :: t in b ==> t.OnBoard()
    requires forall t: Square :: t.OnBoard() ==> (t in a <==> t in b)
    ensures a == b
  {
  }

  lemma OnlyIff(s: Square, to: Square)
    ensures to in Only(s) <==> to.OnBoard() && to == s
  {
  }

  lemma KnightSquaresIff(s: Square, to: Square)
    ensures to in KnightSquares(s) <==> to.OnBoard() && KnightStep(s, to)
  {
    var x, y := s.col, s.row;
    OnlyIff(Square(x + 2, y - 1), to);
    OnlyIff(Square(x + 2, y + 1), to);
    OnlyIff(Square(x - 2, y - 1), to);
    OnlyIff(Square(x - 2, y + 1), to);
    OnlyIff(Square(x + 1, y + 2), to);
    OnlyIff(Square(x + 1, y - 2), to);
    OnlyIff(Square(x - 1, y - 2), to);
    OnlyIff(Square(x - 1, y + 2), to);
    hide Only;
  }

  lemma KingSquaresIff(s: Square, to: Square)
    ensures to in KingSquares(s) <==> to.OnBoard() && KingStep(s, to)
  {
    var x, y := s.col, s.row;
    OnlyIff(Square(x + 1, y + 1), to);
    OnlyIff(Square(x + 1, y), to);
    OnlyIff(Square(x + 1, y - 1), to);
    OnlyIff(Square(x, y + 1), to);
    OnlyIff(Square(x, y - 1), to);
    OnlyIff(Square(x - 1, y + 1), to);
    OnlyIff(Square(x - 1, y), to);
    OnlyIff(Square(x - 1, y - 1), to);
    hide Only;
  }

  lemma PawnSquaresIff(b: Placement, black: bool, moved: bool, s: Square, to: Square)
    ensures to in PawnSquares(b, black, moved, s) <==> to.OnBoard() && PawnPaints(b, black, moved, s, to)
  {
    var dir := if black then 1 else -1;
    OnlyIff(Square(s.col, s.row + dir), to);
    OnlyIff(Square(s.col, s.row + 2 * dir), to);
    hide Only;
  }

  lemma KnightPainted(b: Placement, kind: Kind, moved: bool, s: Square)
    requires kind == B_KNIGHT || kind == W_KNIGHT
    ensures Painted(b, kind, moved, s) == KnightSquares(s)
  {
    hide KnightSquares, KnightStep;
    forall to: Square
      ensures to in KnightSquares(s) ==> to.OnBoard()
      ensures to.OnBoard() ==> (to in Painted(b, kind, moved, s) <==> to in KnightSquares(s))
    {
      KnightSquaresIff(s, to);
      if to.OnBoard() {
        PaintedIff(b, kind, moved, s, to);
      }
    }
    SameSquares(Painted(b, kind, moved, s), KnightSquares(s));
  }

  lemma KingPainted(b: Placement, kind: Kind, moved: bool, s: Square)
    requires IsKing(kind)
    ensures Painted(b, kind, moved, s) == KingSquares(s)
  {
    hide KingSquares, KingStep;
    forall to: Square
      ensures to in KingSquares(s) ==> to.OnBoard()
      ensures to.OnBoard() ==> (to in Painted(b, kind, moved, s) <==> to in KingSquares(s))
    {
      KingSquaresIff(s, to);
      if to.OnBoard() {
        PaintedIff(b, kind, moved, s, to);
      }
    }
    SameSquares(Painted(b, kind, moved, s), KingSquares(s));
  }

  lemma PawnPainted(b: Placement, kind: Kind, moved: bool, s: Square)
    requires IsPawn(kind)
    ensures Painted(b, kind, moved, s) == PawnSquares(b, kind == B_PAWN, moved, s)
  {
    hide PawnSquares, PawnPaints;
    forall to: Square
      ensures to in PawnSquares(b, kind == B_PAWN, moved, s) ==> to.OnBoard()
      ensures to.OnBoard() ==> (to in Painted(b, kind, moved, s) <==> to in PawnSquares(b, kind == B_PAWN, moved, s))
    {
      PawnSquaresIff(b, kind == B_PAWN, moved, s, to);
      if to.OnBoard() {
        PaintedIff(b, kind, moved, s, to);
      }
    }
    SameSquares(Painted(b, kind, moved, s), PawnSquares(b, kind == B_PAWN, moved, s));
  }

  lemma Join(a: set<Square>, b: set<Square>, c: set<Square>)
    ensures a + b + c == a + (b + c)
  {
  }

  /** Four squares highlighted one after another. */
  method PaintFour(m: array<Byte>, a: Square, b: Square, c: Square, d: Square)
    requires m.Length == BYTES
    requires forall t :: t in [a, b, c, d] ==> -7 <= t.col <= 14 && -7 <= t.row <= 14
    modifies m
    ensures OrangeSet(m) == old(OrangeSet(m)) + (Only(a) + Only(b) + Only(c) + Only(d))
    ensures Daubed(old(m[..]), m[..])
  {
    hide OrangeSet, Only, Daubed;
    DaubedSteps();
    ghost var base := OrangeSet(m);
    Highlight(m, a);
    Highlight(m, b);
    Join(base, Only(a), Only(b));
    Highlight(m, c);
    Join(base, Only(a) + Only(b), Only(c));
    Highlight(m, d);
    Join(base, Only(a) + Only(b) + Only(c), Only(d));
  }

  lemma EightSquares(base: set<Square>, a: set<Square>, b: set<Square>, c: set<Square>, d: set<Square>,
                     e: set<Square>, f: set<Square>, g: set<Square>, h: set<Square>)
    ensures base + (a + b + c + d) + (e + f + g + h) == base + (a + b + c + d + e + f + g + h)
  {
  }

  /** The eight squares of a knight. */
  method PaintKnight(m: array<Byte>, s: Square)
    requires m.Length == BYTES && s.OnBoard()
    modifies m
    ensures OrangeSet(m) == old(OrangeSet(m)) + KnightSquares(s)
    ensures Daubed(old(m[..]), m[..])
  {
    hide OrangeSet, Only, Daubed;
    DaubedSteps();
    var x, y := s.col, s.row;
    var a, b, c, d := Square(x + 2, y - 1), Square(x + 2, y + 1), Square(x - 2, y - 1), Square(x - 2, y + 1);
    var e, f, g, h := Square(x + 1, y + 2), Square(x + 1, y - 2), Square(x - 1, y - 2), Square(x - 1, y + 2);
    EightSquares(OrangeSet(m), Only(a), Only(b), Only(c), Only(d), Only(e), Only(f), Only(g), Only(h));
    PaintFour(m, a, b, c, d);
    PaintFour(m, e, f, g, h);
  }

  /** The eight squares of a king. */
  method PaintKing(m: array<Byte>, s: Square)
    requires m.Length == BYTES && s.OnBoard()
    modifies m
    ensures OrangeSet(m) == old(OrangeSet(m)) + KingSquares(s)
    ensures Daubed(old(m[..]), m[..])
  {
    hide OrangeSet, Only, Daubed;
    DaubedSteps();
    var x, y := s.col, s.row;
    var a, b, c, d := Square(x + 1, y + 1), Square(x + 1, y), Square(x + 1, y - 1), Square(x, y + 1);
    var e, f, g, h := Square(x, y - 1), Square(x - 1, y + 1), Square(x - 1, y), Square(x - 1, y - 1);
    EightSquares(OrangeSet(m), Only(a), Only(b), Only(c), Only(d), Only(e), Only(f), Only(g), Only(h));
    PaintFour(m, a, b, c, d);
    PaintFour(m, e, f, g, h);
  }

  /** The captures of a black pawn. */
  method PaintBlackCaptures(m: array<Byte>, board: array<Piece?>, s: Square, ghost b: Placement)
    requires m.Length == BYTES && board.Length == 64 && s.OnBoard() && b == KindsOf(board)
    modifies m
    ensures OrangeSet(m) == old(OrangeSet(m)) + Captures(b, true, s)
    ensures Daubed(old(m[..]), m[..])
  {
    hide OrangeSet, Daubed;
    DaubedSteps();
    var x, y := s.col, s.row;
    if y < 7 && x < 7 {
      var p := board[(y + 1) * 8 + x + 1];
      if p != null && p.kind >= 5 {
        Highlight(m, Square(x + 1, y + 1));
      }
    }
    if x > 0 && y < 7 {
      var p := board[(y + 1) * 8 + x - 1];
      if p != null && p.kind >= 5 {
        Highlight(m, Square(x - 1, y + 1));
      }
    }
  }

  /** The captures of a white pawn. */
  method PaintWhiteCaptures(m: array<Byte>, board: array<Piece?>, s: Square, ghost b: Placement)
    requires m.Length == BYTES && board.Length == 64 && s.OnBoard() && b == KindsOf(board)
    modifies m
    ensures OrangeSet(m) == old(OrangeSet(m)) + Captures(b, false, s)
    ensures Daubed(old(m[..]), m[..])
  {
    hide OrangeSet, Daubed;
    DaubedSteps();
    var x, y := s.col, s.row;
    if y > 0 && x < 7 {
      var p := board[(y - 1) * 8 + x + 1];
      if p != null && p.kind < 5 {
        Highlight(m, Square(x + 1, y - 1));
      }
    }
    if y > 0 && x > 0 {
      var p := board[(y - 1) * 8 + x - 1];
      if p != null && p.kind < 5 {
        Highlight(m, Square(x - 1, y - 1));
      }
    }
  }

  lemma PeekIsOccupied(board: array<Piece?>, past: int -> bool, t: Square)
    requires board.Length == 64 && t.OnBoard()
    ensures Peek(board, past, t.row * 8 + t.col) <==> Occupied(KindsOf(board), t)
  {
  }

  /** The advances of a pawn; the reads one and two rows ahead may leave the
      board, and then so do the squares they decide about. */
  method PaintAdvances(m: array<Byte>, board: array<Piece?>, past: int -> bool, s: Square, black: bool, moved: bool,
                       ghost b: Placement)
    requires m.Length == BYTES && board.Length == 64 && s.OnBoard() && b == KindsOf(board)
    modifies m
    ensures OrangeSet(m) == old(OrangeSet(m)) + Advances(b, black, moved, s)
    ensures Daubed(old(m[..]), m[..])
  {
    hide OrangeSet, Only, Advances, Peek, KindsOf, Daubed;
    DaubedSteps();
    var dir := if black then 1 else -1;
    var one, two := Square(s.col, s.row + dir), Square(s.col, s.row + 2 * dir);
    AdvancesAsSeen(board, past, s, black, moved);
    Join(OrangeSet(m), Only(two), Only(one));
    if !Peek(board, past, one.row * 8 + one.col) {
      if !Peek(board, past, two.row * 8 + two.col) {
        if !moved {
          Highlight(m, two);
        }
      }
      Highlight(m, one);
    }
  }

  /** The advances in terms of the two reads, wherever they point. */
  lemma AdvancesAsSeen(board: array<Piece?>, past: int -> bool, s: Square, black: bool, moved: bool)
    requires board.Length == 64 && s.OnBoard()
    ensures var dir := if black then 1 else -1;
            var one, two := Square(s.col, s.row + dir), Square(s.col, s.row + 2 * dir);
            Advances(KindsOf(board), black, moved, s) ==
            if Peek(board, past, one.row * 8 + one.col) then {}
            else if Peek(board, past, two.row * 8 + two.col) || moved then Only(one)
            else Only(two) + Only(one)
  {
    hide Peek, KindsOf;
    var dir := if black then 1 else -1;
    var one, two := Square(s.col, s.row + dir), Square(s.col, s.row + 2 * dir);
    if one.OnBoard() {
      PeekIsOccupied(board, past, one);
      if two.OnBoard() {
        PeekIsOccupied(board, past, two);
      }
    }
  }

  /** possiblePosition: whatever lies in memory past the board, the orange
      squares become exactly the squares of the piece. */
  method PossiblePosition(m: array<Byte>, board: array<Piece?>, past: int -> bool, piece: Piece, s: Square)
    requires m.Length == BYTES && board.Length == 64 && s.OnBoard()
    modifies m
    ensures OrangeSet(m) == old(OrangeSet(m)) + Painted(KindsOf(board), piece.kind, piece.pawnMoved, s)
    ensures Daubed(old(m[..]), m[..])
  {
    hide OrangeSet, Painted, Diagonals, Straights, KindsOf, Captures, Advances, KnightSquares, KingSquares, Daubed;
    DaubedSteps();
    ghost var b := KindsOf(board);
    var kind, moved := piece.kind, piece.pawnMoved;
    if kind == B_PAWN {
      PaintBlackCaptures(m, board, s, b);
      PaintAdvances(m, board, past, s, true, moved, b);
      PawnPainted(b, kind, moved, s);
    } else if kind == W_PAWN {
      PaintWhiteCaptures(m, board, s, b);
      PaintAdvances(m, board, past, s, false, moved, b);
      PawnPainted(b, kind, moved, s);
    } else if kind == W_KNIGHT || kind == B_KNIGHT {
      PaintKnight(m, s);
      KnightPainted(b, kind, moved, s);
    } else if kind == W_KING || kind == B_KING {
      PaintKing(m, s);
      KingPainted(b, kind, moved, s);
    } else {
      PaintedSliders(b, kind, moved, s);
      if kind == B_ROOK || kind == W_ROOK {
        PaintStraights(m, board, s, b);
      } else if kind == B_BISHOP || kind == W_BISHOP {
        PaintDiagonals(m, board, past, s, b);
      } else {
        PaintDiagonals(m, board, past, s, b);
        PaintStraights(m, board, s, b);
      }
    }
  }
}
