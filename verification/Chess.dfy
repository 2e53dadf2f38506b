/** Piece kinds, the squares the program highlights for a piece, and the rules
    of chess they are compared with. */
module Chess {
  import opened Common

  /** Values of the PieceType enumeration: 0..5 black, 6..11 white. */
  type Kind = k: int | 0 <= k < 12

  const B_PAWN: Kind := 0
  const B_KNIGHT: Kind := 1
  const B_BISHOP: Kind := 2
  const B_ROOK: Kind := 3
  const B_QUEEN: Kind := 4
  const B_KING: Kind := 5
  const W_PAWN: Kind := 6
  const W_KNIGHT: Kind := 7
  const W_BISHOP: Kind := 8
  const W_ROOK: Kind := 9
  const W_QUEEN: Kind := 10
  const W_KING: Kind := 11

  predicate IsWhite(k: Kind) { k > 5 }

  predicate IsPawn(k: Kind) { k == B_PAWN || k == W_PAWN }

  predicate IsKing(k: Kind) { k == B_KING || k == W_KING }

  predicate SameTeam(a: Kind, b: Kind) { (a > 5 && b > 5) || (a <= 5 && b <= 5) }

  /** What stands on each of the 64 squares. */
  type Placement = b: seq<Option<Kind>> | |b| == 64 witness seq(64, _ => None)

  predicate Occupied(b: Placement, s: Square) { s.OnBoard() && b[s.Index()].Some? }

  // ---------------------------------------------------------------------
  // What the program paints

  /** The square k steps from s in direction (dx, dy), each of -1, 0, 1. */
  function Along(s: Square, dx: int, dy: int, k: int): Square {
    Square(s.col + (if dx > 0 then k else if dx < 0 then -k else 0),
           s.row + (if dy > 0 then k else if dy < 0 then -k else 0))
  }

  /** Nothing stands on the first k - 1 squares of the ray. */
  predicate RayClear(b: Placement, s: Square, dx: int, dy: int, k: int) {
    forall j :: 0 < j < k ==> !Occupied(b, Along(s, dx, dy, j))
  }

  ghost predicate RayHits(b: Placement, s: Square, dx: int, dy: int, bound: int, to: Square) {
    exists k :: 0 < k < bound && to == Along(s, dx, dy, k) && RayClear(b, s, dx, dy, k)
  }

  ghost predicate DiagonalHits(b: Placement, s: Square, bound: int, to: Square) {
    RayHits(b, s, 1, 1, bound, to) || RayHits(b, s, 1, -1, bound, to) ||
    RayHits(b, s, -1, -1, bound, to) || RayHits(b, s, -1, 1, bound, to)
  }

  /** Straight rays are painted from the piece's own square on. */
  ghost predicate StraightHits(b: Placement, s: Square, to: Square) {
    to == s ||
    RayHits(b, s, 0, -1, 8, to) || RayHits(b, s, 0, 1, 8, to) ||
    RayHits(b, s, 1, 0, 8, to) || RayHits(b, s, -1, 0, 8, to)
  }

  predicate KnightStep(s: Square, to: Square) {
    (Abs(to.col - s.col) == 2 && Abs(to.row - s.row) == 1) ||
    (Abs(to.col - s.col) == 1 && Abs(to.row - s.row) == 2)
  }

  predicate KingStep(s: Square, to: Square) {
    to != s && Abs(to.col - s.col) <= 1 && Abs(to.row - s.row) <= 1
  }

  /** Pawn squares for a pawn that advances by dir; the diagonal test is the
      source's comparison of the enumeration value with 5. */
  predicate PawnPaints(b: Placement, black: bool, moved: bool, s: Square, to: Square)
    requires to.OnBoard()
  {
    var dir := if black then 1 else -1;
    var one := Square(s.col, s.row + dir);
    || (Abs(to.col - s.col) == 1 && to.row == s.row + dir &&
        b[to.Index()].Some? && (if black then b[to.Index()].value >= 5 else b[to.Index()].value < 5))
    || (to == one && !Occupied(b, one))
    || (to == Square(s.col, s.row + 2 * dir) && !moved && !Occupied(b, one) && !Occupied(b, to))
  }

  ghost predicate Paints(b: Placement, kind: Kind, moved: bool, s: Square, to: Square)
    requires to.OnBoard()
  {
    if IsPawn(kind) then PawnPaints(b, kind == B_PAWN, moved, s, to)
    else if kind == B_KNIGHT || kind == W_KNIGHT then KnightStep(s, to)
    else if IsKing(kind) then KingStep(s, to)
    else if kind == B_BISHOP || kind == W_BISHOP then DiagonalHits(b, s, 8, to)
    else if kind == B_ROOK || kind == W_ROOK then StraightHits(b, s, to)
    else DiagonalHits(b, s, 8, to) || StraightHits(b, s, to)
  }

  /** The highlighted squares of the board. */
  ghost function Painted(b: Placement, kind: Kind, moved: bool, s: Square): set<Square> {
    set k | 0 <= k < 64 && Paints(b, kind, moved, s, SquareAt(k)) :: SquareAt(k)
  }

  lemma PaintedIff(b: Placement, kind: Kind, moved: bool, s: Square, to: Square)
    requires to.OnBoard()
    ensures to in Painted(b, kind, moved, s) <==> Paints(b, kind, moved, s, to)
  {
    assert SquareAt(to.Index()) == to;
  }

  // ---------------------------------------------------------------------
  // Articles 3.1 to 3.8 of the FIDE Laws of Chess

  function Sign(d: int): int { if d > 0 then 1 else if d < 0 then -1 else 0 }

  /** No piece stands strictly between two squares of one line. */
  ghost predicate NothingBetween(b: Placement, s: Square, to: Square) {
    forall m: Square :: Occupied(b, m) && m != s && m != to ==> !Between(s, m, to)
  }

  /** m lies on the segment from s to to of a rank, a file or a diagonal. */
  predicate Between(s: Square, m: Square, to: Square) {
    var dc, dr := m.col - s.col, m.row - s.row;
    var ec, er := to.col - m.col, to.row - m.row;
    && Sign(dc) == Sign(to.col - s.col) && Sign(dr) == Sign(to.row - s.row)
    && Sign(ec) == Sign(to.col - s.col) && Sign(er) == Sign(to.row - s.row)
    && (dc == 0 || dr == 0 || Abs(dc) == Abs(dr))
  }

  predicate SameDiagonal(s: Square, to: Square) { Abs(to.col - s.col) == Abs(to.row - s.row) }

  predicate SameLine(s: Square, to: Square) { to.col == s.col || to.row == s.row }

  /** 3.7: forward one square if vacant; two on the first move if both are
      vacant; diagonally forward onto an opponent's piece. */
  predicate PawnMove(b: Placement, kind: Kind, moved: bool, s: Square, to: Square)
    requires to.OnBoard()
  {
    var ahead := if IsWhite(kind) then s.row - to.row else to.row - s.row;
    var front := Square(s.col, if IsWhite(kind) then s.row - 1 else s.row + 1);
    || (to.col == s.col && ahead == 1 && b[to.Index()].None?)
    || (to.col == s.col && ahead == 2 && !moved && b[to.Index()].None? && !Occupied(b, front))
    || (Abs(to.col - s.col) == 1 && ahead == 1 && b[to.Index()].Some? && !SameTeam(kind, b[to.Index()].value))
  }

  /** A pseudo-legal move: how the pieces move, without castling, en passant,
      promotion and check. */
  ghost predicate PseudoLegal(b: Placement, kind: Kind, moved: bool, s: Square, to: Square)
    requires to.OnBoard()
  {
    // 3.1: never onto a square occupied by a piece of the same colour
    && to != s
    && (b[to.Index()].Some? ==> !SameTeam(kind, b[to.Index()].value))
    && (if IsPawn(kind) then PawnMove(b, kind, moved, s, to)
        else if kind == B_KNIGHT || kind == W_KNIGHT then
          // 3.6: a nearest square not on the same rank, file or diagonal
          !SameLine(s, to) && !SameDiagonal(s, to) && Abs(to.col - s.col) <= 2 && Abs(to.row - s.row) <= 2
        else if IsKing(kind) then
          // 3.8: any adjoining square
          Max(Abs(to.col - s.col), Abs(to.row - s.row)) == 1
        else
          // 3.2 to 3.5: along a line, over no intervening piece
          && NothingBetween(b, s, to)
          && (if kind == B_BISHOP || kind == W_BISHOP then SameDiagonal(s, to)
              else if kind == B_ROOK || kind == W_ROOK then SameLine(s, to)
              else SameDiagonal(s, to) || SameLine(s, to)))
  }

  /** The drop test: the square is highlighted and holds no piece of the same
      team. */
  ghost predicate Accepts(b: Placement, kind: Kind, moved: bool, s: Square, to: Square)
    requires to.OnBoard()
  {
    to in Painted(b, kind, moved, s) && (b[to.Index()].Some? ==> !SameTeam(kind, b[to.Index()].value))
  }

  /** The one capture the rules allow and the highlighting leaves out. */
  predicate WhitePawnTakesKing(b: Placement, kind: Kind, s: Square, to: Square)
    requires to.OnBoard()
  {
    kind == W_PAWN && to.col != s.col && b[to.Index()] == Some(B_KING)
  }

  /** A clear ray has nothing between its ends. */
  lemma ClearMeansBetween(b: Placement, s: Square, dx: int, dy: int, k: int, to: Square)
    requires -1 <= dx <= 1 && -1 <= dy <= 1 && (dx != 0 || dy != 0)
    requires 0 < k < 8 && to == Along(s, dx, dy, k)
    ensures RayClear(b, s, dx, dy, k) <==> NothingBetween(b, s, to)
  {
    if RayClear(b, s, dx, dy, k) {
      forall m: Square | Occupied(b, m) && m != s && m != to
        ensures !Between(s, m, to)
      {
        var j := Max(Abs(m.col - s.col), Abs(m.row - s.row));
        assert Between(s, m, to) ==> m == Along(s, dx, dy, j) && 0 < j < k;
      }
    }
    if NothingBetween(b, s, to) {
      forall j | 0 < j < k
        ensures !Occupied(b, Along(s, dx, dy, j))
      {
        assert Between(s, Along(s, dx, dy, j), to);
      }
    }
  }

  lemma RayHitsIff(b: Placement, s: Square, dx: int, dy: int, to: Square)
    requires s.OnBoard() && to.OnBoard()
    requires -1 <= dx <= 1 && -1 <= dy <= 1 && (dx != 0 || dy != 0)
    ensures RayHits(b, s, dx, dy, 8, to) <==>
      && to != s && Sign(to.col - s.col) == dx && Sign(to.row - s.row) == dy
      && (SameDiagonal(s, to) || SameLine(s, to)) && NothingBetween(b, s, to)
  {
    var k := Max(Abs(to.col - s.col), Abs(to.row - s.row));
    if to == Along(s, dx, dy, k) && k > 0 {
      ClearMeansBetween(b, s, dx, dy, k, to);
    }
    hide RayClear, NothingBetween;
  }

  lemma PawnAccepts(b: Placement, kind: Kind, moved: bool, s: Square, to: Square)
    requires Occupied(b, s) && b[s.Index()].value == kind && to.OnBoard() && IsPawn(kind)
    ensures Accepts(b, kind, moved, s, to) <==>
      PseudoLegal(b, kind, moved, s, to) && !WhitePawnTakesKing(b, kind, s, to)
  {
    hide Painted;
    PaintedIff(b, kind, moved, s, to);
  }

  lemma LeaperAccepts(b: Placement, kind: Kind, moved: bool, s: Square, to: Square)
    requires Occupied(b, s) && b[s.Index()].value == kind && to.OnBoard()
    requires kind == B_KNIGHT || kind == W_KNIGHT || IsKing(kind)
    ensures Accepts(b, kind, moved, s, to) <==> PseudoLegal(b, kind, moved, s, to)
  {
    hide Painted;
    PaintedIff(b, kind, moved, s, to);
  }

  lemma SliderAccepts(b: Placement, kind: Kind, moved: bool, s: Square, to: Square)
    requires Occupied(b, s) && b[s.Index()].value == kind && to.OnBoard()
    requires !IsPawn(kind) && kind != B_KNIGHT && kind != W_KNIGHT && !IsKing(kind)
    ensures Accepts(b, kind, moved, s, to) <==> PseudoLegal(b, kind, moved, s, to)
  {
    hide Painted, RayHits, NothingBetween;
    PaintedIff(b, kind, moved, s, to);
    DiagonalHitsIff(b, s, to);
    StraightHitsIff(b, s, to);
    hide DiagonalHits, StraightHits;
  }

  lemma DiagonalHitsIff(b: Placement, s: Square, to: Square)
    requires s.OnBoard() && to.OnBoard()
    ensures DiagonalHits(b, s, 8, to) <==> to != s && SameDiagonal(s, to) && NothingBetween(b, s, to)
  {
    hide RayHits, NothingBetween;
    RayHitsIff(b, s, 1, 1, to);
    RayHitsIff(b, s, 1, -1, to);
    RayHitsIff(b, s, -1, 1, to);
    RayHitsIff(b, s, -1, -1, to);
  }

  lemma StraightHitsIff(b: Placement, s: Square, to: Square)
    requires s.OnBoard() && to.OnBoard()
    ensures StraightHits(b, s, to) <==> to == s || (SameLine(s, to) && NothingBetween(b, s, to))
  {
    hide RayHits, NothingBetween;
    RayHitsIff(b, s, 1, 0, to);
    RayHitsIff(b, s, -1, 0, to);
    RayHitsIff(b, s, 0, 1, to);
    RayHitsIff(b, s, 0, -1, to);
  }

  /** Main result on legality: for every placement, piece and pair of squares,
      a drop is accepted exactly when the move is pseudo-legal, except that a
      white pawn may not capture the black king. */
  lemma AcceptsIffLegal(b: Placement, kind: Kind, moved: bool, s: Square, to: Square)
    requires Occupied(b, s) && b[s.Index()].value == kind && to.OnBoard()
    ensures Accepts(b, kind, moved, s, to) <==>
      PseudoLegal(b, kind, moved, s, to) && !WhitePawnTakesKing(b, kind, s, to)
  {
    hide Accepts, PseudoLegal;
    if IsPawn(kind) {
      PawnAccepts(b, kind, moved, s, to);
    } else if kind == B_KNIGHT || kind == W_KNIGHT || IsKing(kind) {
      LeaperAccepts(b, kind, moved, s, to);
    } else {
      SliderAccepts(b, kind, moved, s, to);
    }
  }

  /** The exception happens: a white pawn next to the black king on its forward
      diagonal may take it by the rules, and is not let. */
  lemma PawnSparesKing(b: Placement, moved: bool, s: Square, to: Square)
    requires s.OnBoard() && to.OnBoard() && b[s.Index()] == Some(W_PAWN) && b[to.Index()] == Some(B_KING)
    requires Abs(to.col - s.col) == 1 && to.row == s.row - 1
    ensures PseudoLegal(b, W_PAWN, moved, s, to) && !Accepts(b, W_PAWN, moved, s, to)
  {
    PaintedIff(b, W_PAWN, moved, s, to);
    hide Painted;
  }

  /** The queen's squares are the bishop's and the rook's together. */
  lemma QueenIsBishopAndRook(b: Placement, s: Square, m0: bool, m1: bool, m2: bool)
    ensures Painted(b, B_QUEEN, m0, s) == Painted(b, B_BISHOP, m1, s) + Painted(b, B_ROOK, m2, s)
    ensures Painted(b, W_QUEEN, m0, s) == Painted(b, W_BISHOP, m1, s) + Painted(b, W_ROOK, m2, s)
  {
  }
}
