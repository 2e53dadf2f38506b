/** The board record of board.c: 64 piece pointers, the buffer the board is
    drawn into, and, as history, the list of the pieces it created. */
module Boards {
  import opened Common
  import opened Chess
  import opened PieceMotion
  import opened Geometry
  import opened Game
  import opened Framebuffer
  import opened Pieces

  /** The piece is listed under its own number. */
  ghost predicate Listed(roster: seq<Piece>, p: Piece) { p.id < |roster| && roster[p.id] == p }

  ghost predicate Numbered(roster: seq<Piece>) { forall i :: 0 <= i < |roster| ==> roster[i].id == i }

  ghost function States(roster: seq<Piece>): (r: seq<PieceState>)
    reads roster
    ensures |r| == |roster|
  {
    seq(|roster|, i requires 0 <= i < |roster| reads roster => roster[i].State())
  }

  ghost function Ids(cells: array<Piece?>): (r: seq<Option<nat>>)
    requires cells.Length == 64
    reads cells
    ensures |r| == 64
  {
    seq(64, k requires 0 <= k < 64 reads cells => if cells[k] == null then None else Some(cells[k].id))
  }

  /** The initial board as far as the first n pieces go. */
  ghost function FirstCells(n: nat): (r: seq<Option<nat>>)
    ensures |r| == 64
  {
    seq(64, k requires 0 <= k < 64 =>
      if InitBoard()[k].Some? && InitBoard()[k].value < n then InitBoard()[k] else None)
  }

  /** The piece of that number is of that kind and starts on that square. */
  predicate Fits(n: nat, kind: Kind, x: nat, y: nat) {
    n < PIECES && kind == KindOf(n) && x == HomeOf(n) % 8 && y == HomeOf(n) / 8
  }

  lemma NextPlaced(n: nat)
    requires n < PIECES
    ensures FirstCells(n + 1) == FirstCells(n)[HomeOf(n) := Some(n)]
    ensures InitPieces()[..n + 1] == InitPieces()[..n] + [InitPiece(n)]
  {
  }

  class Board {
    const cells: array<Piece?>
    const mem: array<Byte>
    ghost var roster: seq<Piece>

    ghost predicate Valid()
      reads this, cells
    {
      && cells.Length == 64 && mem.Length == BYTES && |roster| == PIECES && Numbered(roster)
      && forall k :: 0 <= k < 64 && cells[k] != null ==> Listed(roster, cells[k])
    }

    /** The first n pieces have been created on their squares; the other cells
        are empty. */
    ghost predicate Placed(n: nat)
      reads this, cells, roster
    {
      && n <= PIECES && cells.Length == 64 && mem.Length == BYTES && |roster| == n && Numbered(roster)
      && (forall k :: 0 <= k < 64 && cells[k] != null ==> Listed(roster, cells[k]))
      && States(roster) == InitPieces()[..n] && Ids(cells) == FirstCells(n)
    }

    /** initBoard, followed by the drawing that the first event of a game does. */
    constructor (toggle: Image)
      requires WellFormed(toggle)
      ensures Valid() && Ids(cells) == InitBoard() && States(roster) == InitPieces()
      ensures OrangeSet(mem) == {} && Chequered(mem[..])
      ensures forall px, py :: IsPixel(px, py) && OffTiles(px, py) ==>
        Pixel(mem, px, py) == if Covers(toggle, 538, 185, px, py) then At(toggle, px - 538, py - 185) else Color(0, 0, 0)
      ensures fresh(cells) && fresh(mem) && forall p :: p in roster ==> fresh(p)
    {
      cells := new Piece?[64](_ => null);
      mem := new Byte[BYTES](_ => 0);
      roster := [];
      new;
      NothingPlaced();
      Black(mem);
      hide Placed, States, Ids, InitPieces, FirstCells, OrangeSet, Pixel, Chequered, OffTiles, At, Covers;
      CreateBlackPieces();
      CreateWhitePieces();
      DrawBoard(mem);
      DrawToggle(mem, toggle);
      AllPlaced();
      hide Valid;
    }

    /** vg_clear. */
    lemma Black(m: array<Byte>)
      requires m.Length == BYTES && forall k :: 0 <= k < BYTES ==> m[k] == 0
      ensures forall px, py :: IsPixel(px, py) ==> Pixel(m, px, py) == Color(0, 0, 0)
    {
      hide Offset;
    }

    lemma NothingPlaced()
      requires mem.Length == BYTES && roster == [] && cells.Length == 64 && forall k :: 0 <= k < 64 ==> cells[k] == null
      ensures Placed(0)
    {
    }

    lemma AllPlaced()
      requires Placed(PIECES)
      ensures Valid() && Ids(cells) == InitBoard() && States(roster) == InitPieces()
    {
      assert FirstCells(PIECES) == InitBoard();
    }

    /** createPiece: a new piece on the square, which loses what it held. */
    method CreatePiece(kind: Kind, x: nat, y: nat)
      requires cells.Length == 64 && x < 8 && y < 8
      modifies this, cells
      ensures |roster| == old(|roster|) + 1 && roster[..old(|roster|)] == old(roster)
      ensures forall p :: p in roster ==> p in old(roster) || fresh(p)
      ensures roster[old(|roster|)].id == old(|roster|)
      ensures cells[..] == old(cells[..])[y * 8 + x := roster[old(|roster|)]]
      ensures States(roster) ==
              old(States(roster)) + [PieceState(kind, x * TILE + LEFT, TOP + y * TILE, 0, 0, false, false, false, false)]
    {
      var p := new Piece(kind, x * 59 + 65, 64 + y * 59, |roster|);
      cells[y * 8 + x] := p;
      roster := roster + [p];
    }

    /** The next call of initBoard. */
    method CreateNext(kind: Kind, x: nat, y: nat, ghost n: nat)
      requires Placed(n) && Fits(n, kind, x, y) && x < 8 && y < 8
      modifies this, cells
      ensures Placed(n + 1)
      ensures forall p :: p in roster ==> p in old(roster) || fresh(p)
    {
      NextPlaced(n);
      assert PieceState(kind, x * TILE + LEFT, TOP + y * TILE, 0, 0, false, false, false, false) == InitPiece(n);
      assert y * 8 + x == HomeOf(n);
      ghost var before := Ids(cells);
      hide States, Fits, InitPiece, HomeOf, FirstCells;
      CreatePiece(kind, x, y);
      NextListed(old(roster), old(cells[..]), y * 8 + x);
      hide Numbered, Listed;
      assert Ids(cells) == before[y * 8 + x := Some(n)];
    }

    /** A cell that points to the newest piece, like every other, points to a
        listed one. */
    lemma NextListed(before: seq<Piece>, was: seq<Piece?>, at: nat)
      requires cells.Length == 64 == |was| && at < 64 && Numbered(before)
      requires |roster| == |before| + 1 && roster[..|before|] == before && roster[|before|].id == |before|
      requires cells[..] == was[at := roster[|before|]]
      requires forall k :: 0 <= k < 64 && was[k] != null ==> Listed(before, was[k])
      ensures Numbered(roster) && forall k :: 0 <= k < 64 && cells[k] != null ==> Listed(roster, cells[k])
    {
      assert forall k :: 0 <= k < 64 ==> cells[k] == cells[..][k];
      assert forall i :: 0 <= i < |before| ==> roster[i] == before[i];
    }

    /** Four neighbouring calls of createPiece in initBoard. */
    method CreateFour(a: Kind, b: Kind, c: Kind, d: Kind, x: nat, y: nat, ghost n: nat)
      requires Placed(n) && x < 5 && y < 8
      requires Fits(n, a, x, y) && Fits(n + 1, b, x + 1, y) && Fits(n + 2, c, x + 2, y) && Fits(n + 3, d, x + 3, y)
      modifies this, cells
      ensures Placed(n + 4)
      ensures forall p :: p in roster ==> p in old(roster) || fresh(p)
    {
      hide Placed, Fits;
      CreateNext(a, x, y, n);
      CreateNext(b, x + 1, y, n + 1);
      CreateNext(c, x + 2, y, n + 2);
      CreateNext(d, x + 3, y, n + 3);
    }

    method CreateBlackPieces()
      requires Placed(0)
      modifies this, cells
      ensures Placed(16)
      ensures forall p :: p in roster ==> p in old(roster) || fresh(p)
    {
      hide Placed;
      CreateFour(B_ROOK, B_KNIGHT, B_BISHOP, B_QUEEN, 0, 0, 0);
      CreateFour(B_KING, B_BISHOP, B_KNIGHT, B_ROOK, 4, 0, 4);
      CreateFour(B_PAWN, B_PAWN, B_PAWN, B_PAWN, 0, 1, 8);
      CreateFour(B_PAWN, B_PAWN, B_PAWN, B_PAWN, 4, 1, 12);
    }

    method CreateWhitePieces()
      requires Placed(16)
      modifies this, cells
      ensures Placed(32)
      ensures forall p :: p in roster ==> p in old(roster) || fresh(p)
    {
      hide Placed;
      CreateFour(W_ROOK, W_KNIGHT, W_BISHOP, W_QUEEN, 0, 7, 16);
      CreateFour(W_KING, W_BISHOP, W_KNIGHT, W_ROOK, 4, 7, 20);
      CreateFour(W_PAWN, W_PAWN, W_PAWN, W_PAWN, 0, 6, 24);
      CreateFour(W_PAWN, W_PAWN, W_PAWN, W_PAWN, 4, 6, 28);
    }

    /** A piece is carried to a square and its old cell is cleared, in this
        order. */
    method Carry(from: Square, to: Square)
      requires Valid() && from.OnBoard() && to.OnBoard()
      modifies cells
      ensures Valid() && Ids(cells) == MoveCells(old(Ids(cells)), from, to)
    {
      assert Ids(cells)[from.Index()] == if cells[from.Index()] == null then None else Some(cells[from.Index()].id);
      cells[to.row * 8 + to.col] := cells[from.row * 8 + from.col];
      cells[from.row * 8 + from.col] := null;
    }

    /** A cell is cleared and a piece is put down on a square, in this order. */
    method Put(p: Piece, from: Square, to: Square)
      requires Valid() && Listed(roster, p) && from.OnBoard() && to.OnBoard()
      modifies cells
      ensures Valid() && Ids(cells) == DropCells(old(Ids(cells)), p.id, from, to)
    {
      cells[from.row * 8 + from.col] := null;
      cells[to.row * 8 + to.col] := p;
    }

    /** updateBoard: one frame for each cell's piece, in the order of the
        cells. */
    method Update(animation: bool)
      requires Valid()
      modifies roster
      ensures Valid() && States(roster) == UpdateFrom(Ids(cells), old(States(roster)), animation, 0)
    {
      ghost var start := States(roster);
      ghost var ids := Ids(cells);
      var row := 0;
      while row < 8
        invariant 0 <= row <= 8 && Valid() && Ids(cells) == ids
        invariant UpdateFrom(ids, States(roster), animation, row * 8) == UpdateFrom(ids, start, animation, 0)
      {
        var col := 0;
        while col < 8
          invariant 0 <= col <= 8 && Valid() && Ids(cells) == ids
          invariant UpdateFrom(ids, States(roster), animation, row * 8 + col) == UpdateFrom(ids, start, animation, 0)
        {
          var p := cells[row * 8 + col];
          if p != null {
            UpdateOne(p, animation);
          }
          col := col + 1;
        }
        row := row + 1;
      }
    }

    /** The body of the loop of updateBoard. */
    method UpdateOne(p: Piece, animation: bool)
      requires Valid() && Listed(roster, p)
      modifies p
      ensures States(roster) == old(States(roster))[p.id := Frame(old(p.State()), animation)]
    {
      if p.isMoving {
        var arrived;
        if animation {
          arrived := p.Update();
        } else {
          arrived := p.UpdateNoAnimation();
        }
      }
      if p.change {
        p.change := false;
      }
    }
  }
}
