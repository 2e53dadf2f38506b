/** Drawing into a flat byte buffer of 800 x 600 pixels, three bytes a pixel,
    and the tiles of the board within it. */
module Framebuffer {
  import opened Common
  import opened Geometry

  const BYTES := 1440000 // 800 * 600 * 3

  /** The three low bytes of a colour, lowest first, as memcpy stores them. */
  datatype Color = Color(b0: Byte, b1: Byte, b2: Byte)

  const ORANGE := Color(0x0e, 0x82, 0xed)        // 0xed820e
  const GREEN := Color(0x43, 0xb0, 0x3c)         // 0x3cb043
  const CREAM := Color(0xd0, 0xfd, 0xff)         // 0xFFFDD0
  const TRANSPARENT := Color(0x69, 0x00, 0x00)   // 0x000069

  predicate IsPixel(px: int, py: int) { 0 <= px < H_RES && 0 <= py < V_RES }

  /** Position of a pixel's first byte. */
  function Offset(px: int, py: int): (k: int)
    requires IsPixel(px, py)
    ensures 0 <= k <= BYTES - 3
  {
    (py * H_RES + px) * 3
  }

  function Pixel(m: array<Byte>, px: int, py: int): Color
    requires m.Length == BYTES && IsPixel(px, py)
    reads m
  {
    var k := Offset(px, py);
    Color(m[k], m[k + 1], m[k + 2])
  }

  /** The buffer runs through the screen row by row, three bytes a pixel, from
      its first byte to its last. */
  lemma RasterOrder(px: int, py: int)
    requires IsPixel(px, py)
    ensures Offset(0, 0) == 0 && Offset(799, 599) + 3 == BYTES
    ensures px + 1 < 800 ==> Offset(px + 1, py) == Offset(px, py) + 3
    ensures py + 1 < 600 ==> Offset(0, py + 1) == Offset(799, py) + 3
  {
  }

  /** The colours as 24-bit numbers, lowest byte first. */
  lemma ColorValues()
    ensures forall c: Color, v :: (c, v) in [(ORANGE, 0xed820e), (GREEN, 0x3cb043), (CREAM, 0xFFFDD0), (TRANSPARENT, 0x000069)] ==>
      c.b0 + 0x100 * c.b1 + 0x1_0000 * c.b2 == v
  {
  }

  /** Different pixels share no byte. */
  lemma PixelsDisjoint(px: int, py: int, qx: int, qy: int)
    requires IsPixel(px, py) && IsPixel(qx, qy) && (px != qx || py != qy)
    ensures Offset(px, py) + 2 < Offset(qx, qy) || Offset(qx, qy) + 2 < Offset(px, py)
  {
    if py < qy {
      assert py * H_RES + px < qy * H_RES + qx;
    } else if qy < py {
      assert qy * H_RES + qx < py * H_RES + px;
    }
  }

  /** memcpy of one pixel. */
  method SetPixel(m: array<Byte>, px: int, py: int, color: Color)
    requires m.Length == BYTES && IsPixel(px, py)
    modifies m
    ensures Pixel(m, px, py) == color
    ensures forall qx, qy :: IsPixel(qx, qy) && (qx != px || qy != py) ==> Pixel(m, qx, qy) == old(Pixel(m, qx, qy))
  {
    var k := Offset(px, py);
    m[k] := color.b0;
    m[k + 1] := color.b1;
    m[k + 2] := color.b2;
    forall qx, qy | IsPixel(qx, qy) && (qx != px || qy != py)
      ensures Pixel(m, qx, qy) == old(Pixel(m, qx, qy))
    {
      PixelsDisjoint(px, py, qx, qy);
    }
  }

  /** draw_hline: the part of the line that is on the screen, and nothing else. */
  method DrawHline(m: array<Byte>, x: U16, y: U16, len: U16, color: Color)
    requires m.Length == BYTES && y < V_RES
    modifies m
    ensures forall px, py :: IsPixel(px, py) ==>
      Pixel(m, px, py) == if py == y && x <= px < x + len then color else old(Pixel(m, px, py))
  {
    hide Offset, Pixel;
    var i: int := x;
    while i < x + len && i < H_RES
      invariant x <= i && (i <= x + len)
      invariant forall px, py :: IsPixel(px, py) ==>
        Pixel(m, px, py) == if py == y && x <= px < i then color else old(Pixel(m, px, py))
    {
      SetPixel(m, i, y, color);
      i := i + 1;
    }
  }

  predicate InRectangle(px: int, py: int, x: int, y: int, width: int, height: int) {
    x <= px < x + width && y <= py < y + height
  }

  /** The test with which draw_rectangle refuses corners off the board. */
  predicate CornerOnBoard(x: U16, y: U16) {
    0 <= GetBoardX(x) <= 7 && 0 <= GetBoardY(y) <= 7
  }

  /** draw_rectangle: the part of the rectangle that is on the screen when its
      corner is on the board, and nothing else. */
  method DrawRectangle(m: array<Byte>, x: U16, y: U16, width: U16, height: U16, color: Color)
    requires m.Length == BYTES
    modifies m
    ensures forall px, py :: IsPixel(px, py) ==>
      Pixel(m, px, py) == if CornerOnBoard(x, y) && InRectangle(px, py, x, y, width, height) then color
                          else old(Pixel(m, px, py))
  {
    hide Offset, Pixel, GetBoardX, GetBoardY;
    if 0 <= GetBoardX(x) <= 7 && 0 <= GetBoardY(y) <= 7 {
      var i: int := y;
      while i < y + height && i < V_RES
        invariant y <= i <= y + height
        invariant forall px, py :: IsPixel(px, py) ==>
          Pixel(m, px, py) == if InRectangle(px, py, x, y, width, i - y) then color else old(Pixel(m, px, py))
      {
        DrawHline(m, x, i, width, color);
        i := i + 1;
      }
    }
  }

  datatype Image = Image(width: nat, height: nat, pixels: seq<Color>)

  predicate WellFormed(img: Image) { |img.pixels| == img.width * img.height }

  lemma RowMajor(x: nat, y: nat, width: nat, height: nat)
    requires x < width && y < height
    ensures 0 <= y * width + x < width * height
  {
    assert (y + 1) * width <= height * width;
  }

  /** An image lists its pixels row by row from the top. */
  lemma RowByRow(img: Image, k: nat)
    requires WellFormed(img) && k < |img.pixels| && img.width > 0
    ensures k % img.width < img.width && k / img.width < img.height
    ensures At(img, k % img.width, k / img.width) == img.pixels[k]
  {
    var x, y := k % img.width, k / img.width;
    assert k == y * img.width + x;
    RowsGrow(y, img.height, img.width);
  }

  lemma RowsGrow(y: nat, height: nat, width: nat)
    ensures y >= height ==> y * width >= height * width
  {
  }

  /** A pixel of the image, listed row by row. */
  function At(img: Image, x: nat, y: nat): Color
    requires WellFormed(img) && x < img.width && y < img.height
  {
    RowMajor(x, y, img.width, img.height);
    img.pixels[y * img.width + x]
  }

  /** Does the image at (x, y) colour pixel (px, py)? */
  predicate Covers(img: Image, x: U16, y: U16, px: int, py: int)
    requires WellFormed(img)
  {
    InRectangle(px, py, x, y, img.width, img.height) && At(img, px - x, py - y) != TRANSPARENT
  }

  /** draw_image: the opaque part of the image that is on the screen, and
      nothing else. */
  method DrawImage(m: array<Byte>, img: Image, x: U16, y: U16)
    requires m.Length == BYTES && WellFormed(img)
    modifies m
    ensures forall px, py :: IsPixel(px, py) ==>
      Pixel(m, px, py) == if Covers(img, x, y, px, py) then At(img, px - x, py - y) else old(Pixel(m, px, py))
  {
    hide Offset, Pixel, At;
    var yImg := 0;
    while yImg < img.height && y + yImg < V_RES
      invariant 0 <= yImg <= img.height
      invariant forall px, py :: IsPixel(px, py) ==>
        Pixel(m, px, py) == if py < y + yImg && Covers(img, x, y, px, py) then At(img, px - x, py - y)
                            else old(Pixel(m, px, py))
    {
      var xImg := 0;
      while xImg < img.width && x + xImg < H_RES
        invariant 0 <= xImg <= img.width
        invariant forall px, py :: IsPixel(px, py) ==>
          Pixel(m, px, py) ==
            if (py < y + yImg || (py == y + yImg && px < x + xImg)) && Covers(img, x, y, px, py)
            then At(img, px - x, py - y) else old(Pixel(m, px, py))
      {
        if At(img, xImg, yImg) != TRANSPARENT {
          SetPixel(m, x + xImg, y + yImg, At(img, xImg, yImg));
        }
        xImg := xImg + 1;
      }
      yImg := yImg + 1;
    }
  }

  // ---------------------------------------------------------------------
  // The board's tiles

  predicate InTile(s: Square, px: int, py: int) {
    InRectangle(px, py, LEFT + TILE * s.col, TOP + TILE * s.row, TILE, TILE)
  }

  /** The tiles are 59 by 59 pixels, and together they are the board. */
  lemma TilesAre(s: Square, px: int, py: int)
    requires s.OnBoard() && IsPixel(px, py)
    ensures InTile(s, px, py) <==> 65 + 59 * s.col <= px < 65 + 59 * s.col + 59 && 64 + 59 * s.row <= py < 64 + 59 * s.row + 59
    ensures InTile(s, px, py) <==> GetBoardX(px) == s.col && GetBoardY(py) == s.row
    ensures 65 <= px < 537 && 64 <= py < 536 <==> Square(GetBoardX(px), GetBoardY(py)).OnBoard()
  {
  }

  /** Tiles do not overlap. */
  lemma TilesDisjoint(s: Square, t: Square, px: int, py: int)
    requires InTile(s, px, py) && InTile(t, px, py)
    ensures s == t
  {
  }

  /** The colour of a tile's top-left pixel. */
  function TopLeft(m: array<Byte>, s: Square): Color
    requires m.Length == BYTES && s.OnBoard()
    reads m
  {
    Pixel(m, LEFT + TILE * s.col, TOP + TILE * s.row)
  }

  /** The squares whose top-left pixel is orange. */
  ghost function OrangeSet(m: array<Byte>): set<Square>
    requires m.Length == BYTES
    reads m
  {
    set k | 0 <= k < 64 && TopLeft(m, SquareAt(k)) == ORANGE :: SquareAt(k)
  }

  lemma OrangeIff(m: array<Byte>, s: Square)
    requires m.Length == BYTES && s.OnBoard()
    ensures s in OrangeSet(m) <==> TopLeft(m, s) == ORANGE
  {
    assert SquareAt(s.Index()) == s;
  }

  /** The rectangle for a square, given by screen coordinates narrowed to 16
      bits, is its tile, or nothing when the square is off the board. */
  method PaintSquare(m: array<Byte>, s: Square, color: Color)
    requires m.Length == BYTES && -7 <= s.col <= 14 && -7 <= s.row <= 14
    modifies m
    ensures forall px, py :: IsPixel(px, py) ==>
      Pixel(m, px, py) == if s.OnBoard() && InTile(s, px, py) then color else old(Pixel(m, px, py))
    ensures forall t: Square :: t.OnBoard() ==> TopLeft(m, t) == if t == s then color else old(TopLeft(m, t))
  {
    OffBoardStaysOff(s.col);
    OffBoardStaysOff(s.row);
    DrawRectangle(m, ToU16(GetScreenX(s.col)), ToU16(GetScreenY(s.row)), 59, 59, color);
    hide Offset, Pixel, GetBoardX, GetBoardY, GetScreenX, GetScreenY;
  }

  function PixelIn(b: seq<Byte>, px: int, py: int): Color
    requires |b| == BYTES && IsPixel(px, py)
  {
    var k := Offset(px, py);
    Color(b[k], b[k + 1], b[k + 2])
  }

  lemma PixelsOf(m: array<Byte>)
    requires m.Length == BYTES
    ensures forall px, py :: IsPixel(px, py) ==> PixelIn(m[..], px, py) == Pixel(m, px, py)
  {
  }

  /** The pixel lies in no tile. */
  ghost predicate OffTiles(px: int, py: int) { forall t: Square :: t.OnBoard() ==> !InTile(t, px, py) }

  /** From buffer b to buffer c each tile stays as it is or becomes orange as a
      whole, and nothing changes outside the tiles. */
  ghost predicate Daubed(b: seq<Byte>, c: seq<Byte>) {
    && |b| == |c| == BYTES
    && (forall px, py :: IsPixel(px, py) && OffTiles(px, py) ==> PixelIn(c, px, py) == PixelIn(b, px, py))
    && (forall t: Square :: t.OnBoard() ==> TileKept(b, c, t) || TileOrange(c, t))
  }

  ghost predicate TileKept(b: seq<Byte>, c: seq<Byte>, t: Square)
    requires |b| == |c| == BYTES
  {
    forall px, py :: IsPixel(px, py) && InTile(t, px, py) ==> PixelIn(c, px, py) == PixelIn(b, px, py)
  }

  ghost predicate TileOrange(c: seq<Byte>, t: Square)
    requires |c| == BYTES
  {
    forall px, py :: IsPixel(px, py) && InTile(t, px, py) ==> PixelIn(c, px, py) == ORANGE
  }

  lemma DaubedTwice(a: seq<Byte>, b: seq<Byte>, c: seq<Byte>)
    requires Daubed(a, b) && Daubed(b, c)
    ensures Daubed(a, c)
  {
    hide PixelIn, InTile, OffTiles;
    forall t: Square | t.OnBoard()
      ensures TileKept(a, c, t) || TileOrange(c, t)
    {
      if TileKept(b, c, t) && TileOrange(b, t) {
        assert TileOrange(c, t);
      }
    }
  }

  /** Painting one square daubs. */
  lemma SquareDaubed(b: seq<Byte>, c: seq<Byte>, s: Square)
    requires |b| == |c| == BYTES
    requires forall px, py :: IsPixel(px, py) ==>
      PixelIn(c, px, py) == if s.OnBoard() && InTile(s, px, py) then ORANGE else PixelIn(b, px, py)
    ensures Daubed(b, c)
  {
    hide PixelIn;
    forall t: Square | t.OnBoard()
      ensures TileKept(b, c, t) || TileOrange(c, t)
    {
      if t != s {
        forall px, py | IsPixel(px, py) && InTile(t, px, py)
          ensures PixelIn(c, px, py) == PixelIn(b, px, py)
        {
          if InTile(s, px, py) {
            TilesDisjoint(s, t, px, py);
          }
        }
      }
    }
  }

  /** Painting is done in steps. */
  lemma DaubedSteps()
    ensures forall b: seq<Byte> {:trigger Daubed(b, b)} :: |b| == BYTES ==> Daubed(b, b)
    ensures forall a: seq<Byte>, b: seq<Byte>, c: seq<Byte> {:trigger Daubed(a, b), Daubed(b, c)} ::
      Daubed(a, b) && Daubed(b, c) ==> Daubed(a, c)
  {
    forall a: seq<Byte>, b: seq<Byte>, c: seq<Byte> | Daubed(a, b) && Daubed(b, c)
      ensures Daubed(a, c)
    {
      DaubedTwice(a, b, c);
    }
    hide PixelIn, InTile, OffTiles;
  }

  /** Tiles are cream and green in turn. */
  function Chequer(t: Square): Color { if (t.col + t.row) % 2 == 0 then CREAM else GREEN }

  /** The colour of a tile's top-left pixel. */
  function Corner(b: seq<Byte>, t: Square): Color
    requires |b| == BYTES && t.OnBoard()
  {
    PixelIn(b, LEFT + TILE * t.col, TOP + TILE * t.row)
  }

  /** Every tile is orange as a whole, or has its colour as a whole. */
  ghost predicate Chequered(b: seq<Byte>) {
    |b| == BYTES && forall t: Square :: t.OnBoard() ==> TileOf(b, t, if Corner(b, t) == ORANGE then ORANGE else Chequer(t))
  }

  ghost predicate TileOf(b: seq<Byte>, t: Square, color: Color)
    requires |b| == BYTES
  {
    forall px, py :: IsPixel(px, py) && InTile(t, px, py) ==> PixelIn(b, px, py) == color
  }

  /** Tiles that become orange as a whole leave the buffer chequered. */
  lemma StaysChequered(b: seq<Byte>, c: seq<Byte>)
    requires Chequered(b) && |c| == BYTES
    requires forall t: Square :: t.OnBoard() ==> TileKept(b, c, t) || TileOrange(c, t)
    ensures Chequered(c)
  {
    hide PixelIn;
    forall t: Square | t.OnBoard()
      ensures TileOf(c, t, if Corner(c, t) == ORANGE then ORANGE else Chequer(t))
    {
      assert IsPixel(LEFT + TILE * t.col, TOP + TILE * t.row) && InTile(t, LEFT + TILE * t.col, TOP + TILE * t.row);
      assert TileOf(b, t, if Corner(b, t) == ORANGE then ORANGE else Chequer(t));
    }
  }

  lemma DaubedStaysChequered(b: seq<Byte>, c: seq<Byte>)
    requires Chequered(b) && Daubed(b, c)
    ensures Chequered(c)
  {
    hide PixelIn, Chequered, OffTiles;
    StaysChequered(b, c);
  }

  /** In a chequered buffer the orange squares are orange in every pixel, and no
      other square is in any. */
  lemma OrangePixels(m: array<Byte>, t: Square, px: int, py: int)
    requires m.Length == BYTES && Chequered(m[..]) && t.OnBoard() && IsPixel(px, py) && InTile(t, px, py)
    ensures Pixel(m, px, py) == if t in OrangeSet(m) then ORANGE else if (t.col + t.row) % 2 == 0 then CREAM else GREEN
  {
    hide PixelIn, OrangeSet, Offset;
    OrangeIff(m, t);
    PixelsOf(m);
    assert TileOf(m[..], t, if Corner(m[..], t) == ORANGE then ORANGE else Chequer(t));
    assert IsPixel(LEFT + TILE * t.col, TOP + TILE * t.row);
  }

  /** The square alone, if it is on the board. */
  function Only(s: Square): set<Square> { if s.OnBoard() then {s} else {} }

  /** Highlighting a square adds it to the orange squares, if it is one. */
  method Highlight(m: array<Byte>, s: Square)
    requires m.Length == BYTES && -7 <= s.col <= 14 && -7 <= s.row <= 14
    modifies m
    ensures OrangeSet(m) == old(OrangeSet(m)) + Only(s)
    ensures Daubed(old(m[..]), m[..])
  {
    hide Offset, Pixel, TopLeft, PixelIn, Daubed, InTile;
    PixelsOf(m);
    PaintSquare(m, s, ORANGE);
    PixelsOf(m);
    SquareDaubed(old(m[..]), m[..], s);
    forall t: Square | t.OnBoard()
      ensures t in OrangeSet(m) <==> t in old(OrangeSet(m)) || t == s
    {
      OrangeIff(m, t);
      assert SquareAt(t.Index()) == t;
    }
  }

  /** drawBoard: every tile is repainted, so no square stays orange, and
      nothing outside the board changes. */
  method DrawBoard(m: array<Byte>)
    requires m.Length == BYTES
    modifies m
    ensures OrangeSet(m) == {} && Chequered(m[..])
    ensures forall t: Square, px, py :: t.OnBoard() && IsPixel(px, py) && InTile(t, px, py) ==>
      Pixel(m, px, py) == if (t.col + t.row) % 2 == 0 then CREAM else GREEN
    ensures forall px, py :: IsPixel(px, py) && OffTiles(px, py) ==> Pixel(m, px, py) == old(Pixel(m, px, py))
  {
    hide Offset, Pixel, InTile, IsPixel, OrangeSet, Chequered;
    var color := GREEN;
    var row := 0;
    while row < 8
      invariant 0 <= row <= 8 && color == if row % 2 == 0 then GREEN else CREAM
      invariant forall t: Square, px, py :: t.OnBoard() && t.row < row && IsPixel(px, py) && InTile(t, px, py) ==>
        Pixel(m, px, py) == Chequer(t)
      invariant forall px, py :: IsPixel(px, py) && OffTiles(px, py) ==> Pixel(m, px, py) == old(Pixel(m, px, py))
    {
      var col := 0;
      while col < 8
        invariant 0 <= col <= 8 && color == if (row + col) % 2 == 0 then GREEN else CREAM
        invariant forall t: Square, px, py ::
          t.OnBoard() && (t.row < row || (t.row == row && t.col < col)) && IsPixel(px, py) && InTile(t, px, py) ==>
            Pixel(m, px, py) == Chequer(t)
        invariant forall px, py :: IsPixel(px, py) && OffTiles(px, py) ==> Pixel(m, px, py) == old(Pixel(m, px, py))
      {
        color := if color == GREEN then CREAM else GREEN;
        OneTile(Square(col, row));
        PaintSquare(m, Square(col, row), color);
        col := col + 1;
      }
      color := if color == GREEN then CREAM else GREEN;
      row := row + 1;
    }
    DrawnIsChequered(m);
  }

  lemma OneTile(s: Square)
    ensures forall t: Square, px, py :: InTile(s, px, py) && InTile(t, px, py) ==> t == s
  {
  }

  lemma DrawnIsChequered(m: array<Byte>)
    requires m.Length == BYTES
    requires forall t: Square, px, py :: t.OnBoard() && IsPixel(px, py) && InTile(t, px, py) ==> Pixel(m, px, py) == Chequer(t)
    ensures OrangeSet(m) == {} && Chequered(m[..])
  {
    hide Pixel, PixelIn, Offset;
    PixelsOf(m);
    forall k | 0 <= k < 64
      ensures TopLeft(m, SquareAt(k)) != ORANGE
    {
      var t := SquareAt(k);
      assert InTile(t, LEFT + TILE * t.col, TOP + TILE * t.row);
    }
  }

  /** The pixel test of the drop handler. */
  method IsHighlighted(m: array<Byte>, s: Square) returns (orange: bool)
    requires m.Length == BYTES && s.OnBoard()
    ensures orange <==> s in OrangeSet(m)
  {
    ScreenIsLinear(s.col);
    ScreenIsLinear(s.row);
    var k := 3 * (GetScreenY(s.row) * H_RES + GetScreenX(s.col));
    orange := m[k] == 0x0e && m[k + 1] == 0x82 && m[k + 2] == 0xed;
    OrangeIff(m, s);
  }

  /** The toggle image lies right of the board: drawing it at (538, 185) leaves
      every tile as it was. */
  method DrawToggle(m: array<Byte>, img: Image)
    requires m.Length == BYTES && WellFormed(img)
    modifies m
    ensures forall t: Square, px, py :: t.OnBoard() && IsPixel(px, py) && InTile(t, px, py) ==>
      Pixel(m, px, py) == old(Pixel(m, px, py))
    ensures forall px, py :: IsPixel(px, py) ==>
      Pixel(m, px, py) == if Covers(img, 538, 185, px, py) then At(img, px - 538, py - 185) else old(Pixel(m, px, py))
    ensures OrangeSet(m) == old(OrangeSet(m)) && (old(Chequered(m[..])) ==> Chequered(m[..]))
  {
    hide Offset, Pixel, At, PixelIn, Chequered, Covers;
    ghost var was := m[..];
    PixelsOf(m);
    BesideTiles(img);
    DrawImage(m, img, 538, 185);
    PixelsOf(m);
    if Chequered(was) {
      StaysChequered(was, m[..]);
    }
  }

  /** The toggle image covers no pixel of a tile. */
  lemma BesideTiles(img: Image)
    requires WellFormed(img)
    ensures forall t: Square, px, py :: t.OnBoard() && InTile(t, px, py) ==> !Covers(img, 538, 185, px, py)
  {
    hide At;
  }
}
