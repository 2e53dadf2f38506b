/** Fixed screen geometry of mode 0x115 once the board is initialised, with the
    unsigned arithmetic of the coordinate conversions written out. */
module Geometry {
  import opened Common

  const H_RES := 800
  const V_RES := 600
  const TILE := 59
  const LEFT := 65
  const TOP := 64

  function GetScreenX(col: int): int { ToI32(ToU32(col * TILE + LEFT)) }

  function GetScreenY(row: int): int { ToI32(ToU32(TOP + row * TILE)) }

  function GetBoardX(x: int): int { ToU32(x - LEFT) / TILE }

  function GetBoardY(y: int): int { ToU32(y - TOP) / TILE }

  /** The geometry as initBoard computes it from the resolution: a margin of 128
      rows shared by top and bottom, eight square tiles, and a fifth of what is
      left of the width on the left. */
  lemma Margins()
    ensures H_RES == 800 && V_RES == 600
    ensures TILE == (600 - 128) / 8 && TOP == 128 / 2 && LEFT == ((800 - 8 * TILE) * 20) / 100
  {
  }

  /** Column 0..7 is reported exactly for the pixels of the board strip. */
  lemma BoardXStrip(x: U16)
    ensures 0 <= GetBoardX(x)
    ensures GetBoardX(x) <= 7 <==> LEFT <= x < LEFT + 8 * TILE
  {
  }

  lemma BoardYStrip(y: U16)
    ensures 0 <= GetBoardY(y)
    ensures GetBoardY(y) <= 7 <==> TOP <= y < TOP + 8 * TILE
  {
  }

  /** Every pixel of a tile maps back to the tile's column and row. */
  lemma BoardInvertsScreen(col: int, row: int, dx: int, dy: int)
    requires 0 <= col < 8 && 0 <= row < 8 && 0 <= dx < TILE && 0 <= dy < TILE
    ensures GetBoardX(GetScreenX(col) + dx) == col
    ensures GetBoardY(GetScreenY(row) + dy) == row
  {
    hide GetScreenX, GetScreenY, GetBoardX, GetBoardY;
    ScreenIsLinear(col);
    ScreenIsLinear(row);
    ColumnBack(col, dx);
    RowBack(row, dy);
  }

  lemma ColumnBack(col: int, dx: int)
    requires 0 <= col < 8 && 0 <= dx < TILE
    ensures GetBoardX(LEFT + TILE * col + dx) == col
  {
  }

  lemma RowBack(row: int, dy: int)
    requires 0 <= row < 8 && 0 <= dy < TILE
    ensures GetBoardY(TOP + TILE * row + dy) == row
  {
  }

  /** Within reach of a piece, screen coordinates do not wrap. */
  lemma ScreenIsLinear(c: int)
    requires -7 <= c <= 14
    ensures GetScreenX(c) == LEFT + TILE * c && GetScreenY(c) == TOP + TILE * c
  {
  }

  /** A column or row off the board is still seen off the board after its
      screen coordinate is narrowed to 16 bits. */
  lemma OffBoardStaysOff(c: int)
    requires -7 <= c <= 14
    ensures 0 <= GetBoardX(ToU16(GetScreenX(c))) <= 7 <==> 0 <= c < 8
    ensures 0 <= GetBoardY(ToU16(GetScreenY(c))) <= 7 <==> 0 <= c < 8
    ensures 0 <= c < 8 ==> ToU16(GetScreenX(c)) == LEFT + TILE * c && ToU16(GetScreenY(c)) == TOP + TILE * c
  {
    ScreenIsLinear(c);
    var x, y := ToU16(GetScreenX(c)), ToU16(GetScreenY(c));
    BoardXStrip(x);
    BoardYStrip(y);
    if c < -1 {
      assert x == LEFT + TILE * c + 65536 && y == TOP + TILE * c + 65536;
    } else {
      assert x == LEFT + TILE * c && y == TOP + TILE * c;
    }
  }
}
