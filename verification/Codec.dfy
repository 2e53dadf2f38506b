/** Bytes on the serial line: message tags, player colours, and squares packed
    as (col << 3) | row. */
module Codec {
  import opened Common

  const YOUR_TURN: Byte := 0xF8
  const BEGIN_MESSAGE: Byte := 0xF9
  const VM_CONNECTED: Byte := 0xFA
  const RECEIVE_VM_CONNECTED: Byte := 0xFD
  const BLACK_BYTE: Byte := 1
  const WHITE_BYTE: Byte := 2

  /** The byte for a square. Square (0, 0) becomes 0, which is also what an
      empty receive queue yields. */
  function EncodeSquare(s: Square): (b: Byte)
    requires s.OnBoard()
    ensures b < 64
  {
    8 * s.col + s.row
  }

  function DecodeSquare(b: Byte): (s: Square)
    ensures s.OnBoard()
  {
    Square(b / 8 % 8, b % 8)
  }

  /** The four bytes of one move. */
  function MoveMessage(from: Square, to: Square): (m: seq<Byte>)
    requires from.OnBoard() && to.OnBoard()
    ensures |m| == 4
  {
    [BEGIN_MESSAGE, EncodeSquare(from), EncodeSquare(to), YOUR_TURN]
  }

  predicate IsCorner(s: Square) { s == Square(0, 0) }

  /** Decoding undoes encoding, no square collides with a tag, and only the
      corner is confused with an empty queue. */
  lemma SquareRoundTrip(s: Square)
    requires s.OnBoard()
    ensures DecodeSquare(EncodeSquare(s)) == s
    ensures EncodeSquare(s) == 0 <==> IsCorner(s)
    ensures EncodeSquare(s) !in {YOUR_TURN, BEGIN_MESSAGE, VM_CONNECTED, RECEIVE_VM_CONNECTED}
  {
    assert (8 * s.col + s.row) / 8 == s.col;
  }

  /** The shifts and masks of the source are multiplications and divisions. */
  lemma Shifts(col: bv8, row: bv8, b: bv8)
    requires col < 8 && row < 8
    ensures (((col << 3) | row) & 0x38) >> 3 == col
    ensures (((col << 3) | row) & 0x07) == row
    ensures ((col << 3) | row) == 8 * col + row
    ensures (b & 0x38) >> 3 == (b / 8) % 8
    ensures b & 0x07 == b % 8
  {
  }

  lemma ShiftValue(col: bv8, row: bv8)
    requires col as int < 8 && row as int < 8
    ensures ((col << 3) | row) as int == 8 * (col as int) + row as int
  {
    assert col < 8 && row < 8;
    Shifts(col, row, 0);
  }

  lemma ColumnValue(b: bv8)
    ensures ((b & 0x38) >> 3) as int == b as int / 8 % 8
  {
    Shifts(0, 0, b);
    assert ((b / 8) % 8) as int == b as int / 8 % 8;
  }

  lemma RowValue(b: bv8)
    ensures (b & 0x07) as int == b as int % 8
  {
    Shifts(0, 0, b);
  }

  /** A square goes out as (col << 3) | row, and every byte is read back with
      the masks 0x38 and 0x07. */
  lemma BitsAgree(s: Square, col: bv8, row: bv8, byte: Byte, b: bv8)
    requires s.OnBoard() && s.col == col as int && s.row == row as int && byte == b as int
    ensures EncodeSquare(s) == ((col << 3) | row) as int
    ensures DecodeSquare(byte).col == ((b & 0x38) >> 3) as int && DecodeSquare(byte).row == (b & 0x07) as int
  {
    ShiftValue(col, row);
    ColumnValue(b);
    RowValue(b);
  }

  /** Every square and every byte has such bits. */
  lemma HaveBits(s: Square, byte: Byte) returns (col: bv8, row: bv8, b: bv8)
    requires s.OnBoard()
    ensures s.col == col as int && s.row == row as int && byte == b as int
  {
    col := Pattern(s.col);
    row := Pattern(s.row);
    b := Pattern(byte);
  }

  /** The bytes of a move on the line. */
  lemma MessageBytes(from: Square, to: Square)
    requires from.OnBoard() && to.OnBoard()
    ensures MoveMessage(from, to) == [0xF9, 8 * from.col + from.row, 8 * to.col + to.row, 0xF8]
  {
  }
}
