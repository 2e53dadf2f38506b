/** Shared value types: options, the C integer widths the program relies on,
    and the squares of the board. */
module Common {

  datatype Option<+T> = None | Some(value: T)

  type Byte = b: int | 0 <= b < 256
  type U16 = x: int | 0 <= x < 65536

  /** Conversion to uint16_t. */
  function ToU16(x: int): U16 { x % 65536 }

  /** Conversion to a 32-bit unsigned. */
  function ToU32(x: int): int { x % 0x1_0000_0000 }

  /** A 32-bit unsigned value read back as a signed int. */
  function ToI32(x: int): int { if x < 0x8000_0000 then x else x - 0x1_0000_0000 }

  function Max(a: int, b: int): int { if a < b then b else a }

  function Min(a: int, b: int): int { if a < b then a else b }

  function Abs(a: int): int { if a < 0 then -a else a }

  /** A column and a row; the row counts downwards from Black's back rank. */
  datatype Square = Square(col: int, row: int) {
    predicate OnBoard() { 0 <= col < 8 && 0 <= row < 8 }

    /** Index of the square in the 64-entry board. */
    function Index(): int { row * 8 + col }
  }

  /** The square held at a board index. */
  function SquareAt(k: int): (s: Square)
    requires 0 <= k < 64
    ensures s.OnBoard() && s.Index() == k
  {
    Square(k % 8, k / 8)
  }

  /** Every byte value is the value of a bit pattern. */
  lemma {:induction false} Pattern(b: Byte) returns (w: bv8)
    ensures w as int == b
  {
    if b == 0 {
      w := 0;
    } else {
      var v := Pattern(b - 1);
      w := v + 1;
    }
  }
}
