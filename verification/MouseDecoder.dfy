/** Assembly of three-byte PS/2 packets from the bytes of the mouse. */
module MouseDecoder {
  import opened Common

  datatype Packet = Packet(lb: bool, mb: bool, rb: bool, xOv: bool, yOv: bool, dx: int, dy: int)

  /** A 16-bit pattern read as a signed number. */
  function Signed16(v: bv16): int {
    if v < 0x8000 then v as int else v as int - 0x1_0000
  }

  /** A movement byte, sign-extended by the sign bit of the first byte. */
  function Delta(byte: bv8, negative: bool): int {
    var wide := byte as bv16;
    Signed16(if negative then wide | 0xFF00 else wide)
  }

  function Decode(b0: bv8, b1: bv8, b2: bv8): Packet {
    Packet(b0 & 0x01 != 0, b0 & 0x04 != 0, b0 & 0x02 != 0, b0 & 0x40 != 0, b0 & 0x80 != 0,
           Delta(b1, b0 & 0x10 != 0), Delta(b2, b0 & 0x20 != 0))
  }

  /** Does the byte have bit 3 set, as the first byte of every packet has? */
  predicate First(b: bv8) { b & 0x08 != 0 }

  /** The simple parser: skip to a byte with bit 3 set, then take three. */
  function Packets(s: seq<bv8>): seq<Packet>
    decreases |s|
  {
    if s == [] then []
    else if !First(s[0]) then Packets(s[1..])
    else if |s| < 3 then []
    else [Decode(s[0], s[1], s[2])] + Packets(s[3..])
  }

  class Decoder {
    var i: int
    var validPacket: bool
    var updateMouse: bool
    const bytes: array<bv8>
    var pp: Packet

    /** The index points into the buffer: true in every error-free run. */
    ghost predicate Valid()
      reads this
    {
      bytes.Length == 3 && 0 <= i <= 2 && validPacket
    }

    /** The part of the current packet that has been read. */
    ghost function Partial(): seq<bv8>
      requires Valid()
      reads this, bytes
    {
      bytes[..i]
    }

    constructor ()
      ensures Valid() && Partial() == [] && !updateMouse && fresh(bytes)
    {
      i := 0;
      validPacket := true;
      updateMouse := false;
      bytes := new bv8[3](_ => 0);
      pp := Packet(false, false, false, false, false, 0, 0);
    }

    /** mouse_ih on a byte from the mouse; `error` is the timeout or parity flag
        of the status. The main loop resets updateMouse when it takes the
        packet. */
    method Byte(byte: bv8, error: bool)
      requires bytes.Length == 3 && 0 <= i <= 2
      modifies this, bytes
      ensures (i, validPacket) == NextIndex(old(i), old(validPacket), byte, error)
      ensures updateMouse == (old(updateMouse) || Emits(old(i), old(validPacket), error))
      ensures !error && old(validPacket) ==> Valid()
      ensures !error && old(validPacket) ==>
        if old(i) == 0 && !First(byte) then Partial() == []
        else if old(i) < 2 then Partial() == old(bytes[..i]) + [byte]
        else Partial() == [] && pp == Decode(old(bytes[0]), old(bytes[1]), byte)
    {
      if !error {
        if i == 0 && !First(byte) {
          i := i - 1;
        } else {
          bytes[i] := byte;
        }
        if i == 2 {
          if !validPacket {
            validPacket := true;
          } else {
            pp := Decode(bytes[0], bytes[1], bytes[2]);
            i := -1;
            updateMouse := true;
          }
        }
      } else {
        validPacket := false;
      }
      i := i + 1;
    }
  }

  /** Index and validity flag after one byte. */
  function NextIndex(i: int, valid: bool, byte: bv8, error: bool): (int, bool) {
    if error then (i + 1, false)
    else if i == 0 && !First(byte) then (0, valid)
    else if i == 2 then (if valid then 0 else 3, true)
    else (i + 1, valid)
  }

  /** Does the byte complete a packet? */
  predicate Emits(i: int, valid: bool, error: bool) { !error && i == 2 && valid }

  /** A byte and its error flag. */
  type Read = (bv8, bool)

  /** Index and validity flag after a stream of bytes, and the packets
      completed on the way. */
  function After(i: int, valid: bool, s: seq<Read>): (int, bool, nat)
    decreases |s|
  {
    if s == [] then (i, valid, 0)
    else
      var n := NextIndex(i, valid, s[0].0, s[0].1);
      var rest := After(n.0, n.1, s[1..]);
      (rest.0, rest.1, rest.2 + if Emits(i, valid, s[0].1) then 1 else 0)
  }

  /** The index is not reset after an errored byte. Whatever follows, with or
      without further errors, it grows by one with every byte, so it leaves the
      three-byte buffer after 2 - i of them, and no packet is completed again. */
  lemma ErrorJams(i: int, valid: bool, byte: bv8, s: seq<Read>)
    requires 0 <= i <= 2
    ensures var n := NextIndex(i, valid, byte, true);
            After(n.0, n.1, s).0 == i + 1 + |s| && After(n.0, n.1, s).2 == 0
  {
    StaysJammed(i + 1, false, s);
  }

  lemma {:induction false} StaysJammed(i: int, valid: bool, s: seq<Read>)
    requires i >= 3 || (i >= 1 && !valid)
    ensures After(i, valid, s).0 == i + |s| && After(i, valid, s).2 == 0
    decreases |s|
  {
    if s != [] {
      var n := NextIndex(i, valid, s[0].0, s[0].1);
      StaysJammed(n.0, n.1, s[1..]);
    }
  }

  /** For every error-free byte stream the handler emits exactly the packets of
      the simple parser. */
  method DecodeStream(s: seq<bv8>) returns (packets: seq<Packet>)
    ensures packets == Packets(s)
  {
    hide Packets, Decode;
    var d := new Decoder();
    packets := [];
    var k := 0;
    assert d.Partial() + s[0..] == s;
    assert [] + Packets(s) == Packets(s);
    while k < |s|
      invariant k <= |s| && d.Valid() && !d.updateMouse && fresh(d) && fresh(d.bytes)
      invariant d.Partial() != [] ==> First(d.Partial()[0])
      invariant Packets(s) == packets + Packets(d.Partial() + s[k..])
    {
      ghost var part, before, tail := d.Partial(), packets, s[k + 1..];
      assert part + s[k..] == part + [s[k]] + tail;
      ParseStep(part, s[k], tail);
      d.Byte(s[k], false);
      if d.updateMouse {
        packets := packets + [d.pp];
        d.updateMouse := false;
        assert before + ([d.pp] + Packets(tail)) == packets + Packets(tail);
      }
      assert [] + tail == tail;
      k := k + 1;
    }
    assert d.Partial() + s[k..] == d.Partial();
    ParseEnd(d.Partial());
    assert packets + [] == packets;
  }

  /** A partial packet yields nothing. */
  lemma ParseEnd(part: seq<bv8>)
    requires |part| <= 2 && (part != [] ==> First(part[0]))
    ensures Packets(part) == []
  {
  }

  /** One byte after a partial packet. */
  lemma ParseStep(part: seq<bv8>, byte: bv8, rest: seq<bv8>)
    requires |part| <= 2 && (part != [] ==> First(part[0]))
    ensures part == [] && !First(byte) ==> Packets(part + [byte] + rest) == Packets(rest)
    ensures |part| == 2 ==> Packets(part + [byte] + rest) == [Decode(part[0], part[1], byte)] + Packets(rest)
  {
    var s := part + [byte] + rest;
    if part == [] {
      assert s[1..] == rest;
    }
    if |part| == 2 {
      assert s[3..] == rest;
    }
  }

  /** The masks pick single bits. */
  lemma Masks(b: bv8)
    ensures (b & 0x01 != 0 <==> b % 2 == 1) && (b & 0x02 != 0 <==> (b >> 1) % 2 == 1) && (b & 0x04 != 0 <==> (b >> 2) % 2 == 1)
    ensures (b & 0x08 != 0 <==> (b >> 3) % 2 == 1) && (b & 0x10 != 0 <==> (b >> 4) % 2 == 1)
    ensures (b & 0x20 != 0 <==> (b >> 5) % 2 == 1) && (b & 0x40 != 0 <==> (b >> 6) % 2 == 1)
    ensures b & 0x80 != 0 <==> (b >> 7) % 2 == 1
  {
  }

  /** What the bits of the three bytes mean: bit 3 marks a first byte, bits 0 to
      2 are the left, right and middle button, bits 4 and 5 the signs of the two
      nine-bit movements, bits 6 and 7 the overflows. */
  lemma BitsMean(b0: bv8, b1: bv8, b2: bv8)
    ensures First(b0) <==> (b0 >> 3) % 2 == 1
    ensures var p := Decode(b0, b1, b2);
            && (p.lb <==> b0 % 2 == 1) && (p.rb <==> (b0 >> 1) % 2 == 1) && (p.mb <==> (b0 >> 2) % 2 == 1)
            && (p.xOv <==> (b0 >> 6) % 2 == 1) && (p.yOv <==> (b0 >> 7) % 2 == 1)
            && p.dx == b1 as int - (if (b0 >> 4) % 2 == 1 then 256 else 0)
            && p.dy == b2 as int - (if (b0 >> 5) % 2 == 1 then 256 else 0)
  {
    hide Delta;
    Masks(b0);
    DeltaIsSigned(b1, b0 & 0x10 != 0);
    DeltaIsSigned(b2, b0 & 0x20 != 0);
  }

  /** The first byte of a packet for the given buttons, overflows and signs. */
  function Header(p: Packet): bv8 {
    0x08 | (if p.lb then 0x01 else 0) | (if p.rb then 0x02 else 0) | (if p.mb then 0x04 else 0)
    | (if p.dx < 0 then 0x10 else 0) | (if p.dy < 0 then 0x20 else 0)
    | (if p.xOv then 0x40 else 0) | (if p.yOv then 0x80 else 0)
  }

  /** Nine-bit two's complement: the low eight bits of a movement. */
  function Low(d: int): bv8 { (d % 256) as bv8 }

  /** Widening keeps the value, and the sign extension adds 0xFF00. */
  lemma WideByte(b: bv8)
    ensures (b as bv16) as int == b as int
    ensures ((b as bv16) | 0xFF00) as int == b as int + 0xFF00
  {
    assert (b as bv16) | 0xFF00 == (b as bv16) + 0xFF00;
  }

  lemma DeltaIsSigned(b: bv8, negative: bool)
    ensures Delta(b, negative) == b as int - (if negative then 256 else 0)
  {
    WideByte(b);
    var wide := b as bv16;
    assert wide < 0x8000 && wide | 0xFF00 >= 0x8000;
  }

  lemma ByteBack(b: Byte)
    ensures (b as bv8) as int == b
  {
    var w := Pattern(b);
    assert (w as int) as bv8 == w;
  }

  lemma LowValue(d: int)
    requires -256 <= d <= 255
    ensures Low(d) as int == if d < 0 then d + 256 else d
  {
    var b: Byte := if d < 0 then d + 256 else d;
    assert d % 256 == b;
    ByteBack(b);
  }

  lemma DeltaOfLow(d: int)
    requires -256 <= d <= 255
    ensures Delta(Low(d), d < 0) == d
  {
    hide Delta, Low;
    DeltaIsSigned(Low(d), d < 0);
    LowValue(d);
  }

  /** Decoding undoes encoding for movements of -256 to 255. */
  lemma DecodeEncode(p: Packet)
    requires -256 <= p.dx <= 255 && -256 <= p.dy <= 255
    ensures Decode(Header(p), Low(p.dx), Low(p.dy)) == p
    ensures First(Header(p))
  {
    DeltaOfLow(p.dx);
    DeltaOfLow(p.dy);
  }
}
