/**
 * The checksum of a plaintext frame: CRC-32 with the reflected IEEE polynomial, and what it means:
 * the complement of the remainder that section 3.2.9 of IEEE Std 802.3 asks for.
 */
module Crc32 {
  import opened Polynomials

  /** The reflected generator. */
  const TAPS: bv32 := 0xEDB8_8320

  /** x^26 + x^23 + x^22 + x^16 + x^12 + x^11 + x^10 + x^8 + x^7 + x^5 + x^4 + x^2 + x + 1, after x^32. */
  function GeneratorTail(): (tail: Poly)
    ensures |tail| == 32 && Proper(tail)
  {
    [false, false, false, false, false, true, false, false,
     true, true, false, false, false, false, false, true,
     false, false, false, true, true, true, false, true,
     true, false, true, true, false, true, true, true]
  }

  function Shift(c: bv32): bv32 {
    if Odd(c) then Xor(Half(c), TAPS) else Half(c)
  }

  function Shifts(c: bv32, n: nat): bv32
    decreases n
  {
    if n == 0 then c else Shifts(Shift(c), n - 1)
  }

  function Absorb(c: bv32, b: bv8): bv32 {
    Shifts(Xor(c, Widen(b)), 8)
  }

  function Run(c: bv32, data: seq<bv8>): bv32
    decreases data
  {
    if data == [] then c else Run(Absorb(c, data[0]), data[1..])
  }

  function Complement(c: bv32): bv32 {
    Xor(c, 0xFFFF_FFFF)
  }

  function Checksum(data: seq<bv8>): bv32 {
    Complement(Run(0xFFFF_FFFF, data))
  }

  // ---------------------------------------------------------------- the register as a polynomial

  function Register(c: bv32): (p: Poly)
    ensures |p| == 32
  {
    Bits(c, 32)
  }

  /** Thirty-two bits are all there are. */
  lemma RegisterFits(c: bv32)
    ensures HalveBy(c, 32) == 0
  {
    hide HalveBy, Bits, DropNibble;
    SixteenHalves(c);
    SixteenHalves(DropNibble(DropNibble(DropNibble(DropNibble(c)))));
    BitsAppend(c, 16, 16);
    NothingLeft(c);
  }

  lemma NothingLeft(c: bv32)
    ensures DropNibble(DropNibble(DropNibble(DropNibble(DropNibble(DropNibble(DropNibble(DropNibble(c)))))))) == 0
  {
  }

  lemma TapsAreTail()
    ensures Register(TAPS) == GeneratorTail()
  {
    TapNibbles();
    hide Bits, Nibble;
    NibbleBits(0xEDB8_8320, 28);
    NibbleBits(0x0EDB_8832, 24);
    NibbleBits(0x00ED_B883, 20);
    NibbleBits(0x000E_DB88, 16);
    NibbleBits(0xEDB8, 12);
    NibbleBits(0xEDB, 8);
    NibbleBits(0xED, 4);
    NibbleBits(0xE, 0);
    BitsOfZero(0);
  }

  lemma TapNibbles()
    ensures Nibble(0xEDB8_8320) == [false, false, false, false]
    ensures Nibble(0x0EDB_8832) == [false, true, false, false]
    ensures Nibble(0x00ED_B883) == [true, true, false, false]
    ensures Nibble(0x000E_DB88) == [false, false, false, true]
    ensures Nibble(0xEDB8) == [false, false, false, true]
    ensures Nibble(0xEDB) == [true, true, false, true]
    ensures Nibble(0xED) == [true, false, true, true]
    ensures Nibble(0xE) == [false, true, true, true]
  {
  }

  lemma OnesRegister()
    ensures Register(0xFFFF_FFFF) == Ones(32)
  {
    OnesNibbles();
    hide Bits, Nibble;
    NibbleBits(0xFFFF_FFFF, 28);
    NibbleBits(0xFFF_FFFF, 24);
    NibbleBits(0xFF_FFFF, 20);
    NibbleBits(0xF_FFFF, 16);
    NibbleBits(0xFFFF, 12);
    NibbleBits(0xFFF, 8);
    NibbleBits(0xFF, 4);
    NibbleBits(0xF, 0);
    BitsOfZero(0);
  }

  lemma OnesNibbles()
    ensures Nibble(0xFFFF_FFFF) == Nibble(0xFFF_FFFF) == Nibble(0xFF_FFFF) == Nibble(0xF_FFFF)
         == [true, true, true, true]
    ensures Nibble(0xFFFF) == Nibble(0xFFF) == Nibble(0xFF) == Nibble(0xF) == [true, true, true, true]
  {
  }

  lemma {:induction false} ShiftsFeed(c: bv32, n: nat)
    ensures Register(Shifts(c, n)) == FeedAll(Register(c), Zeros(n), GeneratorTail())
    decreases n
  {
    hide Bits, HalveBy, Odd, Half, Xor, Feed, TAPS, GeneratorTail;
    if n > 0 {
      RegisterFits(c);
      TapsAreTail();
      ShiftFeeds(c, TAPS, 32);
      ShiftsFeed(Shift(c), n - 1);
      assert Zeros(n)[1..] == Zeros(n - 1);
    }
  }

  lemma AbsorbFeeds(c: bv32, b: bv8)
    ensures Register(Absorb(c, b)) == FeedAll(Register(c), ByteBits(b), GeneratorTail())
  {
    hide Bits, Shifts, Xor, Widen, FeedAll, ByteBits, GeneratorTail;
    ShiftsFeed(Xor(c, Widen(b)), 8);
    ByteAdds(c, b, 32);
    FeedPending(Register(c), ByteBits(b), GeneratorTail());
  }

  lemma {:induction false} RunFeeds(c: bv32, data: seq<bv8>)
    ensures Register(Run(c, data)) == FeedAll(Register(c), MessageBits(data), GeneratorTail())
    decreases data
  {
    hide Register, Absorb, ByteBits, GeneratorTail, Feed;
    if data != [] {
      AbsorbFeeds(c, data[0]);
      RunFeeds(Absorb(c, data[0]), data[1..]);
      FeedAppend(Register(c), ByteBits(data[0]), MessageBits(data[1..]), GeneratorTail());
    }
  }

  // ---------------------------------------------------------------- main results

  /**
   * The complement of the checksum is the remainder of message * x^32 by the generator, the first
   * thirty-two coefficients complemented.
   */
  lemma {:induction false} ChecksumIsRemainder(data: seq<bv8>)
    ensures Register(Complement(Checksum(data)))
         == Remainder(AddHigh(MessageBits(data) + Zeros(32), Ones(32)), GeneratorTail())
  {
    hide Run, Remainder, FeedAll, Bits, MessageBits, AddHigh, GeneratorTail;
    var c := Run(0xFFFF_FFFF, data);
    ComplementTwice(c);
    hide Complement;
    RunFeeds(0xFFFF_FFFF, data);
    OnesRegister();
    FeedDivides(Ones(32), MessageBits(data), GeneratorTail());
  }

  lemma ComplementTwice(c: bv32)
    ensures Complement(Complement(c)) == c
  {
  }

  /** Different messages whose bits differ only within thirty-two consecutive ones never share a checksum. */
  lemma BurstDetected(a: seq<bv8>, b: seq<bv8>, i: nat, j: nat)
    requires BurstBetween(a, b, i, j) && j - i <= 32 && a != b
    ensures Checksum(a) != Checksum(b)
  {
    hide Run, FeedAll, MessageBits, GeneratorTail, Bits;
    ComplementTwice(Run(0xFFFF_FFFF, a));
    ComplementTwice(Run(0xFFFF_FFFF, b));
    hide Complement;
    RunFeeds(0xFFFF_FFFF, a);
    RunFeeds(0xFFFF_FFFF, b);
    BurstShows(Register(0xFFFF_FFFF), a, b, i, j, GeneratorTail());
  }
}
