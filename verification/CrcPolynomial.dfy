/**
 * What the header CRC means: the remainder of a polynomial division over GF(2) by
 * x^16 + x^15 + x^2 + 1, as in section 6.2.2 of the MODBUS over Serial Line specification V1.02.
 */
module CrcPolynomial {
  import opened Polynomials
  import Crc

  /** x^15 + x^2 + 1, after x^16. */
  function GeneratorTail(): (tail: Poly)
    ensures |tail| == 16 && Proper(tail)
  {
    [true, false, false, false, false, false, false, false,
     false, false, false, false, false, true, false, true]
  }

  function Wide(c: bv16): bv32 { c as bv32 }

  function Register(c: bv16): (p: Poly)
    ensures |p| == 16
  {
    Bits(Wide(c), 16)
  }

  // ---------------------------------------------------------------- the register as a polynomial

  /** One shift of the register, on the word it widens to. */
  lemma WideStep(c: bv16)
    ensures Wide(Crc.BitStep(c)) == if Odd(Wide(c)) then Xor(Half(Wide(c)), 0xA001) else Half(Wide(c))
  {
    hide Wide, Odd, Half, Xor, Crc.BitStep;
    if Odd(Wide(c)) {
      WideOddStep(c);
    } else {
      WideEvenStep(c);
    }
  }

  lemma WideOddStep(c: bv16)
    requires Odd(Wide(c))
    ensures Wide(Crc.BitStep(c)) == Xor(Half(Wide(c)), 0xA001)
  {
    LowBit(c);
    var half := c >> 1;
    assert Crc.BitStep(c) == Crc.Xor(half, 0xA001);
    WideHalf(c);
    WideAdd(half, 0xA001);
    assert Wide(0xA001) == 0xA001;
    hide *;
  }

  lemma WideEvenStep(c: bv16)
    requires !Odd(Wide(c))
    ensures Wide(Crc.BitStep(c)) == Half(Wide(c))
  {
    LowBit(c);
    assert Crc.BitStep(c) == c >> 1;
    WideHalf(c);
    hide *;
  }

  lemma LowBit(c: bv16)
    ensures Odd(Wide(c)) <==> c & 1 != 0
  {
  }

  lemma WideHalf(c: bv16)
    ensures Wide(c >> 1) == Half(Wide(c))
  {
  }

  lemma WideAdd(c: bv16, d: bv16)
    ensures Wide(Crc.Xor(c, d)) == Xor(Wide(c), Wide(d))
  {
  }

  lemma WideXor(c: bv16, b: bv8)
    ensures Wide(Crc.Xor(c, Crc.Widen(b))) == Xor(Wide(c), Widen(b))
  {
  }

  lemma RegisterFits(c: bv16)
    ensures HalveBy(Wide(c), 16) == 0
  {
    hide HalveBy, DropNibble, Wide;
    SixteenHalves(Wide(c));
    NothingLeft(c);
  }

  lemma NothingLeft(c: bv16)
    ensures DropNibble(DropNibble(DropNibble(DropNibble(Wide(c))))) == 0
  {
  }

  lemma TapsAreTail()
    ensures Bits(0xA001, 16) == GeneratorTail()
  {
    TapNibbles();
    hide Bits, Nibble;
    NibbleBits(0xA001, 12);
    NibbleBits(0xA00, 8);
    NibbleBits(0xA0, 4);
    NibbleBits(0xA, 0);
    BitsOfZero(0);
  }

  lemma TapNibbles()
    ensures Nibble(0xA001) == [true, false, false, false] && Nibble(0xA00) == [false, false, false, false]
    ensures Nibble(0xA0) == [false, false, false, false] && Nibble(0xA) == [false, true, false, true]
  {
  }

  lemma OnesRegister()
    ensures Register(0xFFFF) == Ones(16)
  {
    OnesNibbles();
    hide Bits, Nibble;
    NibbleBits(0xFFFF, 12);
    NibbleBits(0xFFF, 8);
    NibbleBits(0xFF, 4);
    NibbleBits(0xF, 0);
    BitsOfZero(0);
  }

  lemma OnesNibbles()
    ensures Nibble(0xFFFF) == Nibble(0xFFF) == Nibble(0xFF) == Nibble(0xF) == [true, true, true, true]
  {
  }

  lemma {:induction false} StepsFeed(c: bv16, n: nat)
    ensures Register(Crc.Steps(c, n)) == FeedAll(Register(c), Zeros(n), GeneratorTail())
    decreases n
  {
    hide Crc.BitStep, Wide, Bits, HalveBy, Odd, Half, Xor, Feed, GeneratorTail;
    if n > 0 {
      WideStep(c);
      RegisterFits(c);
      TapsAreTail();
      ShiftFeeds(Wide(c), 0xA001, 16);
      StepsFeed(Crc.BitStep(c), n - 1);
      assert Zeros(n)[1..] == Zeros(n - 1);
    }
  }

  lemma ByteFeeds(c: bv16, b: bv8)
    ensures Register(Crc.ByteStep(c, b)) == FeedAll(Register(c), ByteBits(b), GeneratorTail())
  {
    hide Crc.Steps, Crc.Xor, Crc.Widen, Wide, Bits, Xor, Widen, FeedAll, ByteBits, GeneratorTail;
    StepsFeed(Crc.Xor(c, Crc.Widen(b)), 8);
    WideXor(c, b);
    ByteAdds(Wide(c), b, 16);
    FeedPending(Register(c), ByteBits(b), GeneratorTail());
  }

  lemma {:induction false} CrcFeeds(c: bv16, data: seq<bv8>)
    ensures Register(Crc.Crc16From(c, data)) == FeedAll(Register(c), MessageBits(data), GeneratorTail())
    decreases data
  {
    hide Register, Crc.ByteStep, ByteBits, GeneratorTail, Feed;
    if data != [] {
      ByteFeeds(c, data[0]);
      CrcFeeds(Crc.ByteStep(c, data[0]), data[1..]);
      FeedAppend(Register(c), ByteBits(data[0]), MessageBits(data[1..]), GeneratorTail());
    }
  }

  // ---------------------------------------------------------------- main results

  /**
   * The header CRC is the remainder of message * x^16 by the generator, the first sixteen
   * coefficients complemented: the register starts at all ones.
   */
  lemma {:induction false} CrcIsRemainder(data: seq<bv8>)
    ensures Register(Crc.Crc16(data))
         == Remainder(AddHigh(MessageBits(data) + Zeros(16), Ones(16)), GeneratorTail())
  {
    hide Crc.Crc16From, Remainder, FeedAll, Bits, MessageBits, AddHigh, GeneratorTail;
    CrcFeeds(0xFFFF, data);
    OnesRegister();
    FeedDivides(Ones(16), MessageBits(data), GeneratorTail());
  }

  /** Different messages whose bits differ only within sixteen consecutive ones never share a checksum. */
  lemma {:induction false} BurstDetected(c: bv16, a: seq<bv8>, b: seq<bv8>, i: nat, j: nat)
    requires BurstBetween(a, b, i, j) && j - i <= 16 && a != b
    ensures Crc.Crc16From(c, a) != Crc.Crc16From(c, b)
  {
    hide Crc.Crc16From, FeedAll, MessageBits, GeneratorTail, Bits;
    CrcFeeds(c, a);
    CrcFeeds(c, b);
    BurstShows(Register(c), a, b, i, j, GeneratorTail());
  }
}
