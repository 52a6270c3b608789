/**
 * The header checksum of the Goster-WY frame: the bitwise CRC-16, the algebra that its error
 * detection rests on, and the loop that computes it.
 *
 * The register operations carry names (Xor, Widen) so that proofs by induction can treat them
 * as symbols; only the lemmas of the first section look inside the bit-vectors.
 */
module Crc {
  function Xor(a: bv16, b: bv16): bv16 { a ^ b }

  function Widen(b: bv8): bv16 { b as bv16 }

  /** One shift of the register (reflected generator 0xA001). */
  function BitStep(c: bv16): bv16 {
    if c & 1 != 0 then (c >> 1) ^ 0xA001 else c >> 1
  }

  function Steps(c: bv16, n: nat): bv16
    decreases n
  {
    if n == 0 then c else Steps(BitStep(c), n - 1)
  }

  function ByteStep(c: bv16, b: bv8): bv16 {
    Steps(Xor(c, Widen(b)), 8)
  }

  function Crc16From(c: bv16, data: seq<bv8>): bv16
    decreases data
  {
    if data == [] then c else Crc16From(ByteStep(c, data[0]), data[1..])
  }

  function Crc16(data: seq<bv8>): bv16 {
    Crc16From(0xFFFF, data)
  }

  method Crc16Modbus(data: seq<bv8>) returns (crc: bv16)
    ensures crc == Crc16(data)
  {
    hide BitStep;
    crc := 0xFFFF;
    for k := 0 to |data|
      invariant Crc16(data) == Crc16From(crc, data[k..])
    {
      ghost var next := ByteStep(crc, data[k]);
      assert data[k..][1..] == data[k + 1..];
      crc := crc ^ (data[k] as bv16);
      for i := 0 to 8
        invariant next == Steps(crc, 8 - i)
      {
        ghost var shifted := BitStep(crc);
        UnfoldBitStep(crc);
        if crc & 1 != 0 {
          crc := (crc >> 1) ^ 0xA001;
        } else {
          crc := crc >> 1;
        }
        assert crc == shifted;
      }
    }
  }

  // ---------------------------------------------------------------- facts about single registers

  lemma UnfoldBitStep(c: bv16)
    ensures BitStep(c) == if c & 1 != 0 then (c >> 1) ^ 0xA001 else c >> 1
  {
  }

  lemma XorLaws(x: bv16, y: bv16, g: bv16)
    ensures (x ^ g) ^ y == (x ^ y) ^ g
    ensures x ^ (y ^ g) == (x ^ y) ^ g
    ensures (x ^ g) ^ (y ^ g) == x ^ y
  {
  }

  lemma ShiftLinear(a: bv16, b: bv16)
    ensures (a ^ b) >> 1 == (a >> 1) ^ (b >> 1)
    ensures (a ^ b) & 1 == (a & 1) ^ (b & 1)
    ensures (a & 1 == 0 || a & 1 == 1) && (b & 1 == 0 || b & 1 == 1)
  {
  }

  lemma BitStepLinear(a: bv16, b: bv16)
    ensures BitStep(Xor(a, b)) == Xor(BitStep(a), BitStep(b))
  {
    ShiftLinear(a, b);
    XorLaws(a >> 1, b >> 1, 0xA001);
  }

  lemma BitStepInjective(a: bv16, b: bv16)
    requires BitStep(a) == BitStep(b)
    ensures a == b
  {
  }

  lemma XorCancels(a: bv16, b: bv16)
    ensures Xor(Xor(a, b), b) == a && Xor(a, a) == 0 && Xor(0, a) == a
  {
  }

  lemma XorZero(a: bv16, b: bv16)
    ensures Xor(a, b) == 0 <==> a == b
    ensures Xor(0, a) == a
  {
    hide Xor;
    XorCancels(a, b);
    XorCancels(b, b);
  }

  lemma XorMiddle(c: bv16, d: bv16, x: bv8, y: bv8)
    ensures Xor(Xor(c, d), Widen(x ^ y)) == Xor(Xor(c, Widen(x)), Xor(d, Widen(y)))
  {
  }

  lemma ZeroFacts()
    ensures BitStep(0) == 0 && Widen(0) == 0
    ensures forall c: bv16 :: Xor(c, 0) == c
  {
  }

  /** The 16-bit word whose little-endian bytes are lo, hi. */
  function Word(lo: bv8, hi: bv8): bv16 {
    (lo as bv16) | ((hi as bv16) << 8)
  }

  lemma WordInjective(lo: bv8, hi: bv8, lo': bv8, hi': bv8)
    requires Word(lo, hi) == Word(lo', hi')
    ensures lo == lo' && hi == hi'
  {
  }

  lemma XorWord(c: bv16, lo: bv8, hi: bv8)
    ensures Xor(c, Word(lo, hi)) == Xor(Xor(c, Widen(lo)), Word(0, hi))
  {
  }

  /** A byte in the high half of the register reaches the low half unchanged after eight shifts. */
  lemma HighByteSlides(hi: bv8)
    ensures Steps(Word(0, hi), 8) == Widen(hi)
  {
  }

  // ---------------------------------------------------------------- linearity and injectivity

  lemma {:induction false} StepsLinear(a: bv16, b: bv16, n: nat)
    ensures Steps(Xor(a, b), n) == Xor(Steps(a, n), Steps(b, n))
    decreases n
  {
    hide BitStep, Xor;
    if n > 0 {
      BitStepLinear(a, b);
      StepsLinear(BitStep(a), BitStep(b), n - 1);
    }
  }

  /** Every shift is undone by at most one register: the CRC never merges two states. */
  lemma {:induction false} StepsInjective(a: bv16, b: bv16, n: nat)
    requires Steps(a, n) == Steps(b, n)
    ensures a == b
    decreases n
  {
    hide BitStep;
    if n > 0 {
      StepsInjective(BitStep(a), BitStep(b), n - 1);
      BitStepInjective(a, b);
    }
  }

  lemma {:induction false} StepsZero(n: nat)
    ensures Steps(0, n) == 0
  {
    hide BitStep;
    ZeroFacts();
    if n > 0 {
      StepsZero(n - 1);
    }
  }

  lemma {:induction false} StepsAdd(c: bv16, m: nat, n: nat)
    ensures Steps(c, m + n) == Steps(Steps(c, m), n)
    decreases m
  {
    hide BitStep;
    if m > 0 {
      StepsAdd(BitStep(c), m - 1, n);
    }
  }

  /** Two byte steps are sixteen shifts of the register with both bytes injected at once. */
  lemma TwoByteSteps(c: bv16, lo: bv8, hi: bv8)
    ensures ByteStep(ByteStep(c, lo), hi) == Steps(Xor(c, Word(lo, hi)), 16)
  {
    hide Steps, BitStep, Xor, Widen, Word;
    var mid := Xor(c, Widen(lo));
    XorWord(c, lo, hi);
    StepsLinear(mid, Word(0, hi), 8);
    HighByteSlides(hi);
    StepsAdd(Xor(mid, Word(0, hi)), 8, 8);
  }

  lemma ByteStepLinear(c: bv16, d: bv16, x: bv8, y: bv8)
    ensures ByteStep(Xor(c, d), x ^ y) == Xor(ByteStep(c, x), ByteStep(d, y))
  {
    hide Steps, BitStep, Xor, Widen;
    XorMiddle(c, d, x, y);
    StepsLinear(Xor(c, Widen(x)), Xor(d, Widen(y)), 8);
  }

  // ---------------------------------------------------------------- error detection

  function XorBytes(a: seq<bv8>, b: seq<bv8>): (x: seq<bv8>)
    requires |a| == |b|
    ensures |x| == |a|
  {
    seq(|a|, i requires 0 <= i < |a| => a[i] ^ b[i])
  }

  /** The checksum of a difference is the difference of the checksums. */
  lemma {:induction false} CrcLinear(c: bv16, d: bv16, a: seq<bv8>, b: seq<bv8>)
    requires |a| == |b|
    ensures Crc16From(Xor(c, d), XorBytes(a, b)) == Xor(Crc16From(c, a), Crc16From(d, b))
    decreases a
  {
    hide Xor, ByteStep;
    if a != [] {
      var x := XorBytes(a, b);
      assert x[1..] == XorBytes(a[1..], b[1..]);
      ByteStepLinear(c, d, a[0], b[0]);
      CrcLinear(ByteStep(c, a[0]), ByteStep(d, b[0]), a[1..], b[1..]);
    }
  }

  lemma {:induction false} CrcAppend(c: bv16, a: seq<bv8>, b: seq<bv8>)
    ensures Crc16From(c, a + b) == Crc16From(Crc16From(c, a), b)
    decreases a
  {
    hide ByteStep;
    if a == [] {
      assert a + b == b;
    } else {
      assert (a + b)[1..] == a[1..] + b;
      CrcAppend(ByteStep(c, a[0]), a[1..], b);
    }
  }

  lemma CrcOfTwo(c: bv16, lo: bv8, hi: bv8)
    ensures Crc16From(c, [lo, hi]) == Steps(Xor(c, Word(lo, hi)), 16)
  {
    hide Steps, Word, Xor, ByteStep;
    assert [lo, hi][1..] == [hi] && [hi][1..] == [];
    assert Crc16From(c, [lo, hi]) == Crc16From(ByteStep(c, lo), [hi]);
    assert Crc16From(ByteStep(c, lo), [hi]) == Crc16From(ByteStep(ByteStep(c, lo), hi), []);
    TwoByteSteps(c, lo, hi);
  }

  /** Appending a checksum and running on yields zero exactly when it is the right checksum. */
  lemma ResidueIsZero(data: seq<bv8>, lo: bv8, hi: bv8)
    ensures Crc16(data + [lo, hi]) == 0 <==> Crc16(data) == Word(lo, hi)
  {
    hide Steps, Word, Xor, Crc16From;
    var c, w := Crc16(data), Word(lo, hi);
    CrcAppend(0xFFFF, data, [lo, hi]);
    CrcOfTwo(c, lo, hi);
    StepsZero(16);
    if Steps(Xor(c, w), 16) == 0 {
      StepsInjective(Xor(c, w), 0, 16);
    }
    XorZero(c, w);
  }
}
