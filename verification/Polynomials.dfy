/**
 * Polynomials over GF(2): long division by a generator, the shift register that performs it one bit
 * at a time, and the polynomials that words and messages stand for.
 *
 * A polynomial is the list of its coefficients, highest power first. A message contributes its bits
 * least significant first, and so does a register, whose lowest bit is its highest power. A generator
 * is given by its tail, the coefficients after the leading one.
 */
module Polynomials {
  type Poly = seq<bool>

  function Zeros(n: nat): (p: Poly)
    ensures |p| == n
  {
    seq(n, i => false)
  }

  function Ones(n: nat): (p: Poly)
    ensures |p| == n
  {
    seq(n, i => true)
  }

  /** Adds s to the leading coefficients of p. */
  function AddHigh(p: Poly, s: Poly): (r: Poly)
    requires |s| <= |p|
    ensures |r| == |p|
  {
    seq(|p|, i requires 0 <= i < |p| => if i < |s| then p[i] != s[i] else p[i])
  }

  /** Adds r to the trailing coefficients of p. */
  function AddLow(p: Poly, r: Poly): (q: Poly)
    requires |r| <= |p|
    ensures |q| == |p|
  {
    seq(|p|, i requires 0 <= i < |p| => if i < |p| - |r| then p[i] else p[i] != r[i - (|p| - |r|)])
  }

  // ---------------------------------------------------------------- long division

  /** The product of q and the generator. */
  function TimesGenerator(q: Poly, tail: Poly): (p: Poly)
    ensures |p| == |q| + |tail|
  {
    if q == [] then Zeros(|tail|)
    else
      var rest := [false] + TimesGenerator(q[1..], tail);
      if q[0] then AddHigh(rest, [true] + tail) else rest
  }

  /** Long division: cancel the leading coefficient until no more remain than the tail has. */
  function Remainder(p: Poly, tail: Poly): (r: Poly)
    requires |p| >= |tail|
    ensures |r| == |tail|
    decreases |p|
  {
    if |p| == |tail| then p
    else if p[0] then Remainder(AddHigh(p[1..], tail), tail)
    else Remainder(p[1..], tail)
  }

  function Quotient(p: Poly, tail: Poly): (q: Poly)
    requires |p| >= |tail|
    ensures |q| == |p| - |tail|
    decreases |p|
  {
    if |p| == |tail| then []
    else if p[0] then [true] + Quotient(AddHigh(p[1..], tail), tail)
    else [false] + Quotient(p[1..], tail)
  }

  lemma AddLaws(x: bool, p: Poly, s: Poly, r: Poly)
    requires |s| <= |p| && |r| <= |p|
    ensures AddLow([x] + p, r) == [x] + AddLow(p, r)
    ensures AddLow(AddHigh(p, s), r) == AddHigh(AddLow(p, r), s)
    ensures AddHigh(AddHigh(p, s), s) == p
  {
  }

  lemma AddGenerator(p: Poly, tail: Poly)
    requires |p| >= |tail|
    ensures AddHigh([false] + p, [true] + tail) == [true] + AddHigh(p, tail)
  {
  }

  /** p = q * generator + r, with r shorter than the generator. */
  lemma {:induction false} DivisionExact(p: Poly, tail: Poly)
    requires |p| >= |tail|
    ensures p == AddLow(TimesGenerator(Quotient(p, tail), tail), Remainder(p, tail))
    decreases |p|
  {
    hide AddHigh, AddLow;
    var q, r := Quotient(p, tail), Remainder(p, tail);
    if |p| == |tail| {
      ShortDivision(p);
    } else {
      var next := if p[0] then AddHigh(p[1..], tail) else p[1..];
      var m := TimesGenerator(Quotient(next, tail), tail);
      DivisionExact(next, tail);
      assert q == [p[0]] + Quotient(next, tail) && q[1..] == Quotient(next, tail);
      AddGenerator(m, tail);
      AddLaws(p[0], m, [], r);
      AddLaws(p[0], AddHigh(m, tail), [], r);
      AddLaws(p[0], m, tail, r);
      AddLaws(p[0], p[1..], tail, r);
      assert p == [p[0]] + p[1..];
    }
  }

  lemma ShortDivision(p: Poly)
    ensures p == AddLow(Zeros(|p|), p)
  {
  }

  /** No other short polynomial is a remainder: whatever q is, dividing q * generator + r leaves r. */
  lemma {:induction false} RemainderUnique(q: Poly, r: Poly, tail: Poly)
    requires |r| == |tail|
    ensures Remainder(AddLow(TimesGenerator(q, tail), r), tail) == r
    decreases |q|
  {
    hide AddHigh, AddLow;
    if q == [] {
      ShortDivision(r);
    } else {
      var m := TimesGenerator(q[1..], tail);
      RemainderUnique(q[1..], r, tail);
      AddGenerator(m, tail);
      AddLaws(q[0], m, tail, r);
      AddLaws(q[0], AddHigh(m, tail), [], r);
      AddLaws(q[0], AddLow(m, r), tail, r);
    }
  }

  // ---------------------------------------------------------------- the shift register

  /** Shifts one message bit into the register. */
  function Feed(s: Poly, bit: bool, tail: Poly): (r: Poly)
    requires |s| == |tail| > 0
    ensures |r| == |s|
  {
    var shifted := s[1..] + [false];
    if s[0] != bit then AddHigh(shifted, tail) else shifted
  }

  function FeedAll(s: Poly, m: Poly, tail: Poly): (r: Poly)
    requires |s| == |tail| > 0
    ensures |r| == |s|
    decreases |m|
  {
    if m == [] then s else FeedAll(Feed(s, m[0], tail), m[1..], tail)
  }

  lemma {:induction false} FeedAppend(s: Poly, m: Poly, n: Poly, tail: Poly)
    requires |s| == |tail| > 0
    ensures FeedAll(s, m + n, tail) == FeedAll(FeedAll(s, m, tail), n, tail)
    decreases |m|
  {
    hide Feed;
    if m == [] {
      assert m + n == n;
    } else {
      assert (m + n)[1..] == m[1..] + n;
      FeedAppend(Feed(s, m[0], tail), m[1..], n, tail);
    }
  }

  /** Taking the first column off a message to which the register was added. */
  lemma FirstColumn(bit: bool, m: Poly, s: Poly, tail: Poly)
    requires |s| == |tail| > 0 && |m| >= |s|
    ensures var p := AddHigh([bit] + m, s);
            && p[0] == (bit != s[0])
            && (if p[0] then AddHigh(p[1..], tail) else p[1..]) == AddHigh(m, Feed(s, bit, tail))
  {
    var p, shifted := AddHigh([bit] + m, s), s[1..] + [false];
    assert p[1..] == AddHigh(m, shifted);
    assert AddHigh(AddHigh(m, shifted), tail) == AddHigh(m, AddHigh(shifted, tail));
  }

  /** Feeding a message divides it: the register holds the remainder of message * x^n. */
  lemma {:induction false} FeedDivides(s: Poly, m: Poly, tail: Poly)
    requires |s| == |tail| > 0
    ensures FeedAll(s, m, tail) == Remainder(AddHigh(m + Zeros(|tail|), s), tail)
    decreases |m|
  {
    hide AddHigh, Feed;
    if m == [] {
      NothingFed(s);
    } else {
      var rest := m[1..] + Zeros(|tail|);
      FirstColumn(m[0], rest, s, tail);
      FeedDivides(Feed(s, m[0], tail), m[1..], tail);
      assert m + Zeros(|tail|) == [m[0]] + rest;
    }
  }

  lemma NothingFed(s: Poly)
    ensures AddHigh([] + Zeros(|s|), s) == s
  {
  }

  /** A pending message gives its first bit to the register and keeps the rest pending. */
  lemma PendingStep(s: Poly, m: Poly, tail: Poly)
    requires |s| == |tail| > 0 && 0 < |m| <= |s|
    ensures Feed(AddHigh(s, m), false, tail) == AddHigh(Feed(s, m[0], tail), m[1..])
  {
    var shifted, rest := s[1..] + [false], m[1..];
    assert AddHigh(s, m)[1..] + [false] == AddHigh(shifted, rest);
    assert AddHigh(AddHigh(shifted, rest), tail) == AddHigh(AddHigh(shifted, tail), rest);
  }

  /** Up to a register's length of bits may be added at once and shifted through afterwards. */
  lemma {:induction false} FeedPending(s: Poly, m: Poly, tail: Poly)
    requires |s| == |tail| > 0 && |m| <= |s|
    ensures FeedAll(AddHigh(s, m), Zeros(|m|), tail) == FeedAll(s, m, tail)
    decreases |m|
  {
    hide AddHigh, Feed;
    if m == [] {
      AddNothing(s);
    } else {
      PendingStep(s, m, tail);
      FeedPending(Feed(s, m[0], tail), m[1..], tail);
      assert Zeros(|m|)[1..] == Zeros(|m| - 1);
    }
  }

  lemma AddNothing(s: Poly)
    ensures AddHigh(s, []) == s
  {
  }

  // ---------------------------------------------------------------- no two states are merged

  /** The generator's constant term is not zero. */
  predicate Proper(tail: Poly) {
    tail != [] && tail[|tail| - 1]
  }

  lemma FeedInjective(s: Poly, t: Poly, bit: bool, tail: Poly)
    requires |s| == |t| == |tail| && Proper(tail) && Feed(s, bit, tail) == Feed(t, bit, tail)
    ensures s == t
  {
    var n := |s| - 1;
    var a, b := s[1..] + [false], t[1..] + [false];
    assert Feed(s, bit, tail)[n] == (s[0] != bit) && Feed(t, bit, tail)[n] == (t[0] != bit);
    assert AddHigh(AddHigh(a, tail), tail) == a && AddHigh(AddHigh(b, tail), tail) == b;
    assert a == b;
    assert s[1..] == a[..n] && t[1..] == b[..n];
    assert s == [s[0]] + s[1..] && t == [t[0]] + t[1..];
  }

  lemma {:induction false} FeedAllInjective(s: Poly, t: Poly, m: Poly, tail: Poly)
    requires |s| == |t| == |tail| && Proper(tail) && FeedAll(s, m, tail) == FeedAll(t, m, tail)
    ensures s == t
    decreases |m|
  {
    hide Feed;
    if m != [] {
      FeedAllInjective(Feed(s, m[0], tail), Feed(t, m[0], tail), m[1..], tail);
      FeedInjective(s, t, m[0], tail);
    }
  }

  lemma AddInjective(s: Poly, m: Poly, n: Poly)
    requires |m| == |n| <= |s| && AddHigh(s, m) == AddHigh(s, n)
    ensures m == n
  {
    forall i | 0 <= i < |m| ensures m[i] == n[i] {
      assert AddHigh(s, m)[i] == AddHigh(s, n)[i];
    }
  }

  /** No two different lists of at most a register's length take a register to the same state. */
  lemma {:induction false} BurstsDiffer(s: Poly, m: Poly, n: Poly, tail: Poly)
    requires |s| == |tail| && Proper(tail) && |m| == |n| <= |s|
    requires FeedAll(s, m, tail) == FeedAll(s, n, tail)
    ensures m == n
  {
    hide FeedAll, AddHigh;
    FeedPending(s, m, tail);
    FeedPending(s, n, tail);
    FeedAllInjective(AddHigh(s, m), AddHigh(s, n), Zeros(|m|), tail);
    AddInjective(s, m, n);
  }

  // ---------------------------------------------------------------- words and messages

  function Odd(w: bv32): bool { w & 1 != 0 }

  function Half(w: bv32): bv32 { w >> 1 }

  function Xor(a: bv32, b: bv32): bv32 { a ^ b }

  function Widen(b: bv8): bv32 { b as bv32 }

  /** The n lowest bits of w, least significant first. */
  function Bits(w: bv32, n: nat): (p: Poly)
    ensures |p| == n
  {
    if n == 0 then [] else [Odd(w)] + Bits(Half(w), n - 1)
  }

  /** What the n lowest bits leave. */
  function HalveBy(w: bv32, n: nat): bv32
    decreases n
  {
    if n == 0 then w else HalveBy(Half(w), n - 1)
  }

  function ByteBits(b: bv8): (p: Poly)
    ensures |p| == 8
  {
    Bits(Widen(b), 8)
  }

  function MessageBits(data: seq<bv8>): (p: Poly)
    ensures |p| == 8 * |data|
  {
    if data == [] then [] else ByteBits(data[0]) + MessageBits(data[1..])
  }

  lemma {:induction false} BitsAppend(w: bv32, m: nat, n: nat)
    ensures Bits(w, m + n) == Bits(w, m) + Bits(HalveBy(w, m), n)
    ensures HalveBy(w, m + n) == HalveBy(HalveBy(w, m), n)
    decreases m
  {
    hide Odd, Half;
    if m > 0 {
      BitsAppend(Half(w), m - 1, n);
    }
  }

  lemma {:induction false} BitsOfZero(n: nat)
    ensures Bits(0, n) == Zeros(n)
  {
    ZeroHalves();
    hide Odd, Half;
    if n > 0 {
      BitsOfZero(n - 1);
    }
  }

  lemma ZeroHalves()
    ensures Half(0) == 0 && !Odd(0)
  {
  }

  lemma XorParts(a: bv32, b: bv32)
    ensures Odd(Xor(a, b)) == (Odd(a) != Odd(b))
    ensures Half(Xor(a, b)) == Xor(Half(a), Half(b))
  {
  }

  lemma AddHead(x: bool, p: Poly, y: bool, q: Poly)
    requires |p| == |q|
    ensures AddHigh([x] + p, [y] + q) == [x != y] + AddHigh(p, q)
  {
  }

  lemma {:induction false} BitsLinear(a: bv32, b: bv32, n: nat)
    ensures Bits(Xor(a, b), n) == AddHigh(Bits(a, n), Bits(b, n))
    decreases n
  {
    hide AddHigh, Odd, Half, Xor;
    if n == 0 {
      AddNothing([]);
    } else {
      XorParts(a, b);
      BitsLinear(Half(a), Half(b), n - 1);
      AddHead(Odd(a), Bits(Half(a), n - 1), Odd(b), Bits(Half(b), n - 1));
    }
  }

  /** Halving a word of n bits shifts its polynomial. */
  lemma {:induction false} BitsHalf(w: bv32, n: nat)
    requires n > 0 && HalveBy(w, n) == 0
    ensures Bits(Half(w), n) == Bits(w, n)[1..] + [false]
    ensures Bits(w, n)[0] == Odd(w)
  {
    hide Odd, Half;
    var last := HalveBy(Half(w), n - 1);
    assert last == 0;
    BitsAppend(Half(w), n - 1, 1);
    BitsOfZero(1);
    OneZero();
    var init := Bits(Half(w), n - 1);
    assert Bits(w, n) == [Odd(w)] + init;
    hide Bits, HalveBy;
    assert Bits(w, n)[1..] == init;
  }

  lemma OneZero()
    ensures Zeros(1) == [false]
  {
  }

  /** One shift of the reflected register, with the generator's tail in `taps`, feeds it a zero. */
  lemma ShiftFeeds(w: bv32, taps: bv32, n: nat)
    requires n > 0 && HalveBy(w, n) == 0
    ensures Bits(if Odd(w) then Xor(Half(w), taps) else Half(w), n) == Feed(Bits(w, n), false, Bits(taps, n))
  {
    hide Bits, HalveBy, AddHigh, Odd, Half, Xor;
    BitsHalf(w, n);
    BitsLinear(Half(w), taps, n);
  }

  /** Adding a byte to the low end of a word adds its bits to the leading coefficients. */
  lemma ByteAdds(w: bv32, b: bv8, n: nat)
    requires n >= 8
    ensures Bits(Xor(w, Widen(b)), n) == AddHigh(Bits(w, n), ByteBits(b))
  {
    hide Bits, HalveBy, AddHigh, Odd, Half, Xor, Widen;
    BitsLinear(w, Widen(b), n);
    ByteFits(b);
    BitsAppend(Widen(b), 8, n - 8);
    BitsOfZero(n - 8);
    AddPadded(Bits(w, n), ByteBits(b), n - 8);
  }

  lemma AddPadded(p: Poly, s: Poly, n: nat)
    requires |s| + n <= |p|
    ensures AddHigh(p, s + Zeros(n)) == AddHigh(p, s)
  {
  }

  lemma ByteFits(b: bv8)
    ensures HalveBy(Widen(b), 8) == 0
  {
    hide HalveBy, DropNibble, Widen;
    FourHalves(Widen(b));
    FourHalves(DropNibble(Widen(b)));
    BitsAppend(Widen(b), 4, 4);
    ByteGone(b);
  }

  /** Four halvings. */
  function DropNibble(w: bv32): bv32 { w >> 4 }

  function Nibble(w: bv32): (p: Poly)
    ensures |p| == 4
  {
    [Odd(w), Odd(w >> 1), Odd(w >> 2), Odd(w >> 3)]
  }

  lemma UnfoldBits(w: bv32, n: nat)
    ensures Bits(w, n + 1) == [Odd(w)] + Bits(Half(w), n)
    ensures HalveBy(w, n + 1) == HalveBy(Half(w), n)
  {
  }

  lemma NibbleBits(w: bv32, n: nat)
    ensures Bits(w, n + 4) == Nibble(w) + Bits(w >> 4, n)
  {
    NibbleHalves(w);
    FourthHalf(w);
    hide Odd, Half, Bits, HalveBy;
    UnfoldBits(w, n + 3);
    UnfoldBits(Half(w), n + 2);
    UnfoldBits(Half(Half(w)), n + 1);
    UnfoldBits(Half(Half(Half(w))), n);
  }

  lemma NibbleHalves(w: bv32)
    ensures Half(w) == w >> 1 && Half(Half(w)) == w >> 2 && Half(Half(Half(w))) == w >> 3
  {
  }

  lemma SixteenHalves(w: bv32)
    ensures HalveBy(w, 16) == DropNibble(DropNibble(DropNibble(DropNibble(w))))
  {
    hide HalveBy, Bits, DropNibble;
    var w1 := DropNibble(w);
    var w2 := DropNibble(w1);
    FourHalves(w);
    FourHalves(w1);
    FourHalves(w2);
    FourHalves(DropNibble(w2));
    BitsAppend(w, 4, 12);
    BitsAppend(w1, 4, 8);
    BitsAppend(w2, 4, 4);
  }

  lemma ByteGone(b: bv8)
    ensures DropNibble(DropNibble(Widen(b))) == 0
  {
  }

  lemma FourHalves(w: bv32)
    ensures HalveBy(w, 4) == DropNibble(w)
  {
    FourthHalf(w);
    hide Half, DropNibble;
    var w1 := Half(w);
    var w2 := Half(w1);
    assert HalveBy(w, 4) == HalveBy(w1, 3) == HalveBy(w2, 2) == HalveBy(Half(w2), 1) == HalveBy(Half(Half(w2)), 0);
  }

  lemma FourthHalf(w: bv32)
    ensures Half(Half(Half(Half(w)))) == DropNibble(w)
  {
  }

  lemma {:induction false} MessageBitsAppend(a: seq<bv8>, b: seq<bv8>)
    ensures MessageBits(a + b) == MessageBits(a) + MessageBits(b)
    decreases a
  {
    hide ByteBits;
    if a == [] {
      assert a + b == b;
    } else {
      assert (a + b)[1..] == a[1..] + b;
      MessageBitsAppend(a[1..], b);
    }
  }

  lemma {:induction false} BitsInjective(v: bv32, w: bv32, n: nat)
    requires Bits(v, n) == Bits(w, n) && HalveBy(v, n) == HalveBy(w, n)
    ensures v == w
    decreases n
  {
    hide Odd, Half;
    if n > 0 {
      assert Bits(v, n)[0] == Bits(w, n)[0];
      assert Bits(v, n)[1..] == Bits(Half(v), n - 1) && Bits(w, n)[1..] == Bits(Half(w), n - 1);
      BitsInjective(Half(v), Half(w), n - 1);
      HalvesDecide(v, w);
    }
  }

  lemma HalvesDecide(v: bv32, w: bv32)
    requires Half(v) == Half(w) && Odd(v) == Odd(w)
    ensures v == w
  {
  }

  lemma ByteBitsInjective(x: bv8, y: bv8)
    requires ByteBits(x) == ByteBits(y)
    ensures x == y
  {
    hide Bits, HalveBy, Widen;
    ByteFits(x);
    ByteFits(y);
    BitsInjective(Widen(x), Widen(y), 8);
    WideningInjective(x, y);
  }

  lemma WideningInjective(x: bv8, y: bv8)
    requires Widen(x) == Widen(y)
    ensures x == y
  {
  }

  lemma {:induction false} MessageBitsInjective(a: seq<bv8>, b: seq<bv8>)
    requires MessageBits(a) == MessageBits(b)
    ensures a == b
    decreases a
  {
    hide ByteBits;
    assert |a| == |b|;
    if a != [] {
      assert ByteBits(a[0]) == MessageBits(a)[..8] && ByteBits(b[0]) == MessageBits(b)[..8];
      assert MessageBits(a[1..]) == MessageBits(a)[8..] && MessageBits(b[1..]) == MessageBits(b)[8..];
      ByteBitsInjective(a[0], b[0]);
      MessageBitsInjective(a[1..], b[1..]);
      assert a == [a[0]] + a[1..] && b == [b[0]] + b[1..];
    }
  }

  /** The two messages have the same bits outside [i, j), in the order of transmission. */
  predicate BurstBetween(a: seq<bv8>, b: seq<bv8>, i: nat, j: nat) {
    && |a| == |b| && i <= j <= 8 * |a|
    && MessageBits(a)[..i] == MessageBits(b)[..i] && MessageBits(a)[j..] == MessageBits(b)[j..]
  }

  lemma {:induction false} FeedThree(x: Poly, y: Poly, z: Poly, s: Poly, tail: Poly)
    requires |s| == |tail| > 0
    ensures FeedAll(s, x + y + z, tail) == FeedAll(FeedAll(FeedAll(s, x, tail), y, tail), z, tail)
  {
    hide FeedAll;
    FeedAppend(s, x + y, z, tail);
    FeedAppend(s, x, y, tail);
  }

  lemma Cut(m: Poly, i: nat, j: nat)
    requires i <= j <= |m|
    ensures m == m[..i] + m[i..j] + m[j..]
  {
  }

  /** A burst no longer than the register never leaves it in the same state. */
  lemma {:induction false} BurstShows(s: Poly, a: seq<bv8>, b: seq<bv8>, i: nat, j: nat, tail: Poly)
    requires |s| == |tail| && Proper(tail) && BurstBetween(a, b, i, j) && j - i <= |s| && a != b
    ensures FeedAll(s, MessageBits(a), tail) != FeedAll(s, MessageBits(b), tail)
  {
    hide MessageBits, FeedAll;
    var m, n := MessageBits(a), MessageBits(b);
    Cut(m, i, j);
    Cut(n, i, j);
    var before, x, y, after := m[..i], m[i..j], n[i..j], m[j..];
    FeedThree(before, x, after, s, tail);
    FeedThree(before, y, after, s, tail);
    var t := FeedAll(s, before, tail);
    if FeedAll(s, m, tail) == FeedAll(s, n, tail) {
      FeedAllInjective(FeedAll(t, x, tail), FeedAll(t, y, tail), after, tail);
      BurstsDiffer(t, x, y, tail);
      MessageBitsInjective(a, b);
    }
  }
}
