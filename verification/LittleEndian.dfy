/** Fixed-width little-endian unsigned integers, as written by Go's encoding/binary. */
module LittleEndian {
  function Pow256(width: nat): (p: nat)
    ensures p >= 1
  {
    if width == 0 then 1 else 256 * Pow256(width - 1)
  }

  /** The low half-byte of a byte, and back. */
  function NibbleValue(b: bv8): (k: nat)
    ensures k < 16
  {
    if b & 15 == 0 then 0 else if b & 15 == 1 then 1 else if b & 15 == 2 then 2 else if b & 15 == 3 then 3
    else if b & 15 == 4 then 4 else if b & 15 == 5 then 5 else if b & 15 == 6 then 6 else if b & 15 == 7 then 7
    else if b & 15 == 8 then 8 else if b & 15 == 9 then 9 else if b & 15 == 10 then 10 else if b & 15 == 11 then 11
    else if b & 15 == 12 then 12 else if b & 15 == 13 then 13 else if b & 15 == 14 then 14 else 15
  }

  function Nibble(k: nat): bv8
    requires k < 16
  {
    if k == 0 then 0 else if k == 1 then 1 else if k == 2 then 2 else if k == 3 then 3
    else if k == 4 then 4 else if k == 5 then 5 else if k == 6 then 6 else if k == 7 then 7
    else if k == 8 then 8 else if k == 9 then 9 else if k == 10 then 10 else if k == 11 then 11
    else if k == 12 then 12 else if k == 13 then 13 else if k == 14 then 14 else 15
  }

  function ByteValue(b: bv8): (k: nat)
    ensures k < 256
  {
    16 * NibbleValue(b >> 4) + NibbleValue(b)
  }

  function ByteOf(k: nat): bv8
    requires k < 256
  {
    (Nibble(k / 16) << 4) | Nibble(k % 16)
  }

  lemma NibbleRoundTrip(k: nat)
    requires k < 16
    ensures NibbleValue(Nibble(k)) == k && Nibble(k) & 15 == Nibble(k)
  {
  }

  lemma NibbleOfByte(b: bv8)
    ensures Nibble(NibbleValue(b)) == b & 15
  {
  }

  lemma JoinNibbles(h: bv8, l: bv8, b: bv8)
    requires h & 15 == h && l & 15 == l
    ensures ((h << 4) | l) >> 4 == h && ((h << 4) | l) & 15 == l
    ensures (((b >> 4) & 15) << 4) | (b & 15) == b
  {
  }

  lemma NibbleOfMasked(b: bv8)
    ensures NibbleValue(b & 15) == NibbleValue(b)
  {
  }

  lemma ByteRoundTrip(k: nat, b: bv8)
    requires k < 256
    ensures ByteValue(ByteOf(k)) == k
    ensures ByteOf(ByteValue(b)) == b
  {
    hide Nibble, NibbleValue;
    NibbleRoundTrip(k / 16);
    NibbleRoundTrip(k % 16);
    NibbleOfByte(b >> 4);
    NibbleOfByte(b);
    var h, l := Nibble(k / 16), Nibble(k % 16);
    JoinNibbles(h, l, b);
    NibbleOfMasked((h << 4) | l);
    var v := ByteValue(b);
    assert v / 16 == NibbleValue(b >> 4) && v % 16 == NibbleValue(b);
  }

  /** The low `width` bytes of n, least significant first. */
  function Put(n: nat, width: nat): (s: seq<bv8>)
    ensures |s| == width
  {
    if width == 0 then [] else [ByteOf(n % 256)] + Put(n / 256, width - 1)
  }

  function Get(s: seq<bv8>): (n: nat)
    ensures n < Pow256(|s|)
  {
    if s == [] then 0 else ByteValue(s[0]) + 256 * Get(s[1..])
  }

  /** A field reads back as the value written, whenever that value fits its width. */
  lemma {:induction false} GetPut(n: nat, width: nat)
    requires n < Pow256(width)
    ensures Get(Put(n, width)) == n
  {
    hide ByteOf, ByteValue;
    if width > 0 {
      GetPut(n / 256, width - 1);
      ByteRoundTrip(n % 256, 0);
      assert Put(n, width)[1..] == Put(n / 256, width - 1);
    }
  }

  /** Every byte string is the encoding of the value it reads as. */
  lemma {:induction false} PutGet(s: seq<bv8>)
    ensures Put(Get(s), |s|) == s
  {
    hide ByteOf, ByteValue;
    if s != [] {
      PutGet(s[1..]);
      var n := Get(s);
      assert n / 256 == Get(s[1..]) && n % 256 == ByteValue(s[0]);
      ByteRoundTrip(0, s[0]);
      assert s == [s[0]] + s[1..];
    }
  }

  lemma PowValues()
    ensures Pow256(2) == 0x1_0000
    ensures Pow256(4) == 0x1_0000_0000
    ensures Pow256(8) == 0x1_0000_0000_0000_0000
  {
    assert Pow256(4) == 0x1_0000_0000;
    assert Pow256(8) == 256 * 256 * 256 * 256 * Pow256(4);
  }

  /** Two values that share an encoding are equal: the encoding loses nothing. */
  lemma {:induction false} PutInjective(m: nat, n: nat, width: nat)
    requires m < Pow256(width) && n < Pow256(width)
    requires Put(m, width) == Put(n, width)
    ensures m == n
  {
    GetPut(m, width);
    GetPut(n, width);
  }
}
