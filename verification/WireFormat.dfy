/** The Goster-WY frame byte by byte: what stands at which offset, in plain arithmetic on the bytes. */
module WireFormat {
  import opened Wrappers
  import opened LittleEndian
  import opened GosterWy
  import opened Codec
  import opened CodecTheorems
  import Crc
  import Crc32

  /** The number that bytes stand for, the least significant first. */
  function Value(s: seq<bv8>): nat {
    if s == [] then 0 else (s[0] as int) + 256 * Value(s[1..])
  }

  // ---------------------------------------------------------------- bytes as numbers

  lemma NibbleIs(b: bv8)
    ensures NibbleValue(b) == (b & 15) as int
  {
  }

  lemma HalvesAdd(b: bv8)
    ensures 16 * ((b >> 4) as int) + ((b & 15) as int) == b as int
    ensures (b >> 4) & 15 == b >> 4
  {
  }

  lemma ByteIs(b: bv8)
    ensures ByteValue(b) == b as int
  {
    NibbleIs(b);
    NibbleIs(b >> 4);
    HalvesAdd(b);
    hide NibbleValue;
  }

  lemma {:induction false} GetIsValue(s: seq<bv8>)
    ensures Get(s) == Value(s)
    decreases s
  {
    hide ByteValue;
    if s != [] {
      ByteIs(s[0]);
      GetIsValue(s[1..]);
    }
  }

  lemma {:induction false} PutHasValue(n: nat, width: nat)
    requires n < Pow256(width)
    ensures |Put(n, width)| == width && Value(Put(n, width)) == n
  {
    hide Put, Get, Value;
    GetPut(n, width);
    GetIsValue(Put(n, width));
  }

  // ---------------------------------------------------------------- the header

  /** The word that two bytes stand for, the less significant first. */
  function HalfAt(s: seq<bv8>, i: nat): bv16
    requires i + 2 <= |s|
  {
    (s[i] as bv16) + 0x100 * (s[i + 1] as bv16)
  }

  /**
   * Bytes 0 to 31: "WY", version 1, the flags, two reserved bytes, command, key, payload length, the
   * twelve nonce bytes that end in the sequence number, the CRC-16 of all these, two reserved bytes.
   */
  ghost predicate IsHeader(h: seq<bv8>, f: Frame) {
    && |h| == 32
    && h[0] == 0x59 && h[1] == 0x57 && h[2] == 0x01
    && h[3] == (if f.isAck then 0x01 else 0x00) + (if f.key.Some? && f.keyId != 0 then 0x02 else 0x00)
    && h[4] == 0 && h[5] == 0
    && Value(h[6..8]) == f.cmd && Value(h[8..12]) == f.keyId && Value(h[12..16]) == |f.payload|
    && h[16] == NonceDirection(f.cmd, f.isAck) && h[17] == 0 && h[18] == 0 && h[19] == 0
    && Value(h[20..28]) == f.sequence
    && HalfAt(h, 28) == Crc.Crc16(h[..28])
    && h[30] == 0 && h[31] == 0
  }

  lemma MagicBytes()
    ensures Put(MAGIC_NUMBER, 2) == [0x59, 0x57] && Put(0, 2) == [0, 0]
  {
    MagicDigits();
    hide ByteOf;
    assert Put(0x57, 1) == [ByteOf(0x57)] && Put(0, 1) == [ByteOf(0)];
  }

  lemma MagicDigits()
    ensures ByteOf(0x59) == 0x59 && ByteOf(0x57) == 0x57 && ByteOf(0) == 0
  {
  }

  lemma FlagSum(isAck: bool, isEncrypted: bool)
    ensures Flags(isAck, isEncrypted) == (if isAck then 0x01 else 0x00) + (if isEncrypted then 0x02 else 0x00)
  {
  }

  lemma CrcSum(c: bv16)
    ensures HalfAt(CrcBytes(c), 0) == c
  {
  }

  lemma HalfMoves(s: seq<bv8>, i: nat, s': seq<bv8>, i': nat)
    requires i + 2 <= |s| && i' + 2 <= |s'| && s[i] == s'[i'] && s[i + 1] == s'[i' + 1]
    ensures HalfAt(s, i) == HalfAt(s', i')
  {
  }

  lemma FirstFields(m: seq<bv8>, v: bv8, flags: bv8, r: seq<bv8>, c: seq<bv8>)
    requires |m| == 2 && |r| == 2 && |c| == 2
    ensures var h := m + [v, flags] + r + c;
            && |h| == 8 && h[0] == m[0] && h[1] == m[1] && h[2] == v && h[3] == flags
            && h[4] == r[0] && h[5] == r[1] && h[6..8] == c
  {
  }

  lemma LastFields(k: seq<bv8>, l: seq<bv8>, direction: bv8, q: seq<bv8>)
    requires |k| == 4 && |l| == 4 && |q| == 8
    ensures var h := k + l + ([direction, 0, 0, 0] + q);
            && |h| == 20 && h[..4] == k && h[4..8] == l && h[8] == direction
            && h[9] == 0 && h[10] == 0 && h[11] == 0 && h[12..] == q
  {
  }

  /** The fields before the check sum: the first eight bytes, and the other twenty. */
  lemma FieldsSplit(flags: bv8, cmd: CmdId, keyId: U32, length: U32, direction: bv8, sequence: U64)
    ensures Fields(flags, cmd, keyId, length, direction, sequence)
         == (Put(MAGIC_NUMBER, 2) + [PROTOCOL_VERSION, flags] + Put(0, 2) + Put(cmd, 2))
            + (Put(keyId, 4) + Put(length, 4) + ([direction, 0, 0, 0] + Put(sequence, 8)))
  {
    hide Put;
  }

  lemma HeaderOnWire(f: Frame)
    requires |f.payload| <= MAX_PAYLOAD_SIZE
    ensures IsHeader(HeaderOf(f), f)
  {
    var flags, direction := Flags(f.isAck, Encrypts(f.keyId, f.key)), NonceDirection(f.cmd, f.isAck);
    var fields := Fields(flags, f.cmd, f.keyId, |f.payload|, direction, f.sequence);
    FlagSum(f.isAck, Encrypts(f.keyId, f.key));
    FieldsSplit(flags, f.cmd, f.keyId, |f.payload|, direction, f.sequence);
    hide Fields, Put, Value, Flags, NonceDirection, Crc.Crc16, Sealed, CrcBytes, HalfAt;
    MagicBytes();
    PowValues();
    PutHasValue(f.cmd, 2);
    PutHasValue(f.keyId, 4);
    PutHasValue(|f.payload|, 4);
    PutHasValue(f.sequence, 8);
    CrcSum(Crc.Crc16(fields));
    var first := Put(MAGIC_NUMBER, 2) + [PROTOCOL_VERSION, flags] + Put(0, 2) + Put(f.cmd, 2);
    var last := Put(f.keyId, 4) + Put(|f.payload|, 4) + ([direction, 0, 0, 0] + Put(f.sequence, 8));
    FirstFields(Put(MAGIC_NUMBER, 2), PROTOCOL_VERSION, flags, Put(0, 2), Put(f.cmd, 2));
    LastFields(Put(f.keyId, 4), Put(|f.payload|, 4), direction, Put(f.sequence, 8));
    SealedBytes(fields);
    HalfMoves(HeaderOf(f), 28, CrcBytes(Crc.Crc16(fields)), 0);
    SealedSplit(HeaderOf(f), first, last);
  }

  lemma SealedSplit(h: seq<bv8>, first: seq<bv8>, last: seq<bv8>)
    requires |h| == 32 && |first| == 8 && |last| == 20 && h[..28] == first + last
    ensures forall i :: 0 <= i < 8 ==> h[i] == first[i]
    ensures h[6..8] == first[6..8] && h[8..12] == last[..4] && h[12..16] == last[4..8] && h[20..28] == last[12..]
    ensures h[16] == last[8] && h[17] == last[9] && h[18] == last[10] && h[19] == last[11]
  {
    var s := first + last;
    assert forall i :: 0 <= i < 28 ==> h[i] == h[..28][i] == s[i];
  }

  lemma SealedBytes(fields: seq<bv8>)
    requires |fields| == 28
    ensures var h := Sealed(fields);
            && h[..28] == fields && h[28] == CrcBytes(Crc.Crc16(fields))[0] && h[29] == CrcBytes(Crc.Crc16(fields))[1]
            && h[30] == 0 && h[31] == 0
  {
  }

  // ---------------------------------------------------------------- the frame

  /** The word that four bytes stand for, the least significant first. */
  function WordAt(s: seq<bv8>, i: nat): bv32
    requires i + 4 <= |s|
  {
    (s[i] as bv32) + 0x100 * (s[i + 1] as bv32) + 0x1_0000 * (s[i + 2] as bv32) + 0x100_0000 * (s[i + 3] as bv32)
  }

  lemma SumBytes(c: bv32)
    ensures WordAt(Crc32Bytes(c), 0) == c
  {
  }

  lemma WordMoves(s: seq<bv8>, i: nat, s': seq<bv8>, i': nat)
    requires i + 4 <= |s| && i' + 4 <= |s'| && s[i..i + 4] == s'[i'..i' + 4]
    ensures WordAt(s, i) == WordAt(s', i')
  {
    var t := s[i..i + 4];
    assert forall k :: 0 <= k < 4 ==> t[k] == s[i + k] && t[k] == s'[i' + k];
  }

  /**
   * A frame is its header and then, under a key, what AES-GCM makes of the payload with the nonce and the
   * first 28 bytes as additional data; without one the payload, the CRC-32 of all before it, the least
   * significant byte first, and twelve zero bytes.
   */
  lemma FrameOnWire(g: Gcm, f: Frame)
    requires Lawful(g) && PackFrame(g, f).Ok?
    ensures var s, n := PackFrame(g, f).value, |f.payload|;
            && |s| == 48 + n && IsHeader(s[..32], f)
            && if f.key.Some? && f.keyId != 0 then
                 s[32..] == g.seal(f.key.value, s[16..28], f.payload, s[..28])
               else
                 && s[32..32 + n] == f.payload
                 && WordAt(s, 32 + n) == Crc32.Checksum(s[..32 + n])
                 && forall i :: 36 + n <= i < 48 + n ==> s[i] == 0
  {
    hide Lawful, HeaderOf, IsHeader, PackFrame, Crc32.Checksum, Crc32Bytes, WordAt;
    PackSucceeds(g, f);
    PackedStarts(g, f);
    HeaderOnWire(f);
    var s, n, h := PackFrame(g, f).value, |f.payload|, HeaderOf(f);
    var body := s[32..];
    assert s == h + body;
    PackedForm(g, f, body);
    assert s[16..28] == h[16..28] && s[..28] == h[..28];
    if !Encrypts(f.keyId, f.key) {
      var sum := Crc32.Checksum(h + f.payload);
      SumBytes(sum);
      assert s[..32 + n] == h + f.payload;
      assert s[32 + n..36 + n] == body[n..n + 4] == Crc32Bytes(sum)[0..4];
      WordMoves(s, 32 + n, Crc32Bytes(sum), 0);
      assert forall i :: 36 + n <= i < 48 + n ==> s[i] == body[i - 32] == Blank(12)[i - 36 - n];
    }
  }

  // ---------------------------------------------------------------- reading

  /** The header is one of ours: magic, check sum and length. */
  ghost predicate HeaderFine(s: seq<bv8>)
    requires |s| >= 32
  {
    && Value(s[..2]) == 0x5759
    && HalfAt(s, 28) == Crc.Crc16(s[..28])
    && Value(s[12..16]) <= 65536
  }

  /** The body of n bytes and its footer are sealed under the key, or have the CRC-32. */
  ghost predicate BodyFine(g: Gcm, s: seq<bv8>, n: nat, key: Key)
    requires |s| >= 48 + n
  {
    if s[3] & 0x02 != 0 then
      key.Some? && ValidAesKey(key.value) && g.open(key.value, s[16..28], s[32..48 + n], s[..28]).Some?
    else
      WordAt(s, 32 + n) == Crc32.Checksum(s[..32 + n])
  }

  /** A frame stands at the front of the stream. */
  ghost predicate Acceptable(g: Gcm, s: seq<bv8>, key: Key) {
    |s| >= 32 && HeaderFine(s) && |s| >= 48 + Value(s[12..16]) && BodyFine(g, s, Value(s[12..16]), key)
  }

  /** The packet's numbers and flags are those at their offsets in s. */
  ghost predicate FieldsRead(s: seq<bv8>, p: Packet)
    requires |s| >= 32
  {
    && p.cmdId == Value(s[6..8]) && p.keyId == Value(s[8..12]) && p.sequence == Value(s[20..28])
    && p.isAck == (s[3] & 0x01 != 0) && p.isEncrypted == (s[3] & 0x02 != 0) && p.isCompressed == (s[3] & 0x04 != 0)
  }

  /** The payload is what was sealed, or the body as it stands. */
  ghost predicate PayloadRead(g: Gcm, s: seq<bv8>, n: nat, key: Key, payload: seq<bv8>)
    requires |s| >= 48 + n && BodyFine(g, s, n, key)
  {
    if s[3] & 0x02 != 0 then Some(payload) == g.open(key.value, s[16..28], s[32..48 + n], s[..28])
    else payload == s[32..32 + n]
  }

  lemma WordSum(s: seq<bv8>, i: nat)
    requires i + 2 <= |s|
    ensures Crc.Word(s[i], s[i + 1]) == HalfAt(s, i)
  {
  }

  lemma Word32Sum(s: seq<bv8>)
    requires |s| == 4
    ensures Word32(s) == WordAt(s, 0)
  {
    BytesJoin(s[0], s[1], s[2], s[3]);
  }

  lemma BytesJoin(a: bv8, b: bv8, c: bv8, d: bv8)
    ensures (a as bv32) | ((b as bv32) << 8) | ((c as bv32) << 16) | ((d as bv32) << 24)
         == (a as bv32) + 0x100 * (b as bv32) + 0x1_0000 * (c as bv32) + 0x100_0000 * (d as bv32)
  {
  }

  /**
   * Unpack accepts exactly the streams with such a frame at the front, takes exactly its bytes, and reads
   * each field from where Pack writes it.
   */
  lemma UnpackReads(g: Gcm, s: seq<bv8>, key: Key)
    ensures Unpacked(g, s, key).0.Ok? <==> Acceptable(g, s, key)
    ensures Acceptable(g, s, key) ==>
              var (packet, rest) := Unpacked(g, s, key);
              var n := Value(s[12..16]);
              && packet.Ok? && rest == s[48 + n..] && FieldsRead(s, packet.value)
              && PayloadRead(g, s, n, key, packet.value.payload)
  {
    hide HeaderError, PayloadLength, OpenBody, ParsePacket, Value, HeaderFine, BodyFine, FieldsRead, PayloadRead;
    if |s| >= 32 {
      HeaderReads(s);
      var n := Value(s[12..16]);
      if |s| >= 48 + n {
        BodySlices(s, n);
        BodyReads(g, s, n, key);
        if OpenBody(g, s[..32], s[32..48 + n], key).Ok? {
          FieldsFollow(s, OpenBody(g, s[..32], s[32..48 + n], key).value);
        }
      }
    }
  }

  lemma HeaderReads(s: seq<bv8>)
    requires |s| >= 32
    ensures PayloadLength(s[..32]) == Value(s[12..16]) && (HeaderError(s[..32]) == None <==> HeaderFine(s))
  {
    hide Get, Value, Crc.Crc16, Crc.Word, HalfAt;
    HeaderSlices(s);
    GetIsValue(s[..2]);
    GetIsValue(s[12..16]);
    WordSum(s, 28);
  }

  lemma FieldsFollow(s: seq<bv8>, payload: seq<bv8>)
    requires |s| >= 32
    ensures FieldsRead(s, ParsePacket(s[..32], payload)) && ParsePacket(s[..32], payload).payload == payload
  {
    hide Get, Value;
    HeaderSlices(s);
    GetIsValue(s[6..8]);
    GetIsValue(s[8..12]);
    GetIsValue(s[20..28]);
  }

  lemma BodyReads(g: Gcm, s: seq<bv8>, n: nat, key: Key)
    requires |s| >= 48 + n && PayloadLength(s[..32]) == n
    ensures var r := OpenBody(g, s[..32], s[32..48 + n], key);
            (r.Ok? <==> BodyFine(g, s, n, key)) && (r.Ok? ==> PayloadRead(g, s, n, key, r.value))
  {
    hide PayloadLength, Crc32.Checksum, Word32, WordAt, ValidAesKey;
    HeaderSlices(s);
    BodySlices(s, n);
    var footer := s[32..48 + n][n..n + 4];
    Word32Sum(footer);
    WordMoves(s, 32 + n, footer, 0);
  }

  lemma HeaderSlices(s: seq<bv8>)
    requires |s| >= 32
    ensures var h := s[..32];
            && h[0..2] == s[..2] && h[6..8] == s[6..8] && h[8..12] == s[8..12] && h[12..16] == s[12..16]
            && h[20..28] == s[20..28] && h[16..28] == s[16..28] && h[..28] == s[..28]
            && h[3] == s[3] && h[28] == s[28] && h[29] == s[29]
  {
  }

  lemma BodySlices(s: seq<bv8>, n: nat)
    requires |s| >= 48 + n
    ensures var body := s[32..][..n + 16];
            && body == s[32..48 + n] && s[..32] + body[..n] == s[..32 + n] && body[..n] == s[32..32 + n]
            && s[32..][n + 16..] == s[48 + n..]
            && body[n..n + 4] == s[32 + n..36 + n]
  {
  }
}
