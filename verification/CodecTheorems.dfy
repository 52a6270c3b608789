/** What the frame codec guarantees: round trips on whole streams, framing, and error detection. */
module CodecTheorems {
  import opened Wrappers
  import opened LittleEndian
  import opened GosterWy
  import opened Codec
  import Crc
  import Crc32
  import CrcPolynomial
  import Polynomials

  // ---------------------------------------------------------------- reading a header back

  lemma CrcBytesRead(c: bv16)
    ensures Crc.Word(CrcBytes(c)[0], CrcBytes(c)[1]) == c
  {
  }

  lemma Crc32BytesRead(c: bv32)
    ensures Word32(Crc32Bytes(c)) == c
  {
  }

  lemma FlagsRead(isAck: bool, isEncrypted: bool)
    ensures var f := Flags(isAck, isEncrypted);
            (f & 0x01 != 0 <==> isAck) && (f & 0x02 != 0 <==> isEncrypted) && f & 0x04 == 0
  {
  }

  lemma {:induction false} FieldsSlices(flags: bv8, cmd: CmdId, keyId: U32, length: U32, direction: bv8, sequence: U64)
    ensures var h := Fields(flags, cmd, keyId, length, direction, sequence);
            && h[0..2] == Put(MAGIC_NUMBER, 2) && h[3] == flags
            && h[6..8] == Put(cmd, 2) && h[8..12] == Put(keyId, 4) && h[12..16] == Put(length, 4)
            && h[16..28] == Nonce(direction, sequence) && h[20..28] == Put(sequence, 8)
  {
    hide Put;
  }

  /** Every field of a header written by Pack reads back, and the header passes every check. */
  lemma HeaderRead(isAck: bool, isEncrypted: bool, cmd: CmdId, keyId: U32, length: U32, direction: bv8, sequence: U64)
    requires length <= MAX_PAYLOAD_SIZE
    ensures var h := Sealed(Fields(Flags(isAck, isEncrypted), cmd, keyId, length, direction, sequence));
            && HeaderError(h) == None
            && PayloadLength(h) == length
            && (h[3] & 0x02 != 0 <==> isEncrypted)
            && forall payload ::
                 ParsePacket(h, payload) == Packet(cmd, keyId, sequence, isAck, isEncrypted, false, payload)
  {
    var fields := Fields(Flags(isAck, isEncrypted), cmd, keyId, length, direction, sequence);
    var h := Sealed(fields);
    FieldsSlices(Flags(isAck, isEncrypted), cmd, keyId, length, direction, sequence);
    hide Fields, Put, Get;
    FlagsRead(isAck, isEncrypted);
    CrcBytesRead(Crc.Crc16(fields));
    PowValues();
    GetPut(MAGIC_NUMBER, 2);
    GetPut(cmd, 2);
    GetPut(keyId, 4);
    GetPut(length, 4);
    GetPut(sequence, 8);
    assert h[..28] == fields;
    assert h[0..2] == fields[0..2] && h[6..8] == fields[6..8] && h[8..12] == fields[8..12];
    assert h[12..16] == fields[12..16] && h[20..28] == fields[20..28];
    assert h[28] == CrcBytes(Crc.Crc16(fields))[0] && h[29] == CrcBytes(Crc.Crc16(fields))[1];
  }

  // ---------------------------------------------------------------- round trip

  /** The arguments of one Pack call. */
  datatype Frame = Frame(payload: seq<bv8>, cmd: CmdId, keyId: U32, key: Key, sequence: U64, isAck: bool)

  function PackFrame(g: Gcm, f: Frame): Result<seq<bv8>, CodecError> {
    Packed(g, f.payload, f.cmd, f.keyId, f.key, f.sequence, f.isAck)
  }

  /** The packet a receiver should see for it. */
  function PacketOf(f: Frame): Packet {
    Packet(f.cmd, f.keyId, f.sequence, f.isAck, Encrypts(f.keyId, f.key), false, f.payload)
  }

  function HeaderOf(f: Frame): (h: seq<bv8>)
    requires |f.payload| <= MAX_PAYLOAD_SIZE
    ensures |h| == HEADER_SIZE
  {
    Sealed(Fields(Flags(f.isAck, Encrypts(f.keyId, f.key)), f.cmd, f.keyId, |f.payload|,
                  NonceDirection(f.cmd, f.isAck), f.sequence))
  }

  lemma HeaderOfRead(f: Frame)
    requires |f.payload| <= MAX_PAYLOAD_SIZE
    ensures HeaderError(HeaderOf(f)) == None && PayloadLength(HeaderOf(f)) == |f.payload|
    ensures HeaderOf(f)[3] & 0x02 != 0 <==> Encrypts(f.keyId, f.key)
    ensures ParsePacket(HeaderOf(f), f.payload) == PacketOf(f)
  {
    HeaderRead(f.isAck, Encrypts(f.keyId, f.key), f.cmd, f.keyId, |f.payload|, NonceDirection(f.cmd, f.isAck),
               f.sequence);
  }

  /** Pack fails exactly on an oversized payload or an unusable key that it would have to use. */
  lemma PackSucceeds(g: Gcm, f: Frame)
    requires Lawful(g)
    ensures PackFrame(g, f).Ok? <==>
            |f.payload| <= MAX_PAYLOAD_SIZE && (Encrypts(f.keyId, f.key) ==> ValidAesKey(f.key.value))
    ensures PackFrame(g, f).Ok? ==> |PackFrame(g, f).value| == HEADER_SIZE + |f.payload| + FOOTER_SIZE
  {
  }

  lemma ReadPrefix(a: seq<bv8>, rest: seq<bv8>)
    requires |a| > 0
    ensures ReadFull(a + rest, |a|) == (Ok(a), rest)
  {
    assert (a + rest)[..|a|] == a && (a + rest)[|a|..] == rest;
  }

  /** The body of a packed frame opens to its payload. */
  lemma BodyOpens(g: Gcm, f: Frame, body: seq<bv8>, key: Key)
    requires Lawful(g) && PackFrame(g, f).Ok? && PackFrame(g, f).value == HeaderOf(f) + body
    requires Encrypts(f.keyId, f.key) ==> key == f.key
    ensures PayloadLength(HeaderOf(f)) == |f.payload| && |body| == |f.payload| + FOOTER_SIZE
    ensures OpenBody(g, HeaderOf(f), body, key) == Ok(f.payload)
  {
    hide HeaderOf, PayloadLength, PackFrame, Crc32.Checksum, Crc32Bytes, Word32;
    PackSucceeds(g, f);
    HeaderOfRead(f);
    var header := HeaderOf(f);
    PackedForm(g, f, body);
    if !Encrypts(f.keyId, f.key) {
      var sum := Crc32.Checksum(header + f.payload);
      assert body[..|f.payload|] == f.payload;
      assert body[|f.payload|..|f.payload| + 4] == Crc32Bytes(sum);
      Crc32BytesRead(sum);
    }
  }

  lemma PackedForm(g: Gcm, f: Frame, body: seq<bv8>)
    requires PackFrame(g, f).Ok? && PackFrame(g, f).value == HeaderOf(f) + body
    ensures var header := HeaderOf(f);
            body == if Encrypts(f.keyId, f.key) then g.seal(f.key.value, header[16..28], f.payload, header[..28])
                    else f.payload + Crc32Bytes(Crc32.Checksum(header + f.payload)) + Blank(12)
    ensures Encrypts(f.keyId, f.key) ==> ValidAesKey(f.key.value)
  {
    hide Sealed, Fields;
    assert body == PackFrame(g, f).value[HEADER_SIZE..];
  }

  lemma PackedStarts(g: Gcm, f: Frame)
    requires PackFrame(g, f).Ok?
    ensures |PackFrame(g, f).value| >= HEADER_SIZE && PackFrame(g, f).value[..HEADER_SIZE] == HeaderOf(f)
  {
    hide Sealed, Fields;
  }

  lemma UnpackFrame(g: Gcm, header: seq<bv8>, body: seq<bv8>, rest: seq<bv8>, key: Key, payload: seq<bv8>)
    requires |header| == HEADER_SIZE && HeaderError(header) == None
    requires |body| == PayloadLength(header) + FOOTER_SIZE && OpenBody(g, header, body, key) == Ok(payload)
    ensures Unpacked(g, header + body + rest, key) == (Ok(ParsePacket(header, payload)), rest)
  {
    hide ReadFull, HeaderError, PayloadLength, OpenBody, ParsePacket;
    assert header + body + rest == header + (body + rest);
    ReadPrefix(header, body + rest);
    ReadPrefix(body, rest);
  }

  /** A packed frame, whatever follows it, unpacks to its packet and is consumed exactly. */
  lemma RoundTrip(g: Gcm, f: Frame, rest: seq<bv8>, key: Key)
    requires Lawful(g) && PackFrame(g, f).Ok?
    requires Encrypts(f.keyId, f.key) ==> key == f.key
    ensures Unpacked(g, PackFrame(g, f).value + rest, key) == (Ok(PacketOf(f)), rest)
  {
    hide Lawful, PackFrame, HeaderOf, PacketOf, Encrypts, Unpacked, HeaderError, PayloadLength, OpenBody, ParsePacket;
    PackSucceeds(g, f);
    PackedStarts(g, f);
    HeaderOfRead(f);
    var frame := PackFrame(g, f).value;
    var header, body := HeaderOf(f), frame[HEADER_SIZE..];
    assert frame == header + body;
    BodyOpens(g, f, body, key);
    UnpackFrame(g, header, body, rest, key, f.payload);
  }

  /** The bytes on the wire for a list of frames, each packed under its own key. */
  function Stream(g: Gcm, frames: seq<Frame>): seq<bv8>
    requires forall i :: 0 <= i < |frames| ==> PackFrame(g, frames[i]).Ok?
  {
    if frames == [] then []
    else PackFrame(g, frames[0]).value + Stream(g, frames[1..])
  }

  /** Reads one packet per key, stopping at the first error. */
  function UnpackAll(g: Gcm, stream: seq<bv8>, keys: seq<Key>): (r: (seq<Packet>, Option<CodecError>, seq<bv8>))
    decreases keys
  {
    if keys == [] then ([], None, stream)
    else
      match Unpacked(g, stream, keys[0])
      case (Err(e), rest) => ([], Some(e), rest)
      case (Ok(packet), rest) =>
        var (packets, error, rest') := UnpackAll(g, rest, keys[1..]);
        ([packet] + packets, error, rest')
  }

  function Keys(frames: seq<Frame>): (ks: seq<Key>)
    ensures |ks| == |frames|
  {
    seq(|frames|, i requires 0 <= i < |frames| => frames[i].key)
  }

  function Packets(frames: seq<Frame>): (ps: seq<Packet>)
    ensures |ps| == |frames|
  {
    seq(|frames|, i requires 0 <= i < |frames| => PacketOf(frames[i]))
  }

  /**
   * Unpacking the concatenation of any frames, plain and encrypted under changing keys, returns
   * exactly their packets in order, without error, and leaves exactly the bytes that followed.
   */
  lemma {:induction false} StreamRoundTrip(g: Gcm, frames: seq<Frame>, rest: seq<bv8>)
    requires Lawful(g)
    requires forall i :: 0 <= i < |frames| ==> PackFrame(g, frames[i]).Ok?
    ensures UnpackAll(g, Stream(g, frames) + rest, Keys(frames)) == (Packets(frames), None, rest)
    decreases frames
  {
    hide Packed, Unpacked, PacketOf;
    if frames == [] {
      assert Stream(g, frames) + rest == rest;
    } else {
      var f, more := frames[0], frames[1..];
      var tail := Stream(g, more) + rest;
      RoundTrip(g, f, tail, f.key);
      StreamRoundTrip(g, more, rest);
      assert Stream(g, frames) + rest == PackFrame(g, f).value + tail;
      assert Keys(frames)[1..] == Keys(more);
      assert Packets(frames) == [PacketOf(f)] + Packets(more);
    }
  }

  /**
   * A cut-off frame is never taken for a packet: a strict prefix gives end-of-file at the two frame
   * boundaries (nothing read, header only) and an unexpected end of file anywhere else.
   */
  lemma StrictPrefixFails(g: Gcm, f: Frame, n: nat, key: Key)
    requires Lawful(g) && PackFrame(g, f).Ok? && n < |PackFrame(g, f).value|
    ensures Unpacked(g, PackFrame(g, f).value[..n], key)
         == (Err(if n == 0 || n == HEADER_SIZE then Eof else UnexpectedEof), [])
  {
    PackSucceeds(g, f);
    PackedStarts(g, f);
    HeaderOfRead(f);
    hide PackFrame, HeaderOf, PayloadLength, HeaderError, OpenBody, ParsePacket;
    var s := PackFrame(g, f).value[..n];
    if n >= HEADER_SIZE {
      assert s[..HEADER_SIZE] == HeaderOf(f);
    }
  }

  // ---------------------------------------------------------------- error detection

  /** The header check is a zero CRC residue over bytes 0 to 29. */
  lemma HeaderCheckIsResidue(header: seq<bv8>)
    requires |header| == HEADER_SIZE
    ensures HeaderCrcOk(header) <==> Crc.Crc16(header[..30]) == 0
  {
    hide Crc.Crc16, Crc.Word;
    assert header[..30] == header[..28] + [header[28], header[29]];
    Crc.ResidueIsZero(header[..28], header[28], header[29]);
  }

  /**
   * A stream whose header passes the CRC, altered only within sixteen consecutive bits of bytes 0 to
   * 29, is never accepted, under any key.
   */
  lemma HeaderBurstRejected(g: Gcm, stream: seq<bv8>, altered: seq<bv8>, i: nat, j: nat, key: Key)
    requires |stream| >= HEADER_SIZE && |altered| == |stream| && HeaderCrcOk(stream[..HEADER_SIZE])
    requires Polynomials.BurstBetween(stream[..30], altered[..30], i, j) && j - i <= 16
    requires altered[30..] == stream[30..] && altered != stream
    ensures Unpacked(g, altered, key).0.Err?
    ensures Unpacked(g, altered, key).0.error == BadMagic || Unpacked(g, altered, key).0.error == BadHeaderCrc
  {
    hide Crc.Crc16From, Crc.Word, OpenBody, ParsePacket, PayloadLength, Polynomials.BurstBetween;
    var h, h' := stream[..HEADER_SIZE], altered[..HEADER_SIZE];
    assert h[..30] == stream[..30] && h'[..30] == altered[..30];
    assert stream == stream[..30] + stream[30..] && altered == altered[..30] + altered[30..];
    HeaderCheckIsResidue(h);
    HeaderCheckIsResidue(h');
    CrcPolynomial.BurstDetected(0xFFFF, stream[..30], altered[..30], i, j);
  }

  function PlainBody(header: seq<bv8>, payload: seq<bv8>): (body: seq<bv8>)
    ensures |body| == |payload| + FOOTER_SIZE
  {
    payload + Crc32Bytes(Crc32.Checksum(header + payload)) + Blank(12)
  }

  lemma PlainFrame(g: Gcm, f: Frame)
    requires Lawful(g) && PackFrame(g, f).Ok? && !Encrypts(f.keyId, f.key)
    ensures |f.payload| <= MAX_PAYLOAD_SIZE
    ensures PackFrame(g, f).value == HeaderOf(f) + PlainBody(HeaderOf(f), f.payload)
    ensures HeaderError(HeaderOf(f)) == None && PayloadLength(HeaderOf(f)) == |f.payload| && HeaderOf(f)[3] & 0x02 == 0
  {
    hide Lawful, PackFrame, HeaderOf, Encrypts, HeaderError, PayloadLength, Crc32.Checksum, Crc32Bytes, Blank,
         PacketOf;
    PackSucceeds(g, f);
    PackedStarts(g, f);
    HeaderOfRead(f);
    var frame := PackFrame(g, f).value;
    var body := frame[HEADER_SIZE..];
    assert frame == HeaderOf(f) + body;
    PackedForm(g, f, body);
  }

  /** s with x written over it from position i on. */
  function Overwrite(s: seq<bv8>, i: nat, x: seq<bv8>): (r: seq<bv8>)
    requires i + |x| <= |s|
    ensures |r| == |s|
  {
    s[..i] + x + s[i + |x|..]
  }

  /** A plaintext frame whose payload is changed within thirty-two consecutive bits is rejected by the CRC-32. */
  lemma PayloadBurstRejected(g: Gcm, f: Frame, rest: seq<bv8>, altered: seq<bv8>, i: nat, j: nat, key: Key)
    requires Lawful(g) && PackFrame(g, f).Ok? && !Encrypts(f.keyId, f.key)
    requires Polynomials.BurstBetween(f.payload, altered, i, j) && j - i <= 32 && altered != f.payload
    ensures HEADER_SIZE + |f.payload| <= |PackFrame(g, f).value|
    ensures Unpacked(g, Overwrite(PackFrame(g, f).value + rest, HEADER_SIZE, altered), key)
         == (Err(BadPayloadCrc), rest)
  {
    hide Lawful, PackFrame, HeaderOf, Encrypts, HeaderError, PayloadLength, OpenBody, Unpacked, PlainBody, Overwrite,
         Polynomials.MessageBits;
    PlainFrame(g, f);
    var header, body := HeaderOf(f), PlainBody(HeaderOf(f), f.payload);
    AlteredBody(g, header, f.payload, altered, i, j, key);
    ChangedBytes(header, body, rest, 0, altered);
    UnpackRejects(g, header, Overwrite(body, 0, altered), rest, key, BadPayloadCrc);
  }

  lemma ChangedBytes(header: seq<bv8>, body: seq<bv8>, rest: seq<bv8>, i: nat, x: seq<bv8>)
    requires i + |x| <= |body|
    ensures Overwrite(header + body + rest, |header| + i, x) == header + Overwrite(body, i, x) + rest
  {
  }

  lemma UnpackRejects(g: Gcm, header: seq<bv8>, body: seq<bv8>, rest: seq<bv8>, key: Key, e: CodecError)
    requires |header| == HEADER_SIZE && HeaderError(header) == None
    requires |body| == PayloadLength(header) + FOOTER_SIZE && OpenBody(g, header, body, key) == Err(e)
    ensures Unpacked(g, header + body + rest, key) == (Err(e), rest)
  {
    hide ReadFull, HeaderError, PayloadLength, OpenBody, ParsePacket;
    assert header + body + rest == header + (body + rest);
    ReadPrefix(header, body + rest);
    ReadPrefix(body, rest);
  }

  lemma OverwriteFirst(s: seq<bv8>, t: seq<bv8>, i: nat, x: seq<bv8>)
    requires i + |x| <= |s|
    ensures Overwrite(s + t, i, x) == Overwrite(s, i, x) + t
  {
  }

  lemma WrongSum(g: Gcm, header: seq<bv8>, data: seq<bv8>, sum: bv32, key: Key)
    requires |header| == HEADER_SIZE && PayloadLength(header) == |data| && header[3] & 0x02 == 0
    requires Crc32.Checksum(header + data) != sum
    ensures OpenBody(g, header, data + (Crc32Bytes(sum) + Blank(12)), key) == Err(BadPayloadCrc)
  {
    hide PayloadLength, Crc32.Checksum, Crc32Bytes, Word32, Blank;
    var body := data + (Crc32Bytes(sum) + Blank(12));
    assert body[..|data|] == data && body[|data|..|data| + 4] == Crc32Bytes(sum);
    Crc32BytesRead(sum);
  }

  lemma BurstBehind(header: seq<bv8>, a: seq<bv8>, b: seq<bv8>, i: nat, j: nat)
    requires Polynomials.BurstBetween(a, b, i, j)
    ensures Polynomials.BurstBetween(header + a, header + b, 8 * |header| + i, 8 * |header| + j)
  {
    hide Polynomials.MessageBits;
    Polynomials.MessageBitsAppend(header, a);
    Polynomials.MessageBitsAppend(header, b);
    BehindPrefix(Polynomials.MessageBits(header), Polynomials.MessageBits(a), i);
    BehindPrefix(Polynomials.MessageBits(header), Polynomials.MessageBits(b), i);
    BehindPrefix(Polynomials.MessageBits(header), Polynomials.MessageBits(a), j);
    BehindPrefix(Polynomials.MessageBits(header), Polynomials.MessageBits(b), j);
  }

  lemma BehindPrefix(p: seq<bool>, m: seq<bool>, i: nat)
    requires i <= |m|
    ensures (p + m)[..|p| + i] == p + m[..i] && (p + m)[|p| + i..] == m[i..]
  {
  }

  lemma AlteredBody(g: Gcm, header: seq<bv8>, payload: seq<bv8>, altered: seq<bv8>, i: nat, j: nat, key: Key)
    requires |header| == HEADER_SIZE && PayloadLength(header) == |payload| && header[3] & 0x02 == 0
    requires Polynomials.BurstBetween(payload, altered, i, j) && j - i <= 32 && altered != payload
    ensures OpenBody(g, header, Overwrite(PlainBody(header, payload), 0, altered), key) == Err(BadPayloadCrc)
  {
    hide PayloadLength, Crc32.Checksum, Crc32Bytes, Word32, Blank, OpenBody, Polynomials.MessageBits;
    var sum := Crc32.Checksum(header + payload);
    assert header + altered != header + payload by {
      BehindHeader(header, payload);
      BehindHeader(header, altered);
    }
    BurstBehind(header, payload, altered, i, j);
    Crc32.BurstDetected(header + payload, header + altered, 8 * |header| + i, 8 * |header| + j);
    var footer := Crc32Bytes(sum) + Blank(12);
    assert PlainBody(header, payload) == payload + footer;
    assert Overwrite(payload, 0, altered) == altered;
    OverwriteFirst(payload, footer, 0, altered);
    hide Overwrite;
    WrongSum(g, header, altered, sum, key);
  }

  lemma BehindHeader(header: seq<bv8>, s: seq<bv8>)
    ensures (header + s)[|header|..] == s
  {
  }
}
