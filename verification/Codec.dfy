/**
 * The Goster-WY frame codec: a 32-byte header with a CRC-16, a payload, and a 16-byte footer that
 * holds a CRC-32 (plaintext) or the AES-GCM tag (encrypted).
 */
module Codec {
  import opened Wrappers
  import opened LittleEndian
  import opened GosterWy
  import Crc
  import Crc32

  datatype Packet = Packet(
    cmdId: CmdId, keyId: U32, sequence: U64,
    isAck: bool, isEncrypted: bool, isCompressed: bool,
    payload: seq<bv8>)

  datatype CodecError =
    | Eof | UnexpectedEof
    | PayloadTooLarge | BadSealSize
    | BadMagic | BadHeaderCrc | BadPayloadCrc
    | MissingKey | BadKey | BadTag

  /** A Go []byte that may be nil. */
  type Key = Option<seq<bv8>>

  // ---------------------------------------------------------------- AES-GCM

  /** seal(key, nonce, plaintext, additional data) and open(key, nonce, ciphertext, additional data). */
  datatype Gcm = Gcm(
    seal: (seq<bv8>, seq<bv8>, seq<bv8>, seq<bv8>) -> seq<bv8>,
    open: (seq<bv8>, seq<bv8>, seq<bv8>, seq<bv8>) -> Option<seq<bv8>>)

  predicate ValidAesKey(key: seq<bv8>) {
    |key| == 16 || |key| == 24 || |key| == 32
  }

  /** All that the codec relies on: a 16-byte expansion, and open undoes seal. */
  ghost predicate Lawful(g: Gcm) {
    forall k, n, p, a ::
      && |g.seal(k, n, p, a)| == |p| + 16
      && g.open(k, n, g.seal(k, n, p, a), a) == Some(p)
  }

  /** The laws are consistent: appending sixteen zero bytes obeys them. */
  lemma LawsAreConsistent()
    ensures exists g: Gcm :: Lawful(g)
  {
    var g := Gcm(
      (k, n, p, a) => p + seq(16, i => 0 as bv8),
      (k, n, c, a) => if |c| >= 16 then Some(c[..|c| - 16]) else None);
    forall k: seq<bv8>, n: seq<bv8>, p: seq<bv8>, a: seq<bv8>
      ensures |g.seal(k, n, p, a)| == |p| + 16
      ensures g.open(k, n, g.seal(k, n, p, a), a) == Some(p)
    {
      assert (p + seq(16, i => 0 as bv8))[..|p|] == p;
    }
    assert Lawful(g);
  }

  // ---------------------------------------------------------------- header

  function Blank(n: nat): (z: seq<bv8>)
    ensures |z| == n
  {
    seq(n, i => 0)
  }

  function Flags(isAck: bool, isEncrypted: bool): bv8 {
    (if isAck then 0x01 else 0) | (if isEncrypted then 0x02 else 0)
  }

  /** The twelve nonce bytes: direction, three zeros, sequence. */
  function Nonce(direction: bv8, sequence: U64): (n: seq<bv8>)
    ensures |n| == 12
  {
    [direction, 0, 0, 0] + Put(sequence, 8)
  }

  function Fields(flags: bv8, cmd: CmdId, keyId: U32, length: U32, direction: bv8, sequence: U64): (h: seq<bv8>)
    ensures |h| == 28
  {
    Put(MAGIC_NUMBER, 2) + [PROTOCOL_VERSION, flags] + Put(0, 2) + Put(cmd, 2)
    + Put(keyId, 4) + Put(length, 4) + Nonce(direction, sequence)
  }

  function CrcBytes(c: bv16): (s: seq<bv8>)
    ensures |s| == 2
  {
    [(c & 0xFF) as bv8, (c >> 8) as bv8]
  }

  function Crc32Bytes(c: bv32): (s: seq<bv8>)
    ensures |s| == 4
  {
    [(c & 0xFF) as bv8, ((c >> 8) & 0xFF) as bv8, ((c >> 16) & 0xFF) as bv8, (c >> 24) as bv8]
  }

  function Word32(s: seq<bv8>): bv32
    requires |s| == 4
  {
    (s[0] as bv32) | ((s[1] as bv32) << 8) | ((s[2] as bv32) << 16) | ((s[3] as bv32) << 24)
  }

  function Sealed(fields: seq<bv8>): (h: seq<bv8>)
    requires |fields| == 28
    ensures |h| == HEADER_SIZE
  {
    fields + CrcBytes(Crc.Crc16(fields)) + [0, 0]
  }

  // ---------------------------------------------------------------- what Pack and Unpack compute

  predicate Encrypts(keyId: U32, key: Key) {
    key.Some? && keyId != 0
  }

  function Packed(g: Gcm, payload: seq<bv8>, cmd: CmdId, keyId: U32, key: Key, sequence: U64, isAck: bool)
    : (r: Result<seq<bv8>, CodecError>)
  {
    if |payload| > MAX_PAYLOAD_SIZE then Err(PayloadTooLarge)
    else
      var flags := Flags(isAck, Encrypts(keyId, key));
      var header := Sealed(Fields(flags, cmd, keyId, |payload|, NonceDirection(cmd, isAck), sequence));
      if Encrypts(keyId, key) then
        if !ValidAesKey(key.value) then Err(BadKey)
        else
          var body := g.seal(key.value, header[16..28], payload, header[..28]);
          if |body| != |payload| + FOOTER_SIZE then Err(BadSealSize) else Ok(header + body)
      else
        Ok(header + payload + Crc32Bytes(Crc32.Checksum(header + payload)) + Blank(12))
  }

  /** io.ReadFull on a stream that holds `stream` and then ends. */
  function ReadFull(stream: seq<bv8>, n: nat): (r: (Result<seq<bv8>, CodecError>, seq<bv8>)) {
    if |stream| >= n then (Ok(stream[..n]), stream[n..])
    else (Err(if stream == [] then Eof else UnexpectedEof), [])
  }

  function PayloadLength(header: seq<bv8>): nat
    requires |header| == HEADER_SIZE
  {
    Get(header[12..16])
  }

  predicate HeaderCrcOk(header: seq<bv8>)
    requires |header| == HEADER_SIZE
  {
    Crc.Word(header[28], header[29]) == Crc.Crc16(header[..28])
  }

  function HeaderError(header: seq<bv8>): Option<CodecError>
    requires |header| == HEADER_SIZE
  {
    if Get(header[0..2]) != MAGIC_NUMBER then Some(BadMagic)
    else if !HeaderCrcOk(header) then Some(BadHeaderCrc)
    else if PayloadLength(header) > MAX_PAYLOAD_SIZE then Some(PayloadTooLarge)
    else None
  }

  function OpenBody(g: Gcm, header: seq<bv8>, body: seq<bv8>, key: Key): Result<seq<bv8>, CodecError>
    requires |header| == HEADER_SIZE && |body| == PayloadLength(header) + FOOTER_SIZE
  {
    if header[3] & 0x02 != 0 then
      if key.None? then Err(MissingKey)
      else if !ValidAesKey(key.value) then Err(BadKey)
      else
        match g.open(key.value, header[16..28], body, header[..28])
        case Some(plaintext) => Ok(plaintext)
        case None => Err(BadTag)
    else
      var length := PayloadLength(header);
      if Crc32.Checksum(header + body[..length]) != Word32(body[length..length + 4]) then Err(BadPayloadCrc)
      else Ok(body[..length])
  }

  function ParsePacket(header: seq<bv8>, payload: seq<bv8>): Packet
    requires |header| == HEADER_SIZE
  {
    PowValues();
    Packet(
      Get(header[6..8]), Get(header[8..12]), Get(header[20..28]),
      header[3] & 0x01 != 0, header[3] & 0x02 != 0, header[3] & 0x04 != 0,
      payload)
  }

  /** The outcome of reading one frame, and what is left in the stream. */
  function Unpacked(g: Gcm, stream: seq<bv8>, key: Key): (r: (Result<Packet, CodecError>, seq<bv8>)) {
    match ReadFull(stream, HEADER_SIZE)
    case (Err(e), rest) => (Err(e), rest)
    case (Ok(header), rest) =>
      match HeaderError(header)
      case Some(e) => (Err(e), rest)
      case None =>
        match ReadFull(rest, PayloadLength(header) + FOOTER_SIZE)
        case (Err(e), rest') => (Err(e), rest')
        case (Ok(body), rest') =>
          match OpenBody(g, header, body, key)
          case Err(e) => (Err(e), rest')
          case Ok(payload) => (Ok(ParsePacket(header, payload)), rest')
  }

  // ---------------------------------------------------------------- the imperative code

  lemma PutStep(n: nat, width: nat)
    requires width > 0
    ensures Put(n, width) == [ByteOf(n % 256)] + Put(n / 256, width - 1)
  {
    hide ByteOf;
  }

  method PutUint(buf: array<bv8>, offset: nat, n: nat, width: nat)
    requires offset + width <= buf.Length
    modifies buf
    ensures buf[..] == old(buf[..offset]) + Put(n, width) + old(buf[offset + width..])
  {
    hide ByteOf, Put;
    ghost var tail := buf[offset..];
    var rest := n;
    for i := 0 to width
      invariant Put(n, width) == buf[offset..offset + i] + Put(rest, width - i)
      invariant buf[..offset] == old(buf[..offset])
      invariant buf[offset + i..] == tail[i..]
    {
      PutStep(rest, width - i);
      var low := ByteOf(rest % 256);
      ghost var done := buf[offset..offset + i];
      buf[offset + i] := low;
      rest := rest / 256;
      assert buf[offset..offset + i + 1] == done + [low];
      assert buf[offset + i + 1..] == tail[i + 1..];
    }
    assert buf[..] == buf[..offset] + buf[offset..offset + width] + buf[offset + width..];
  }

  /** Writes the next field of a header whose bytes from `offset` on are still blank. */
  method EmitUint(buf: array<bv8>, ghost done: seq<bv8>, offset: nat, n: nat, width: nat)
    requires offset == |done| && offset + width <= buf.Length
    requires buf[..] == done + Blank(buf.Length - offset)
    modifies buf
    ensures buf[..] == done + Put(n, width) + Blank(buf.Length - offset - width)
  {
    ghost var before := buf[..];
    PutUint(buf, offset, n, width);
    assert before[..offset] == done;
    assert before[offset + width..] == Blank(buf.Length - offset - width);
  }

  method EmitByte(buf: array<bv8>, ghost done: seq<bv8>, offset: nat, b: bv8)
    requires offset == |done| && offset < buf.Length
    requires buf[..] == done + Blank(buf.Length - offset)
    modifies buf
    ensures buf[..] == done + [b] + Blank(buf.Length - offset - 1)
  {
    buf[offset] := b;
  }

  /** The header up to the command: bytes 0 to 7. */
  function Preamble(flags: bv8, cmd: CmdId): (h: seq<bv8>)
    ensures |h| == 8
  {
    Put(MAGIC_NUMBER, 2) + [PROTOCOL_VERSION] + [flags] + Put(0, 2) + Put(cmd, 2)
  }

  lemma FieldsLayout(flags: bv8, cmd: CmdId, keyId: U32, length: U32, direction: bv8, sequence: U64)
    ensures Fields(flags, cmd, keyId, length, direction, sequence)
         == Preamble(flags, cmd) + Put(keyId, 4) + Put(length, 4) + [direction] + [0] + [0] + [0] + Put(sequence, 8)
  {
    hide Put;
  }

  method EmitPreamble(buf: array<bv8>, flags: bv8, cmd: CmdId)
    requires buf.Length == HEADER_SIZE && buf[..] == Blank(HEADER_SIZE)
    modifies buf
    ensures buf[..] == Preamble(flags, cmd) + Blank(HEADER_SIZE - 8)
  {
    ghost var d0 := Put(MAGIC_NUMBER, 2);
    ghost var d1 := d0 + [PROTOCOL_VERSION];
    hide Put, Blank;
    assert [] + Blank(32) == Blank(32);
    EmitUint(buf, [], 0, MAGIC_NUMBER, 2);
    assert [] + d0 == d0;
    EmitByte(buf, d0, 2, PROTOCOL_VERSION);
    EmitByte(buf, d1, 3, flags);
    EmitUint(buf, d1 + [flags], 4, 0, 2);
    EmitUint(buf, d1 + [flags] + Put(0, 2), 6, cmd, 2);
  }

  method BuildHeader(flags: bv8, cmd: CmdId, keyId: U32, length: U32, direction: bv8, sequence: U64)
    returns (header: seq<bv8>)
    ensures header == Sealed(Fields(flags, cmd, keyId, length, direction, sequence))
  {
    var buf := new bv8[HEADER_SIZE](i => 0);
    ghost var fields := Fields(flags, cmd, keyId, length, direction, sequence);
    hide Fields, Preamble, Put;
    FieldsLayout(flags, cmd, keyId, length, direction, sequence);
    assert buf[..] == Blank(HEADER_SIZE);
    hide Blank;
    EmitPreamble(buf, flags, cmd);
    EmitTrailer(buf, Preamble(flags, cmd), keyId, length, direction, sequence);
    SealHeader(buf, fields);
    header := buf[..];
  }

  method SealHeader(buf: array<bv8>, ghost fields: seq<bv8>)
    requires buf.Length == HEADER_SIZE && |fields| == 28 && buf[..] == fields + Blank(4)
    modifies buf
    ensures buf[..] == Sealed(fields)
  {
    assert buf[..28] == fields;
    var crc := Crc.Crc16Modbus(buf[..28]);
    buf[28] := (crc & 0xFF) as bv8;
    buf[29] := (crc >> 8) as bv8;
    assert buf[30] == 0 && buf[31] == 0;
    assert buf[..] == fields + CrcBytes(crc) + [0, 0];
  }

  method EmitTrailer(buf: array<bv8>, ghost done: seq<bv8>, keyId: U32, length: U32, direction: bv8, sequence: U64)
    requires buf.Length == HEADER_SIZE && |done| == 8 && buf[..] == done + Blank(HEADER_SIZE - 8)
    modifies buf
    ensures buf[..]
         == done + Put(keyId, 4) + Put(length, 4) + [direction] + [0] + [0] + [0] + Put(sequence, 8) + Blank(4)
  {
    ghost var d4 := done + Put(keyId, 4);
    ghost var d5 := d4 + Put(length, 4);
    hide Put, Blank;
    EmitUint(buf, done, 8, keyId, 4);
    EmitUint(buf, d4, 12, length, 4);
    EmitByte(buf, d5, 16, direction);
    SkipReserved(buf, d5 + [direction]);
    EmitUint(buf, d5 + [direction] + [0] + [0] + [0], 20, sequence, 8);
  }

  lemma SkipReserved(buf: array<bv8>, done: seq<bv8>)
    requires buf.Length == HEADER_SIZE && |done| == 17 && buf[..] == done + Blank(15)
    ensures buf[..] == done + [0] + [0] + [0] + Blank(12)
  {
  }

  method Pack(g: Gcm, payload: seq<bv8>, cmd: CmdId, keyId: U32, key: Key, sequence: U64, isAck: bool)
    returns (r: Result<seq<bv8>, CodecError>)
    ensures r == Packed(g, payload, cmd, keyId, key, sequence, isAck)
  {
    if |payload| > MAX_PAYLOAD_SIZE {
      return Err(PayloadTooLarge);
    }
    var flags: bv8 := 0;
    if isAck {
      flags := flags | 0x01;
    }
    var isEncrypted := key.Some? && keyId != 0;
    if isEncrypted {
      flags := flags | 0x02;
    }
    assert flags == Flags(isAck, isEncrypted);
    var header := BuildHeader(flags, cmd, keyId, |payload|, NonceDirection(cmd, isAck), sequence);
    if isEncrypted {
      if !ValidAesKey(key.value) {
        return Err(BadKey);
      }
      var body := g.seal(key.value, header[16..28], payload, header[..28]);
      if |body| != |payload| + FOOTER_SIZE {
        return Err(BadSealSize);
      }
      return Ok(header + body);
    }
    var checked := header + payload;
    return Ok(checked + Crc32Bytes(Crc32.Checksum(checked)) + Blank(12));
  }

  /** A stream the peer has finished writing to. */
  class ByteReader {
    var remaining: seq<bv8>

    constructor (data: seq<bv8>)
      ensures remaining == data
    {
      remaining := data;
    }

    method Read(n: nat) returns (r: Result<seq<bv8>, CodecError>)
      modifies this
      ensures (r, remaining) == ReadFull(old(remaining), n)
    {
      if |remaining| >= n {
        r := Ok(remaining[..n]);
        remaining := remaining[n..];
      } else {
        r := Err(if remaining == [] then Eof else UnexpectedEof);
        remaining := [];
      }
    }
  }

  method CheckHeader(header: seq<bv8>) returns (e: Option<CodecError>)
    requires |header| == HEADER_SIZE
    ensures e == HeaderError(header)
  {
    if Get(header[0..2]) != MAGIC_NUMBER {
      return Some(BadMagic);
    }
    var actual := Crc.Crc16Modbus(header[..28]);
    if Crc.Word(header[28], header[29]) != actual {
      return Some(BadHeaderCrc);
    }
    if Get(header[12..16]) > MAX_PAYLOAD_SIZE {
      return Some(PayloadTooLarge);
    }
    return None;
  }

  method ReadBody(g: Gcm, header: seq<bv8>, body: seq<bv8>, key: Key) returns (r: Result<seq<bv8>, CodecError>)
    requires |header| == HEADER_SIZE && |body| == PayloadLength(header) + FOOTER_SIZE
    ensures r == OpenBody(g, header, body, key)
  {
    hide Get, Crc32.Checksum, Word32;
    if header[3] & 0x02 != 0 {
      if key.None? {
        return Err(MissingKey);
      }
      if !ValidAesKey(key.value) {
        return Err(BadKey);
      }
      var plaintext := g.open(key.value, header[16..28], body, header[..28]);
      if plaintext.None? {
        return Err(BadTag);
      }
      return Ok(plaintext.value);
    }
    var length := PayloadLength(header);
    if Crc32.Checksum(header + body[..length]) != Word32(body[length..length + 4]) {
      return Err(BadPayloadCrc);
    }
    return Ok(body[..length]);
  }

  method Unpack(g: Gcm, reader: ByteReader, key: Key) returns (r: Result<Packet, CodecError>)
    modifies reader
    ensures (r, reader.remaining) == Unpacked(g, old(reader.remaining), key)
  {
    hide HeaderError, PayloadLength, OpenBody, ParsePacket;
    var first := reader.Read(HEADER_SIZE);
    if first.Err? {
      return Err(first.error);
    }
    var header := first.value;
    var error := CheckHeader(header);
    if error.Some? {
      return Err(error.value);
    }
    var second := reader.Read(PayloadLength(header) + FOOTER_SIZE);
    if second.Err? {
      return Err(second.error);
    }
    var payload := ReadBody(g, header, second.value, key);
    if payload.Err? {
      return Err(payload.error);
    }
    return Ok(ParsePacket(header, payload.value));
  }
}
