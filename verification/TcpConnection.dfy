/**
 * The loop that serves one custom TCP connection: read a frame, answer it, and once the device is
 * authenticated deliver a batch of downlink commands.
 */
module TcpConnection {
  import opened Wrappers
  import opened LittleEndian
  import opened GosterWy
  import opened Codec
  import opened CodecTheorems
  import opened Commands
  import opened DownlinkService
  import opened CoreIngress
  import opened TcpSession

  /** The server half of a key exchange. */
  datatype Exchange = Exchange(secret: seq<bv8>, publicKey: seq<bv8>)

  /** What the core says to an authentication or a registration. */
  datatype Verdict = Accepted(uuid: string, tenantId: string, credential: seq<bv8>) | Declined(pending: bool)

  /** Everything that serving one packet asks of the outside. */
  datatype Answers = Answers(exchange: Option<Exchange>, timestamp: U64, verdict: Verdict)

  /** The outside: answers by packet, success by number of the write, and the texts of errors. */
  datatype Env = Env(answers: nat -> Answers, accepts: nat -> bool, unmapped: string, unpackable: string,
                     broken: string)

  /** A frame given to the socket, and how many numbers had been used with it. */
  datatype Sent = Sent(count: nat, frame: Frame)

  /** `count` is the write counter before it wraps to 64 bits. */
  datatype Link = Link(session: Session, key: Key, count: nat, sent: seq<Sent>)

  const NEW_LINK := Link(NEW_SESSION, None, 0, [])

  function Wrapped(count: nat): U64 {
    count % 0x1_0000_0000_0000_0000
  }

  /** A state of the connection, and whether its loop goes on. */
  datatype After = After(core: Core, link: Link, alive: bool)

  // ---------------------------------------------------------------- what one round does

  predicate AllowedEarly(cmd: CmdId) {
    cmd == HANDSHAKE_INIT || cmd == AUTH_VERIFY || cmd == DEVICE_REGISTER
  }

  function HandshakePayload(publicKey: seq<bv8>, timestamp: U64): seq<bv8> {
    (if |publicKey| >= 32 then publicKey[..32] else publicKey + Blank(32 - |publicKey|)) + Put(timestamp, 8)
  }

  function FrameFor(l: Link, payload: seq<bv8>, cmd: CmdId, keyId: U32, key: Key, isAck: bool): Frame {
    Frame(payload, cmd, keyId, key, Wrapped(l.count + 1), isAck)
  }

  /** Takes the next number, packs and writes; a number is used up even if packing fails. */
  function AfterSend(g: Gcm, env: Env, l: Link, payload: seq<bv8>, cmd: CmdId, keyId: U32, key: Key,
                     isAck: bool): (r: (Link, bool))
  {
    var frame := FrameFor(l, payload, cmd, keyId, key, isAck);
    if PackFrame(g, frame).Err? then (l.(count := l.count + 1), false)
    else (l.(count := l.count + 1, sent := l.sent + [Sent(l.count + 1, frame)]), env.accepts(|l.sent|))
  }

  function AfterHandshake(g: Gcm, env: Env, l: Link, payload: seq<bv8>, a: Answers): (r: (Link, bool)) {
    if |payload| != 32 || a.exchange.None? then (l, false)
    else
      AfterSend(g, env, l.(key := Some(a.exchange.value.secret)),
                HandshakePayload(a.exchange.value.publicKey, a.timestamp), HANDSHAKE_RESP, 0, None, true)
  }

  function AfterVerdict(g: Gcm, env: Env, l: Link, v: Verdict, body: seq<bv8>, declined: bv8): (r: (Link, bool)) {
    match v
    case Accepted(uuid, tenantId, _) =>
      AfterSend(g, env, l.(session := Bound(l.session, uuid, tenantId)), [0] + body, AUTH_ACK, 1, l.key, true)
    case Declined(_) =>
      (AfterSend(g, env, l, [declined], AUTH_ACK, 1, l.key, true).0, false)
  }

  /** The answer to a key exchange still goes out under the old key. */
  function AfterRekey(g: Gcm, env: Env, l: Link, a: Answers): (r: (Link, bool)) {
    if a.exchange.None? then (l, false)
    else
      var (l', ok) := AfterSend(g, env, l, a.exchange.value.publicKey, KEY_EXCHANGE_DOWNLINK, 1, l.key, true);
      (if ok then l'.(key := Some(a.exchange.value.secret)) else l', ok)
  }

  function Credential(v: Verdict): seq<bv8> {
    if v.Accepted? then v.credential else []
  }

  function DeclinedStatus(v: Verdict): bv8 {
    if v.Declined? && v.pending then 0x02 else 0x01
  }

  function AfterPacket(g: Gcm, env: Env, core: Core, l: Link, packet: Packet, a: Answers): After {
    var cmd := packet.cmdId;
    if !l.session.authenticated && !AllowedEarly(cmd) then After(core, l, false)
    else if cmd == HANDSHAKE_INIT then
      var (l', ok) := AfterHandshake(g, env, l, packet.payload, a);
      After(core, l', ok)
    else if cmd == AUTH_VERIFY then
      var (l', ok) := AfterVerdict(g, env, l, a.verdict, [], 0x01);
      After(core, l', ok)
    else if cmd == DEVICE_REGISTER then
      var (l', ok) := AfterVerdict(g, env, l, a.verdict, Credential(a.verdict), DeclinedStatus(a.verdict));
      After(core, l', ok)
    else if IsReport(cmd) then
      var (l', ok) := AfterSend(g, env, l, [], cmd, 1, l.key, true);
      After(core, l', ok)
    else if cmd == KEY_EXCHANGE_UPLINK then
      var (l', ok) := AfterRekey(g, env, l, a);
      After(core, l', ok)
    else if IsDownlinkCommand(cmd) then
      if packet.isAck then
        var (core', session) := AfterAck(core, l.session, cmd, packet.sequence);
        After(core', l.(session := session), true)
      else After(core, l, true)
    else After(core, l, cmd != ERROR_REPORT)
  }

  /** Handles one popped command. */
  function AfterCommand(g: Gcm, env: Env, core: Core, l: Link, msg: AdapterCommand): After {
    match ResolveDownlinkCmd(msg)
    case None =>
      var (core', session) := AfterFail(core, l.session, msg, env.unmapped);
      After(core', l.(session := session), true)
    case Some(cmd) =>
      var frame := FrameFor(l, msg.payload, cmd, 1, l.key, false);
      var (l', ok) := AfterSend(g, env, l, msg.payload, cmd, 1, l.key, false);
      if PackFrame(g, frame).Err? then
        var (core', session) := AfterFail(core, l.session, msg, env.unpackable);
        After(core', l'.(session := session), true)
      else if !ok then
        var (core', session) := AfterRequeueDownlink(core, l.session, msg, env.broken);
        After(core', l'.(session := session), false)
      else
        var (core', session) := AfterSent(core, l.session, msg, cmd, Wrapped(l'.count));
        After(core', l'.(session := session), true)
  }

  function AfterBatch(g: Gcm, env: Env, tenants: Tenants, core: Core, l: Link, n: nat): After
    decreases n
  {
    if n == 0 then After(core, l, true)
    else
      match AfterPopCommand(core, tenants, l.session)
      case (core', None) => After(core', l, true)
      case (core', Some(msg)) =>
        var r := AfterCommand(g, env, core', l, msg);
        if r.alive then AfterBatch(g, env, tenants, r.core, r.link, n - 1) else r
  }

  function AfterRound(g: Gcm, env: Env, tenants: Tenants, batch: nat, core: Core, l: Link, packet: Packet,
                      i: nat): After
  {
    var r := AfterPacket(g, env, core, l, packet, env.answers(i));
    if r.alive && r.link.session.authenticated then AfterBatch(g, env, tenants, r.core, r.link, batch) else r
  }

  /** The end of every connection: what is still in flight goes back. */
  function Ended(core: Core, l: Link): (r: (Core, Link)) {
    var (core', session) := AfterRequeueInflight(core, l.session);
    (core', l.(session := session))
  }

  lemma UnpackConsumes(g: Gcm, stream: seq<bv8>, key: Key)
    ensures Unpacked(g, stream, key).0.Ok? ==> |Unpacked(g, stream, key).1| < |stream|
  {
    hide HeaderError, PayloadLength, OpenBody, ParsePacket;
  }

  /** The whole connection, given all bytes the device will ever send; `i` packets were served before. */
  function Served(g: Gcm, env: Env, tenants: Tenants, batch: nat, core: Core, l: Link, stream: seq<bv8>,
                  i: nat): (r: (Core, Link))
    decreases |stream|
  {
    UnpackConsumes(g, stream, l.key);
    match Unpacked(g, stream, l.key)
    case (Err(_), _) => Ended(core, l)
    case (Ok(packet), rest) =>
      var r := AfterRound(g, env, tenants, batch, core, l, packet, i);
      if r.alive then Served(g, env, tenants, batch, r.core, r.link, rest, i + 1) else Ended(r.core, r.link)
  }

  // ---------------------------------------------------------------- the imperative code

  /** The writing side of a connection, frame by frame. */
  class Socket {
    const accepts: nat -> bool
    var frames: seq<seq<bv8>>

    constructor (accepts: nat -> bool)
      ensures this.accepts == accepts && frames == []
    {
      this.accepts := accepts;
      frames := [];
    }

    method Write(frame: seq<bv8>) returns (ok: bool)
      modifies this
      ensures frames == old(frames) + [frame] && ok == accepts(|old(frames)|)
    {
      ok := accepts(|frames|);
      frames := frames + [frame];
    }
  }

  class Connection {
    const g: Gcm
    const env: Env
    const session: TcpConnectionSession
    const reader: ByteReader
    const socket: Socket
    var sessionKey: Key
    var writeSeq: U64
    ghost var count: nat
    ghost var sent: seq<Sent>

    constructor (g: Gcm, env: Env, session: TcpConnectionSession, reader: ByteReader, socket: Socket)
      requires socket.accepts == env.accepts && socket.frames == [] && session.State() == NEW_SESSION
      ensures this.g == g && this.env == env && this.session == session
      ensures this.reader == reader && this.socket == socket
      ensures Valid() && State() == NEW_LINK
    {
      this.g, this.env, this.session, this.reader, this.socket := g, env, session, reader, socket;
      sessionKey, writeSeq, count, sent := None, 0, 0, [];
    }

    ghost function State(): Link
      reads this, session
    {
      Link(session.State(), sessionKey, count, sent)
    }

    /** The counter is the wrapped count, and the socket got exactly the packed frames. */
    ghost predicate Valid()
      reads this, socket
    {
      && socket.accepts == env.accepts
      && writeSeq == Wrapped(count)
      && |socket.frames| == |sent|
      && forall k :: 0 <= k < |sent| ==> PackFrame(g, sent[k].frame) == Ok(socket.frames[k])
    }

    /** The second result tells whether packing already failed. */
    method Send(payload: seq<bv8>, cmd: CmdId, keyId: U32, key: Key, isAck: bool) returns (ok: bool, packed: bool)
      requires Valid()
      modifies this`writeSeq, this`count, this`sent, socket
      ensures Valid()
      ensures (State(), ok) == AfterSend(g, env, old(State()), payload, cmd, keyId, key, isAck)
      ensures packed == PackFrame(g, FrameFor(old(State()), payload, cmd, keyId, key, isAck)).Ok?
    {
      hide PackFrame, Packed, Wrapped;
      ghost var frame := FrameFor(State(), payload, cmd, keyId, key, isAck);
      NextNumber(count);
      PackFrameIs(g, frame);
      writeSeq := (writeSeq + 1) % 0x1_0000_0000_0000_0000;
      count := count + 1;
      var buf := Pack(g, payload, cmd, keyId, key, writeSeq, isAck);
      if buf.Err? {
        return false, false;
      }
      sent := sent + [Sent(count, frame)];
      ok := socket.Write(buf.value);
      return ok, true;
    }

    method AnswerHandshake(payload: seq<bv8>, a: Answers) returns (alive: bool)
      requires Valid()
      modifies this, socket
      ensures Valid() && (State(), alive) == AfterHandshake(g, env, old(State()), payload, a)
    {
      hide AfterSend, Valid, HandshakePayload;
      if |payload| != 32 {
        return false;
      }
      if a.exchange.None? {
        return false;
      }
      SetKey(a.exchange.value.secret);
      var packed;
      alive, packed := Send(HandshakePayload(a.exchange.value.publicKey, a.timestamp), HANDSHAKE_RESP, 0, None, true);
    }

    method SetKey(secret: seq<bv8>)
      requires Valid()
      modifies this`sessionKey
      ensures Valid() && State() == old(State()).(key := Some(secret))
    {
      sessionKey := Some(secret);
    }

    method AnswerVerdict(v: Verdict, body: seq<bv8>, declined: bv8) returns (alive: bool)
      requires Valid()
      modifies this, session, socket
      ensures Valid() && (State(), alive) == AfterVerdict(g, env, old(State()), v, body, declined)
    {
      hide AfterSend, PackFrame, Wrapped;
      var status := 0x00;
      var answer := body;
      if v.Accepted? {
        session.BindDevice(v.uuid, v.tenantId);
      } else {
        status := declined;
        answer := [];
      }
      assert v.Declined? ==> [status] + answer == [declined];
      var packed;
      alive, packed := Send([status] + answer, AUTH_ACK, 1, sessionKey, true);
      alive := alive && v.Accepted?;
    }

    method AnswerRekey(a: Answers) returns (alive: bool)
      requires Valid()
      modifies this, socket
      ensures Valid() && (State(), alive) == AfterRekey(g, env, old(State()), a)
    {
      hide AfterSend, Valid;
      if a.exchange.None? {
        return false;
      }
      var packed;
      alive, packed := Send(a.exchange.value.publicKey, KEY_EXCHANGE_DOWNLINK, 1, sessionKey, true);
      if alive {
        SetKey(a.exchange.value.secret);
      }
    }

    method HandlePacket(packet: Packet, a: Answers) returns (alive: bool)
      requires Valid()
      modifies this, session, socket, session.core.downlink.store, session.core.downlink.queue
      ensures Valid() && After(session.CoreState(), State(), alive)
              == AfterPacket(g, env, old(session.CoreState()), old(State()), packet, a)
    {
      hide AfterSend, AfterHandshake, AfterVerdict, AfterRekey, AfterAck, PackFrame;
      var cmd := packet.cmdId;
      var allowed := cmd == HANDSHAKE_INIT || cmd == AUTH_VERIFY || cmd == DEVICE_REGISTER;
      if !session.authenticated && !allowed {
        return false;
      }
      if cmd == HANDSHAKE_INIT {
        alive := AnswerHandshake(packet.payload, a);
      } else if cmd == AUTH_VERIFY {
        alive := AnswerVerdict(a.verdict, [], 0x01);
      } else if cmd == DEVICE_REGISTER {
        alive := AnswerVerdict(a.verdict, Credential(a.verdict), DeclinedStatus(a.verdict));
      } else if IsReport(cmd) {
        var packed;
        alive, packed := Send([], cmd, 1, sessionKey, true);
      } else if cmd == KEY_EXCHANGE_UPLINK {
        alive := AnswerRekey(a);
      } else if IsDownlinkCommand(cmd) {
        if packet.isAck {
          session.HandleDownlinkAck(cmd, packet.sequence);
        }
        alive := true;
      } else {
        alive := cmd != ERROR_REPORT;
      }
    }

    method Deliver(msg: AdapterCommand) returns (alive: bool)
      requires Valid()
      modifies this, session, socket, session.core.downlink.store, session.core.downlink.queue
      ensures Valid() && After(session.CoreState(), State(), alive)
              == AfterCommand(g, env, old(session.CoreState()), old(State()), msg)
    {
      hide AfterSend, AfterFail, AfterSent, AfterRequeueDownlink, ResolveDownlinkCmd, PackFrame;
      var cmd := ResolveDownlinkCmd(msg);
      if cmd.None? {
        session.FailDownlink(msg, env.unmapped);
        return true;
      }
      var ok, packed := Send(msg.payload, cmd.value, 1, sessionKey, false);
      if !packed {
        session.FailDownlink(msg, env.unpackable);
        return true;
      }
      if !ok {
        session.RequeueDownlink(msg, env.broken);
        return false;
      }
      session.MarkDownlinkSent(msg, cmd.value, writeSeq);
      return true;
    }

    method DeliverBatch(batch: nat) returns (alive: bool)
      requires Valid()
      modifies this, session, socket, session.core.downlink.store, session.core.downlink.queue
      ensures Valid()
      ensures After(session.CoreState(), State(), alive)
           == AfterBatch(g, env, session.core.tenants, old(session.CoreState()), old(State()), batch)
    {
      hide AfterCommand, AfterPopCommand, PackFrame;
      ghost var end := AfterBatch(g, env, session.core.tenants, session.CoreState(), State(), batch);
      for i := 0 to batch
        invariant Valid()
        invariant AfterBatch(g, env, session.core.tenants, session.CoreState(), State(), batch - i) == end
      {
        var msg := session.PopCommand();
        if msg.None? {
          return true;
        }
        var going := Deliver(msg.value);
        if !going {
          return false;
        }
      }
      return true;
    }

    method Loop(batch: nat)
      requires Valid()
      modifies this, session, socket, reader, session.core.downlink.store, session.core.downlink.queue
      ensures Valid()
      ensures Ended(session.CoreState(), State())
           == Served(g, env, session.core.tenants, batch, old(session.CoreState()), old(State()),
                     old(reader.remaining), 0)
    {
      hide AfterPacket, AfterBatch, Ended, Unpacked, PackFrame;
      ghost var end := Served(g, env, session.core.tenants, batch, session.CoreState(), State(), reader.remaining, 0);
      var i := 0;
      while true
        invariant Valid()
        invariant Served(g, env, session.core.tenants, batch, session.CoreState(), State(), reader.remaining, i) == end
        decreases |reader.remaining|
      {
        UnpackConsumes(g, reader.remaining, sessionKey);
        var packet := Unpack(g, reader, sessionKey);
        if packet.Err? {
          return;
        }
        var alive := HandlePacket(packet.value, env.answers(i));
        if alive && session.authenticated {
          alive := DeliverBatch(batch);
        }
        if !alive {
          return;
        }
        i := i + 1;
      }
    }

    /** Serves the device's bytes to their end; the requeue runs however the loop ends. */
    method HandleConnection(batch: nat)
      requires Valid()
      modifies this, session, socket, reader, session.core.downlink.store, session.core.downlink.queue
      ensures Valid()
      ensures (session.CoreState(), State())
           == Served(g, env, session.core.tenants, batch, old(session.CoreState()), old(State()),
                     old(reader.remaining), 0)
    {
      hide Served, AfterRequeueInflight, PackFrame;
      Loop(batch);
      session.RequeueInflight();
    }
  }

  lemma NextNumber(count: nat)
    ensures Wrapped(count + 1) == (Wrapped(count) + 1) % 0x1_0000_0000_0000_0000
  {
  }

  lemma PackFrameIs(g: Gcm, f: Frame)
    ensures PackFrame(g, f) == Packed(g, f.payload, f.cmd, f.keyId, f.key, f.sequence, f.isAck)
  {
    hide Packed;
  }
}
