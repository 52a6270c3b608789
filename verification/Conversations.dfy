/**
 * The conversation a connection may have: which frames answer which packets, under which key, and to
 * whom commands are delivered. It speaks of packets, outside answers and frames alone.
 */
module Conversations {
  import opened Wrappers
  import opened LittleEndian
  import opened GosterWy
  import opened Text
  import opened Codec
  import opened CodecTheorems
  import opened Commands
  import opened DownlinkService
  import opened CoreIngress
  import opened TcpSession
  import opened TcpConnection
  import opened Pipeline
  import opened PipelineInvariant
  import opened PipelineTheorems
  import opened ConnectionRefinement

  // ---------------------------------------------------------------- one packet

  /** The device the connection speaks for after the packet: the one that the core last accepted. */
  function DeviceAfter(packet: Packet, a: Answers, device: Option<string>): Option<string> {
    if (packet.cmdId == AUTH_VERIFY || packet.cmdId == DEVICE_REGISTER) && a.verdict.Accepted? then Some(a.verdict.uuid)
    else device
  }

  /** The key agreed on after the packet: the secret of the last exchange. */
  function KeyAfter(packet: Packet, a: Answers, key: Key): Key {
    if (packet.cmdId == HANDSHAKE_INIT || packet.cmdId == KEY_EXCHANGE_UPLINK) && a.exchange.Some? then
      Some(a.exchange.value.secret)
    else key
  }

  /** The packet is answered; without a device only greetings are. */
  predicate Owed(packet: Packet, a: Answers, device: Option<string>) {
    var cmd := packet.cmdId;
    if cmd == HANDSHAKE_INIT then |packet.payload| == 32 && a.exchange.Some?
    else if cmd == AUTH_VERIFY || cmd == DEVICE_REGISTER then true
    else device.Some? && (IsReport(cmd) || (cmd == KEY_EXCHANGE_UPLINK && a.exchange.Some?))
  }

  /** The server's public key, cut or filled to thirty-two bytes, then its clock. */
  predicate Greets(payload: seq<bv8>, publicKey: seq<bv8>, timestamp: U64) {
    && |payload| == 40
    && (forall b :: 0 <= b < 32 ==> payload[b] == if b < |publicKey| then publicKey[b] else 0)
    && payload[32..] == Put(timestamp, 8)
  }

  /** f is the answer to the packet, under the key agreed on before it. */
  predicate IsAnswer(packet: Packet, a: Answers, key: Key, f: Frame) {
    var cmd := packet.cmdId;
    && f.isAck
    && if cmd == HANDSHAKE_INIT then
         && f.cmd == HANDSHAKE_RESP && f.keyId == 0 && f.key == None
         && a.exchange.Some? && Greets(f.payload, a.exchange.value.publicKey, a.timestamp)
       else
         && f.keyId == 1 && f.key == key
         && if cmd == AUTH_VERIFY then
              f.cmd == AUTH_ACK && f.payload == (if a.verdict.Accepted? then [0] else [1])
            else if cmd == DEVICE_REGISTER then
              && f.cmd == AUTH_ACK
              && f.payload == match a.verdict
                              case Accepted(_, _, credential) => [0] + credential
                              case Declined(pending) => if pending then [2] else [1]
            else if cmd == KEY_EXCHANGE_UPLINK then
              f.cmd == KEY_EXCHANGE_DOWNLINK && a.exchange.Some? && f.payload == a.exchange.value.publicKey
            else f.cmd == cmd && f.payload == []
  }

  /** The connection goes on after a packet that is not answered. */
  predicate Tolerated(packet: Packet, device: Option<string>) {
    var cmd := packet.cmdId;
    device.Some? && cmd != HANDSHAKE_INIT && cmd != KEY_EXCHANGE_UPLINK && cmd != ERROR_REPORT
  }

  /** The first p of the frames answer the packet; there is no answer to an owed one only if it cannot be packed. */
  ghost predicate Answered(g: Gcm, packet: Packet, a: Answers, device: Option<string>, key: Key, frames: seq<Frame>,
                           p: nat)
  {
    if !Owed(packet, a, device) then p == 0
    else if p == 0 then exists f :: IsAnswer(packet, a, key, f) && PackFrame(g, f).Err?
    else p == 1 && |frames| >= 1 && IsAnswer(packet, a, key, frames[0])
  }

  /** After the answer the connection goes on; n frames were written before. */
  predicate GoesOn(env: Env, packet: Packet, a: Answers, device: Option<string>, n: nat, p: nat) {
    if Owed(packet, a, device) then
      && p == 1 && env.accepts(n)
      && (packet.cmdId == AUTH_VERIFY || packet.cmdId == DEVICE_REGISTER ==> a.verdict.Accepted?)
    else Tolerated(packet, device)
  }

  /** The next q frames deliver commands to the device under the key, all but the last of them accepted. */
  ghost predicate Delivered(env: Env, rows: Rows, device: string, key: Key, n: nat, frames: seq<Frame>, p: nat,
                            q: nat)
  {
    && p + q <= |frames|
    && (forall k :: p <= k < p + q ==> DeliveryTo(rows, device, key, frames[k]))
    && (forall k :: n + p <= k < n + p + q - 1 ==> env.accepts(k))
  }

  /** One packet: an answer, then at most a batch of commands for whoever is in. */
  ghost predicate Turn(g: Gcm, env: Env, rows: Rows, batch: nat, packet: Packet, a: Answers, device: Option<string>,
                       key: Key, n: nat, frames: seq<Frame>, p: nat, q: nat)
  {
    && Answered(g, packet, a, device, key, frames, p)
    && q <= batch && p + q <= |frames|
    && if GoesOn(env, packet, a, device, n, p) && DeviceAfter(packet, a, device).Some? then
         Delivered(env, rows, TrimSpace(DeviceAfter(packet, a, device).value), KeyAfter(packet, a, key), n, frames,
                   p, q)
       else q == 0
  }

  /** The connection ends with this packet. */
  predicate Ends(env: Env, packet: Packet, a: Answers, device: Option<string>, n: nat, p: nat, q: nat) {
    !GoesOn(env, packet, a, device, n, p) || (q > 0 && !env.accepts(n + p + q - 1))
  }

  /**
   * The frames are those of a connection that reads the stream, packet by packet, each under the key
   * agreed on before it; packet i is the next one, and n frames were written before.
   */
  ghost predicate Conversation(g: Gcm, env: Env, rows: Rows, batch: nat, device: Option<string>, key: Key,
                               stream: seq<bv8>, i: nat, n: nat, frames: seq<Frame>)
    decreases |stream|
  {
    UnpackConsumes(g, stream, key);
    match Unpacked(g, stream, key)
    case (Err(_), _) => frames == []
    case (Ok(packet), rest) =>
      var a := env.answers(i);
      exists p: nat, q: nat ::
        && Turn(g, env, rows, batch, packet, a, device, key, n, frames, p, q)
        && if Ends(env, packet, a, device, n, p, q) then |frames| == p + q
           else Conversation(g, env, rows, batch, DeviceAfter(packet, a, device), KeyAfter(packet, a, key),
                             rest, i + 1, n + p + q, frames[p + q..])
  }

  // ---------------------------------------------------------------- the connection loop converses

  function DeviceOf(s: Session): Option<string> {
    if s.authenticated then Some(s.uuid) else None
  }

  /** The frames written from the n-th on. */
  function FramesFrom(sent: seq<Sent>, n: nat): (frames: seq<Frame>)
    requires n <= |sent|
    ensures |frames| == |sent| - n
  {
    seq(|sent| - n, k requires 0 <= k < |sent| - n => sent[n + k].frame)
  }

  lemma HandshakeGreets(publicKey: seq<bv8>, timestamp: U64)
    ensures Greets(HandshakePayload(publicKey, timestamp), publicKey, timestamp)
  {
  }

  /** What a packet does to the frames, the key and the device. */
  ghost predicate AsDescribed(g: Gcm, env: Env, packet: Packet, a: Answers, l: Link, l': Link, alive: bool) {
    && l.sent <= l'.sent
    && var device, n, p := DeviceOf(l.session), |l.sent|, |l'.sent| - |l.sent|;
       && Answered(g, packet, a, device, l.key, FramesFrom(l'.sent, n), p)
       && alive == GoesOn(env, packet, a, device, n, p)
       && (alive ==>
             l'.key == KeyAfter(packet, a, l.key) && DeviceOf(l'.session) == DeviceAfter(packet, a, device))
  }

  /** Sending the answer that is owed; `from` has the key and session that go with it. */
  lemma SendDescribed(g: Gcm, env: Env, packet: Packet, a: Answers, l: Link, from: Link, payload: seq<bv8>, cmd: CmdId,
                      keyId: U32, key: Key, l': Link, alive: bool)
    requires Owed(packet, a, DeviceOf(l.session)) && from.sent == l.sent
    requires IsAnswer(packet, a, l.key, FrameFor(from, payload, cmd, keyId, key, true))
    requires l'.sent == AfterSend(g, env, from, payload, cmd, keyId, key, true).0.sent
    requires alive == (&& AfterSend(g, env, from, payload, cmd, keyId, key, true).1
                       && (packet.cmdId == AUTH_VERIFY || packet.cmdId == DEVICE_REGISTER ==> a.verdict.Accepted?))
    requires alive ==> l'.key == KeyAfter(packet, a, l.key)
                       && DeviceOf(l'.session) == DeviceAfter(packet, a, DeviceOf(l.session))
    ensures AsDescribed(g, env, packet, a, l, l', alive)
  {
    hide PackFrame, Owed, IsAnswer, KeyAfter, DeviceAfter, Wrapped;
    var frame := FrameFor(from, payload, cmd, keyId, key, true);
    assert FrameFor(from, payload, cmd, keyId, key, true) == frame;
  }

  lemma HandshakeDescribed(g: Gcm, env: Env, packet: Packet, a: Answers, l: Link)
    requires packet.cmdId == HANDSHAKE_INIT
    ensures var (l', ok) := AfterHandshake(g, env, l, packet.payload, a); AsDescribed(g, env, packet, a, l, l', ok)
  {
    if |packet.payload| == 32 && a.exchange.Some? {
      HandshakeGreets(a.exchange.value.publicKey, a.timestamp);
      var keyed := l.(key := Some(a.exchange.value.secret));
      var payload := HandshakePayload(a.exchange.value.publicKey, a.timestamp);
      SendKeepsLink(g, env, keyed, payload, HANDSHAKE_RESP, 0, None, true);
      var (l', ok) := AfterHandshake(g, env, l, packet.payload, a);
      hide AfterSend, HandshakePayload, Greets, AsDescribed, Wrapped;
      SendDescribed(g, env, packet, a, l, keyed, payload, HANDSHAKE_RESP, 0, None, l', ok);
    }
  }

  lemma SendKeepsLink(g: Gcm, env: Env, l: Link, payload: seq<bv8>, cmd: CmdId, keyId: U32, key: Key, isAck: bool)
    ensures var l' := AfterSend(g, env, l, payload, cmd, keyId, key, isAck).0;
            l'.key == l.key && l'.session == l.session
  {
    hide PackFrame, Wrapped;
  }

  lemma VerdictDescribed(g: Gcm, env: Env, packet: Packet, a: Answers, l: Link, body: seq<bv8>, declined: bv8)
    requires packet.cmdId == AUTH_VERIFY || packet.cmdId == DEVICE_REGISTER
    requires body == if packet.cmdId == DEVICE_REGISTER then Credential(a.verdict) else []
    requires declined == if packet.cmdId == DEVICE_REGISTER then DeclinedStatus(a.verdict) else 1
    ensures var (l', ok) := AfterVerdict(g, env, l, a.verdict, body, declined);
            AsDescribed(g, env, packet, a, l, l', ok)
  {
    var (l', ok) := AfterVerdict(g, env, l, a.verdict, body, declined);
    match a.verdict {
      case Accepted(uuid, tenantId, _) =>
        var bound := l.(session := Bound(l.session, uuid, tenantId));
        SendKeepsLink(g, env, bound, [0] + body, AUTH_ACK, 1, l.key, true);
        hide AfterSend, AsDescribed, Wrapped;
        SendDescribed(g, env, packet, a, l, bound, [0] + body, AUTH_ACK, 1, l.key, l', ok);
      case Declined(_) =>
        hide AfterSend, AsDescribed, Wrapped;
        SendDescribed(g, env, packet, a, l, l, [declined], AUTH_ACK, 1, l.key, l', ok);
    }
  }

  lemma RekeyDescribed(g: Gcm, env: Env, packet: Packet, a: Answers, l: Link)
    requires packet.cmdId == KEY_EXCHANGE_UPLINK && l.session.authenticated
    ensures var (l', ok) := AfterRekey(g, env, l, a); AsDescribed(g, env, packet, a, l, l', ok)
  {
    if a.exchange.Some? {
      var payload := a.exchange.value.publicKey;
      SendKeepsLink(g, env, l, payload, KEY_EXCHANGE_DOWNLINK, 1, l.key, true);
      var (l', ok) := AfterRekey(g, env, l, a);
      hide AfterSend, AsDescribed, Wrapped;
      SendDescribed(g, env, packet, a, l, l, payload, KEY_EXCHANGE_DOWNLINK, 1, l.key, l', ok);
    }
  }

  lemma ReportDescribed(g: Gcm, env: Env, packet: Packet, a: Answers, l: Link)
    requires IsReport(packet.cmdId) && l.session.authenticated
    ensures var (l', ok) := AfterSend(g, env, l, [], packet.cmdId, 1, l.key, true);
            AsDescribed(g, env, packet, a, l, l', ok)
  {
    SendKeepsLink(g, env, l, [], packet.cmdId, 1, l.key, true);
    var (l', ok) := AfterSend(g, env, l, [], packet.cmdId, 1, l.key, true);
    hide AfterSend, AsDescribed, Wrapped;
    SendDescribed(g, env, packet, a, l, l, [], packet.cmdId, 1, l.key, l', ok);
  }

  lemma SilenceDescribed(g: Gcm, env: Env, packet: Packet, a: Answers, l: Link, session: Session)
    requires !Owed(packet, a, DeviceOf(l.session)) && DeviceOf(session) == DeviceOf(l.session)
    ensures AsDescribed(g, env, packet, a, l, l.(session := session), Tolerated(packet, DeviceOf(l.session)))
  {
  }

  lemma AckKeepsDevice(core: Core, s: Session, cmd: CmdId, sequence: nat)
    ensures DeviceOf(AfterAck(core, s, cmd, sequence).1) == DeviceOf(s)
  {
    hide AfterReport, AckRequest, AckMatches;
  }

  lemma PacketDescribed(g: Gcm, env: Env, core: Core, l: Link, packet: Packet, a: Answers)
    ensures var r := AfterPacket(g, env, core, l, packet, a); AsDescribed(g, env, packet, a, l, r.link, r.alive)
  {
    hide AfterSend, AfterHandshake, AfterVerdict, AfterRekey, AfterAck, AsDescribed;
    var cmd := packet.cmdId;
    if !l.session.authenticated && !AllowedEarly(cmd) {
      SilenceDescribed(g, env, packet, a, l, l.session);
    } else if cmd == HANDSHAKE_INIT {
      HandshakeDescribed(g, env, packet, a, l);
    } else if cmd == AUTH_VERIFY {
      VerdictDescribed(g, env, packet, a, l, [], 0x01);
    } else if cmd == DEVICE_REGISTER {
      VerdictDescribed(g, env, packet, a, l, Credential(a.verdict), DeclinedStatus(a.verdict));
    } else if IsReport(cmd) {
      ReportDescribed(g, env, packet, a, l);
    } else if cmd == KEY_EXCHANGE_UPLINK {
      RekeyDescribed(g, env, packet, a, l);
    } else if IsDownlinkCommand(cmd) && packet.isAck {
      AckKeepsDevice(core, l.session, cmd, packet.sequence);
      SilenceDescribed(g, env, packet, a, l, AfterAck(core, l.session, cmd, packet.sequence).1);
    } else {
      SilenceDescribed(g, env, packet, a, l, l.session);
    }
  }

  lemma {:induction false} BatchBound(g: Gcm, env: Env, tenants: Tenants, core: Core, l: Link, n: nat)
    ensures |AfterBatch(g, env, tenants, core, l, n).link.sent| <= |l.sent| + n
    decreases n
  {
    hide AfterPopCommand, AfterCommand, CommandFrame;
    if n > 0 {
      match AfterPopCommand(core, tenants, l.session) {
        case (_, None) =>
        case (core', Some(msg)) =>
          CommandSends(g, env, core', l, msg);
          var r := AfterCommand(g, env, core', l, msg);
          if r.alive {
            BatchBound(g, env, tenants, r.core, r.link, n - 1);
          }
      }
    }
  }

  lemma AnsweredPrefix(g: Gcm, packet: Packet, a: Answers, device: Option<string>, key: Key, frames: seq<Frame>,
                       more: seq<Frame>, p: nat)
    requires Answered(g, packet, a, device, key, frames, p) && frames <= more
    ensures Answered(g, packet, a, device, key, more, p)
  {
    hide Owed, IsAnswer, PackFrame;
  }

  lemma FramesSplit(sent: seq<Sent>, sent': seq<Sent>, n: nat)
    requires sent <= sent' && n <= |sent|
    ensures FramesFrom(sent, n) <= FramesFrom(sent', n)
    ensures FramesFrom(sent', n)[|sent| - n..] == FramesFrom(sent', |sent|)
  {
  }

  lemma BatchDelivered(env: Env, rows: Rows, rows': Rows, device: string, l: Link, r: After, sent: seq<Sent>, n: nat)
    requires Delivers(env, rows, device, l, r) && RowsKept(rows, rows') && r.link.sent <= sent && n <= |l.sent|
    ensures Delivered(env, rows', device, l.key, n, FramesFrom(sent, n), |l.sent| - n, |r.link.sent| - |l.sent|)
    ensures r.alive <==> |r.link.sent| == |l.sent| || env.accepts(|r.link.sent| - 1)
  {
    hide DeliveryTo, RowsKept;
    var frames, p, q := FramesFrom(sent, n), |l.sent| - n, |r.link.sent| - |l.sent|;
    forall k | p <= k < p + q ensures DeliveryTo(rows', device, l.key, frames[k]) {
      assert frames[k] == r.link.sent[n + k].frame;
      DeliveryStays(rows, rows', device, l.key, r.link.sent[n + k].frame);
    }
  }

  /** A round is a turn: the frames that it adds, seen from a table and a wire that only grow. */
  lemma RoundIsTurn(g: Gcm, env: Env, rows: Rows, rows': Rows, batch: nat, packet: Packet, a: Answers, l: Link,
                    answered: After, r: After, sent: seq<Sent>)
    requires AsDescribed(g, env, packet, a, l, answered.link, answered.alive)
    requires if answered.alive && answered.link.session.authenticated then
               && Delivers(env, rows, TrimSpace(answered.link.session.uuid), answered.link, r)
               && |r.link.sent| <= |answered.link.sent| + batch
             else r == answered
    requires RowsKept(rows, rows') && r.link.sent <= sent && answered.link.sent <= r.link.sent
    ensures var device, n := DeviceOf(l.session), |l.sent|;
            var p, q, frames := |answered.link.sent| - n, |r.link.sent| - |answered.link.sent|, FramesFrom(sent, n);
            && Turn(g, env, rows', batch, packet, a, device, l.key, n, frames, p, q)
            && (r.alive <==> !Ends(env, packet, a, device, n, p, q))
            && (r.alive ==>
                  && DeviceOf(r.link.session) == DeviceAfter(packet, a, device)
                  && r.link.key == KeyAfter(packet, a, l.key))
            && frames[p + q..] == FramesFrom(sent, |r.link.sent|)
  {
    hide Owed, IsAnswer, PackFrame, KeyAfter, DeviceAfter, TrimSpace, RowsKept, GoesOn, Answered, Delivered;
    var n, p := |l.sent|, |answered.link.sent| - |l.sent|;
    FramesSplit(answered.link.sent, sent, n);
    FramesSplit(r.link.sent, sent, n);
    AnsweredPrefix(g, packet, a, DeviceOf(l.session), l.key, FramesFrom(answered.link.sent, n), FramesFrom(sent, n), p);
    if answered.alive && answered.link.session.authenticated {
      BatchDelivered(env, rows, rows', TrimSpace(answered.link.session.uuid), answered.link, r, sent, n);
    }
    hide FramesFrom;
  }

  /**
   * Serving any stream is a conversation: handshakes are answered with the server's own public key and
   * clock in the clear, everything else goes out under the secret agreed on by then, which the next
   * packet is read with; a key exchange is still answered under the key before it; and commands, with
   * the code and payload of their rows, go to the device that the core accepted last and to no other.
   */
  lemma {:induction false} ServedConverses(g: Gcm, env: Env, tenants: Tenants, batch: nat, w: World, c: ConnId,
                                           core: Core, l: Link, stream: seq<bv8>, i: nat)
    requires Inv(w) && Matches(w, c, core, l)
    requires Served(g, env, tenants, batch, core, l, stream, i).1.count + 1 < COUNT_LIMIT
    ensures var (core', l') := Served(g, env, tenants, batch, core, l, stream, i);
            && l.sent <= l'.sent && RowsKept(core.table.rows, core'.table.rows)
            && Conversation(g, env, core'.table.rows, batch, DeviceOf(l.session), l.key, stream, i, |l.sent|,
                            FramesFrom(l'.sent, |l.sent|))
    decreases |stream|
  {
    hide AfterPacket, AfterBatch, Unpacked, Run, IsRun, Over, AfterRequeueInflight, Inv, Told, Delivers, RowsKept,
         AsDescribed, Turn, Ends, DeviceAfter, KeyAfter, DeviceOf, TrimSpace;
    UnpackConsumes(g, stream, l.key);
    var (core', l') := Served(g, env, tenants, batch, core, l, stream, i);
    match Unpacked(g, stream, l.key) {
      case (Err(_), _) =>
        var steps := Finish(w, c, core, l, false);
        EndKeepsRows(w, c, core, l, steps);
      case (Ok(packet), rest) =>
        var a := env.answers(i);
        var answered := AfterPacket(g, env, core, l, packet, a);
        var r := AfterRound(g, env, tenants, batch, core, l, packet, i);
        PacketDescribed(g, env, core, l, packet, a);
        if r.alive {
          ServedCounts(g, env, tenants, batch, r.core, r.link, rest, i + 1);
        }
        var w2 := RoundWorld(g, env, tenants, batch, w, c, core, l, packet, i);
        if r.alive {
          ServedConverses(g, env, tenants, batch, w2, c, r.core, r.link, rest, i + 1);
        } else {
          RowsAreKept(core'.table.rows);
        }
        SentGrows(g, env, packet, a, l, answered);
        RowsKeptTwice(core.table.rows, w2.core.table.rows, core'.table.rows);
        RoundIsTurn(g, env, w2.core.table.rows, core'.table.rows, batch, packet, a, l, answered, r, l'.sent);
        var p, q := |answered.link.sent| - |l.sent|, |r.link.sent| - |answered.link.sent|;
        assert Turn(g, env, core'.table.rows, batch, packet, a, DeviceOf(l.session), l.key, |l.sent|,
                    FramesFrom(l'.sent, |l.sent|), p, q);
    }
  }

  lemma SentGrows(g: Gcm, env: Env, packet: Packet, a: Answers, l: Link, answered: After)
    requires AsDescribed(g, env, packet, a, l, answered.link, answered.alive)
    ensures l.sent <= answered.link.sent
  {
    hide Answered, GoesOn;
  }

  lemma RowsAreKept(rows: Rows)
    ensures RowsKept(rows, rows)
  {
  }

  lemma RowsKeptTwice(rows: Rows, rows': Rows, rows'': Rows)
    requires RowsKept(rows, rows') && RowsKept(rows', rows'')
    ensures RowsKept(rows, rows'')
  {
  }

  lemma EndKeepsRows(w: World, c: ConnId, core: Core, l: Link, steps: seq<Step>)
    requires Inv(w) && w.core == core && IsRun(w, steps) && Over(Run(w, steps), c, core, l)
    ensures RowsKept(core.table.rows, Ended(core, l).0.table.rows)
  {
    hide Inv, Run, IsRun, AfterRequeueInflight;
    RowsKeptByRun(w, steps);
  }

  /** The world after a round, or after the connection ended with it. */
  lemma RoundWorld(g: Gcm, env: Env, tenants: Tenants, batch: nat, w: World, c: ConnId, core: Core, l: Link,
                   packet: Packet, i: nat)
    returns (w2: World)
    requires Inv(w) && Matches(w, c, core, l)
    requires AfterRound(g, env, tenants, batch, core, l, packet, i).link.count + 1 < COUNT_LIMIT
    ensures var answered := AfterPacket(g, env, core, l, packet, env.answers(i));
            var r := AfterRound(g, env, tenants, batch, core, l, packet, i);
            && Inv(w2) && RowsKept(core.table.rows, w2.core.table.rows) && answered.link.sent <= r.link.sent
            && (if r.alive then Matches(w2, c, r.core, r.link) else w2.core == Ended(r.core, r.link).0)
            && (if answered.alive && answered.link.session.authenticated then
                  && Delivers(env, w2.core.table.rows, TrimSpace(answered.link.session.uuid), answered.link, r)
                  && |r.link.sent| <= |answered.link.sent| + batch
                else r == answered)
  {
    hide AfterPacket, AfterBatch, Run, IsRun, Inv, Told, Delivers, RowsKept, TrimSpace;
    var steps := PacketTells(g, env, w, c, core, l, packet, env.answers(i));
    RowsKeptByRun(w, steps);
    w2 := Run(w, steps);
    var r := AfterPacket(g, env, core, l, packet, env.answers(i));
    if r.alive && r.link.session.authenticated {
      var delivering := BatchRefines(g, env, tenants, w2, c, r.core, r.link, batch);
      BatchBound(g, env, tenants, r.core, r.link, batch);
      RowsKeptByRun(w2, delivering);
      RowsKeptTwice(core.table.rows, w2.core.table.rows, Run(w2, delivering).core.table.rows);
      DeliversGrow(env, Run(w2, delivering).core.table.rows, TrimSpace(r.link.session.uuid), r.link,
                   AfterBatch(g, env, tenants, r.core, r.link, batch));
      w2 := Run(w2, delivering);
    }
  }

  lemma DeliversGrow(env: Env, rows: Rows, device: string, l: Link, r: After)
    requires Delivers(env, rows, device, l, r)
    ensures l.sent <= r.link.sent
  {
    hide DeliveryTo;
  }

  // ---------------------------------------------------------------- main results

  /**
   * A new connection, opened in any reachable state, serves whatever the device sends by a conversation.
   * Each command frame carries a command that it popped, with the code and payload of its row, and the
   * log says that it was written, with the frame's number, or came back, as the socket decided; and
   * each write that is logged is such a frame.
   */
  lemma DeviceIsServed(capacity: int, before: seq<Step>, c: ConnId, g: Gcm, env: Env, tenants: Tenants, batch: nat,
                       stream: seq<bv8>)
    returns (steps: seq<Step>)
    requires IsRun(InitialWorld(capacity), before) && c !in Run(InitialWorld(capacity), before).conns
    requires Served(g, env, tenants, batch, Run(InitialWorld(capacity), before).core, NEW_LINK, stream, 0).1.count + 1
             < COUNT_LIMIT
    ensures var w := Next(Run(InitialWorld(capacity), before), Connect(c));
            var (core', l) := Served(g, env, tenants, batch, w.core, NEW_LINK, stream, 0);
            && RunOf(w, c, steps)
            && var w' := Run(w, steps);
               && w'.core == core'
               && Conversation(g, env, core'.table.rows, batch, None, None, stream, 0, 0, FramesFrom(l.sent, 0))
               && (forall k :: 0 <= k < |l.sent| && IsDelivery(l.sent[k].frame) ==>
                     exists id :: FrameOf(env, w', c, l.sent, k, id))
               && (forall j :: |w.log| <= j < |w'.log| ==> WriteOf(env, w', c, l.sent, w'.log[j]))
  {
    var w0 := Run(InitialWorld(capacity), before);
    ReachableInv(capacity, before);
    hide Inv, Run, IsRun, Served, Conversation, FrameOf, WriteOf, RowsKept, InitialWorld;
    NewConnection(w0, c);
    hide Next, Enabled, Matches, RunOf;
    var w := Next(w0, Connect(c));
    steps := ServedRefines(g, env, tenants, batch, w, c, w.core, NEW_LINK, stream, 0);
    ServedConverses(g, env, tenants, batch, w, c, w.core, NEW_LINK, stream, 0);
  }

  lemma NewConnection(w: World, c: ConnId)
    requires Inv(w) && c !in w.conns
    ensures Enabled(w, Connect(c))
    ensures var w' := Next(w, Connect(c)); Inv(w') && w'.core == w.core && Matches(w', c, w.core, NEW_LINK)
  {
    StepKeepsInv(w, Connect(c));
    hide Inv;
  }

  /** The device that has the key reads from such a frame what the row asks for. */
  lemma DeviceReads(g: Gcm, env: Env, w: World, c: ConnId, sent: seq<Sent>, k: nat, id: int, rest: seq<bv8>)
    requires Lawful(g) && FrameOf(env, w, c, sent, k, id) && PackFrame(g, sent[k].frame).Ok?
    ensures var (packet, left) := Unpacked(g, PackFrame(g, sent[k].frame).value + rest, sent[k].frame.key);
            && left == rest && packet.Ok?
            && packet.value.cmdId == w.core.table.rows[id].cmdId
            && packet.value.payload == w.core.table.rows[id].payload
            && packet.value.sequence == sent[k].frame.sequence && packet.value.isAck == sent[k].frame.isAck
  {
    hide Lawful, PackFrame, Unpacked, Encrypts;
    RoundTrip(g, sent[k].frame, rest, sent[k].frame.key);
  }
}
