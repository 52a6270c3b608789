/** What every connection puts on the wire, whatever the device, the core and the socket do. */
module TcpConnectionTheorems {
  import opened Wrappers
  import opened LittleEndian
  import opened GosterWy
  import opened Codec
  import opened CodecTheorems
  import opened Commands
  import opened DownlinkService
  import opened CoreIngress
  import opened TcpSession
  import opened TcpConnection

  // ---------------------------------------------------------------- what holds of the wire

  /** Frame k carries its own number and speaks for the server. */
  predicate SentOk(l: Link, k: nat)
    requires k < |l.sent|
  {
    var s := l.sent[k];
    && 1 <= s.count <= l.count
    && s.frame.sequence == Wrapped(s.count)
    && NonceDirection(s.frame.cmd, s.frame.isAck) == FROM_SERVER
  }

  predicate CountsIncrease(sent: seq<Sent>) {
    forall i, j :: 0 <= i < j < |sent| ==> sent[i].count < sent[j].count
  }

  predicate IsGreeting(f: Frame) {
    f.cmd == HANDSHAKE_RESP || f.cmd == AUTH_ACK
  }

  /** The ack that tells the device it is in. */
  predicate IsAdmission(f: Frame) {
    f.cmd == AUTH_ACK && f.payload != [] && f.payload[0] == 0
  }

  predicate Admitted(sent: seq<Sent>, n: nat) {
    exists i :: 0 <= i < n && i < |sent| && IsAdmission(sent[i].frame)
  }

  /** Nothing but greetings before the device was told that it is in. */
  predicate Gated(sent: seq<Sent>) {
    forall j :: 0 <= j < |sent| && !IsGreeting(sent[j].frame) ==> Admitted(sent, j)
  }

  predicate Shaken(sent: seq<Sent>, n: nat) {
    exists i :: 0 <= i < n && i < |sent| && sent[i].frame.cmd == HANDSHAKE_RESP
  }

  /** After a handshake everything but another handshake goes out under a key. */
  predicate Veiled(sent: seq<Sent>) {
    forall j :: 0 <= j < |sent| && sent[j].frame.cmd != HANDSHAKE_RESP && Shaken(sent, j) ==>
      sent[j].frame.key.Some? && sent[j].frame.keyId != 0
  }

  predicate WireOk(l: Link) {
    && (forall k :: 0 <= k < |l.sent| ==> SentOk(l, k))
    && CountsIncrease(l.sent)
    && Gated(l.sent)
    && Veiled(l.sent)
  }

  /** Between packets: who is in was told so, and who shook hands has a key. */
  predicate LinkOk(l: Link) {
    && WireOk(l)
    && (l.session.authenticated ==> Admitted(l.sent, |l.sent|))
    && (Shaken(l.sent, |l.sent|) ==> l.key.Some?)
  }

  lemma SendKeepsWire(g: Gcm, env: Env, l: Link, payload: seq<bv8>, cmd: CmdId, keyId: U32, key: Key, isAck: bool)
    requires WireOk(l) && NonceDirection(cmd, isAck) == FROM_SERVER
    requires cmd == HANDSHAKE_RESP || cmd == AUTH_ACK || Admitted(l.sent, |l.sent|)
    requires cmd == HANDSHAKE_RESP || !Shaken(l.sent, |l.sent|) || (key.Some? && keyId != 0)
    ensures var (l', ok) := AfterSend(g, env, l, payload, cmd, keyId, key, isAck);
            && WireOk(l')
            && l'.session == l.session && l'.key == l.key
            && (ok ==> l'.sent == l.sent + [Sent(l.count + 1, FrameFor(l, payload, cmd, keyId, key, isAck))])
            && (|| l'.sent == l.sent
                || l'.sent == l.sent + [Sent(l.count + 1, FrameFor(l, payload, cmd, keyId, key, isAck))])
  {
    hide Wrapped, PackFrame;
    var l' := AfterSend(g, env, l, payload, cmd, keyId, key, isAck).0;
    forall k | 0 <= k < |l'.sent| ensures SentOk(l', k) {
      if k < |l.sent| {
        assert SentOk(l, k);
      }
    }
    hide NonceDirection;
    assert CountsIncrease(l'.sent) by {
      forall k | 0 <= k < |l.sent| ensures l.sent[k].count <= l.count {
        assert SentOk(l, k);
      }
    }
    GreetingsGrow(l, l');
  }

  /** One more frame, allowed where it stands. */
  lemma GreetingsGrow(l: Link, l': Link)
    requires Gated(l.sent) && Veiled(l.sent)
    requires l'.sent == l.sent || (|l'.sent| == |l.sent| + 1 && l'.sent[..|l.sent|] == l.sent)
    requires l'.sent != l.sent ==>
               var f := l'.sent[|l.sent|].frame;
               && (f.cmd == HANDSHAKE_RESP || f.cmd == AUTH_ACK || Admitted(l.sent, |l.sent|))
               && (f.cmd == HANDSHAKE_RESP || !Shaken(l.sent, |l.sent|) || (f.key.Some? && f.keyId != 0))
    ensures Gated(l'.sent) && Veiled(l'.sent)
  {
    if l'.sent != l.sent {
      assert forall i :: 0 <= i < |l.sent| ==> l'.sent[i] == l.sent[i];
      forall j | 0 <= j < |l'.sent| && !IsGreeting(l'.sent[j].frame) ensures Admitted(l'.sent, j) {
        assert Admitted(l.sent, j);
        var i :| 0 <= i < j && i < |l.sent| && IsAdmission(l.sent[i].frame);
        assert IsAdmission(l'.sent[i].frame);
      }
      forall j | 0 <= j < |l'.sent| && l'.sent[j].frame.cmd != HANDSHAKE_RESP && Shaken(l'.sent, j)
        ensures l'.sent[j].frame.key.Some? && l'.sent[j].frame.keyId != 0
      {
        var i :| 0 <= i < j && i < |l'.sent| && l'.sent[i].frame.cmd == HANDSHAKE_RESP;
        assert l.sent[i].frame.cmd == HANDSHAKE_RESP;
        assert Shaken(l.sent, j);
      }
    }
  }

  // ---------------------------------------------------------------- each kind of answer

  /** The outcome of an answer: the wire is right, and if the loop goes on so is the connection. */
  predicate Fine(l: Link, ok: bool) {
    WireOk(l) && (ok ==> LinkOk(l))
  }

  lemma AdmittedGrows(sent: seq<Sent>, s: Sent)
    ensures Admitted(sent, |sent|) || IsAdmission(s.frame) ==> Admitted(sent + [s], |sent| + 1)
    ensures Shaken(sent + [s], |sent| + 1) <==> Shaken(sent, |sent|) || s.frame.cmd == HANDSHAKE_RESP
  {
    var more := sent + [s];
    if Admitted(sent, |sent|) {
      var i :| 0 <= i < |sent| && IsAdmission(sent[i].frame);
      assert IsAdmission(more[i].frame);
    }
    if IsAdmission(s.frame) {
      assert IsAdmission(more[|sent|].frame);
    }
    if Shaken(sent, |sent|) {
      var i :| 0 <= i < |sent| && sent[i].frame.cmd == HANDSHAKE_RESP;
      assert more[i].frame.cmd == HANDSHAKE_RESP;
    }
    if s.frame.cmd == HANDSHAKE_RESP {
      assert more[|sent|].frame.cmd == HANDSHAKE_RESP;
    }
  }

  /** Any answer under the current key, of a kind that is allowed now. */
  lemma AnswerKeepsLink(g: Gcm, env: Env, l: Link, payload: seq<bv8>, cmd: CmdId, isAck: bool)
    requires LinkOk(l) && NonceDirection(cmd, isAck) == FROM_SERVER && cmd != HANDSHAKE_RESP
    requires cmd == AUTH_ACK || l.session.authenticated
    ensures var (l', ok) := AfterSend(g, env, l, payload, cmd, 1, l.key, isAck);
            LinkOk(l') && l'.session == l.session && l'.key == l.key
  {
    hide WireOk, Admitted, Shaken, AfterSend, NonceDirection;
    SendKeepsWire(g, env, l, payload, cmd, 1, l.key, isAck);
    AdmittedGrows(l.sent, Sent(l.count + 1, FrameFor(l, payload, cmd, 1, l.key, isAck)));
  }

  lemma SameWire(l: Link, l': Link)
    requires WireOk(l) && l'.sent == l.sent && l'.count == l.count
    ensures WireOk(l')
  {
    hide Gated, Veiled, CountsIncrease;
    assert forall k :: 0 <= k < |l.sent| ==> SentOk(l, k) ==> SentOk(l', k);
  }

  lemma HandshakeKeepsLink(g: Gcm, env: Env, l: Link, payload: seq<bv8>, a: Answers)
    requires LinkOk(l)
    ensures var (l', ok) := AfterHandshake(g, env, l, payload, a); Fine(l', ok)
  {
    hide WireOk, Admitted, Shaken, AfterSend, HandshakePayload, Wrapped;
    if |payload| == 32 && a.exchange.Some? {
      var keyed := l.(key := Some(a.exchange.value.secret));
      var response := HandshakePayload(a.exchange.value.publicKey, a.timestamp);
      SameWire(l, keyed);
      SendKeepsWire(g, env, keyed, response, HANDSHAKE_RESP, 0, None, true);
      AdmittedGrows(l.sent, Sent(l.count + 1, FrameFor(keyed, response, HANDSHAKE_RESP, 0, None, true)));
    }
  }

  lemma VerdictKeepsLink(g: Gcm, env: Env, l: Link, v: Verdict, body: seq<bv8>, declined: bv8)
    requires LinkOk(l)
    ensures var (l', ok) := AfterVerdict(g, env, l, v, body, declined); Fine(l', ok)
  {
    hide WireOk, Admitted, Shaken, AfterSend, Wrapped;
    match v {
      case Declined(_) =>
        AnswerKeepsLink(g, env, l, [declined], AUTH_ACK, true);
      case Accepted(uuid, tenantId, _) =>
        var bound := l.(session := Bound(l.session, uuid, tenantId));
        SameWire(l, bound);
        var answer := [0] + body;
        SendKeepsWire(g, env, bound, answer, AUTH_ACK, 1, l.key, true);
        AdmittedGrows(l.sent, Sent(l.count + 1, FrameFor(bound, answer, AUTH_ACK, 1, l.key, true)));
    }
  }

  lemma RekeyKeepsLink(g: Gcm, env: Env, l: Link, a: Answers)
    requires LinkOk(l) && l.session.authenticated
    ensures var (l', ok) := AfterRekey(g, env, l, a); Fine(l', ok)
  {
    if a.exchange.Some? {
      AnswerKeepsLink(g, env, l, a.exchange.value.publicKey, KEY_EXCHANGE_DOWNLINK, true);
      var (l', ok) := AfterSend(g, env, l, a.exchange.value.publicKey, KEY_EXCHANGE_DOWNLINK, 1, l.key, true);
      hide AfterSend, WireOk, Admitted, Shaken;
      SameWire(l', l'.(key := Some(a.exchange.value.secret)));
    }
  }

  /** A change of the session that keeps its authentication changes nothing on the wire. */
  lemma SessionChange(l: Link, session: Session)
    requires LinkOk(l) && (session.authenticated ==> l.session.authenticated)
    ensures LinkOk(l.(session := session))
  {
    hide WireOk, Admitted, Shaken;
    SameWire(l, l.(session := session));
  }

  lemma PacketKeepsLink(g: Gcm, env: Env, core: Core, l: Link, packet: Packet, a: Answers)
    requires LinkOk(l)
    ensures var r := AfterPacket(g, env, core, l, packet, a); Fine(r.link, r.alive)
  {
    hide LinkOk, WireOk, AfterSend, AfterHandshake, AfterVerdict, AfterRekey, AfterReport;
    WireOfLink(l);
    var cmd := packet.cmdId;
    if !l.session.authenticated && !AllowedEarly(cmd) {
    } else if cmd == HANDSHAKE_INIT {
      HandshakeKeepsLink(g, env, l, packet.payload, a);
    } else if cmd == AUTH_VERIFY {
      VerdictKeepsLink(g, env, l, a.verdict, [], 0x01);
    } else if cmd == DEVICE_REGISTER {
      VerdictKeepsLink(g, env, l, a.verdict, Credential(a.verdict), DeclinedStatus(a.verdict));
    } else if IsReport(cmd) {
      AnswerKeepsLink(g, env, l, [], cmd, true);
      WireOfLink(AfterSend(g, env, l, [], cmd, 1, l.key, true).0);
    } else if cmd == KEY_EXCHANGE_UPLINK {
      RekeyKeepsLink(g, env, l, a);
    } else if IsDownlinkCommand(cmd) && packet.isAck {
      var session := AfterAck(core, l.session, cmd, packet.sequence).1;
      SessionChange(l, session);
      WireOfLink(l.(session := session));
    }
  }

  lemma WireOfLink(l: Link)
    requires LinkOk(l)
    ensures WireOk(l)
  {
    hide WireOk;
  }

  /** Reporting on a command touches the session's in-flight slot only. */
  lemma ReportKeepsSession(core: Core, s: Session, msg: AdapterCommand, cmd: CmdId, sequence: nat, text: string)
    ensures AfterFail(core, s, msg, text).1.authenticated == s.authenticated
    ensures AfterRequeueDownlink(core, s, msg, text).1.authenticated == s.authenticated
    ensures AfterSent(core, s, msg, cmd, sequence).1.authenticated == s.authenticated
  {
    hide AfterReport, FailRequest, RequeueRequest, SentRequest;
  }

  lemma CommandKeepsLink(g: Gcm, env: Env, core: Core, l: Link, msg: AdapterCommand)
    requires LinkOk(l) && l.session.authenticated
    ensures var r := AfterCommand(g, env, core, l, msg); LinkOk(r.link) && r.link.session.authenticated
  {
    hide LinkOk, AfterSend, PackFrame, ResolveDownlinkCmd, AfterFail, AfterRequeueDownlink, AfterSent, Wrapped,
         IsDownlinkCommand;
    match ResolveDownlinkCmd(msg) {
      case None =>
        ReportKeepsSession(core, l.session, msg, 0, 0, env.unmapped);
        SessionChange(l, AfterFail(core, l.session, msg, env.unmapped).1);
      case Some(cmd) =>
        DownlinkSpeaksForServer(msg);
        AnswerKeepsLink(g, env, l, msg.payload, cmd, false);
        var l' := AfterSend(g, env, l, msg.payload, cmd, 1, l.key, false).0;
        ReportKeepsSession(core, l.session, msg, cmd, Wrapped(l'.count), env.unpackable);
        ReportKeepsSession(core, l.session, msg, cmd, 0, env.broken);
        SessionChange(l', AfterCommand(g, env, core, l, msg).link.session);
    }
  }

  lemma DownlinkSpeaksForServer(msg: AdapterCommand)
    ensures ResolveDownlinkCmd(msg).Some? ==>
              NonceDirection(ResolveDownlinkCmd(msg).value, false) == FROM_SERVER
              && ResolveDownlinkCmd(msg).value != HANDSHAKE_RESP
  {
    ResolvedIsDownlink(msg);
    hide ResolveDownlinkCmd;
  }

  lemma ResolvedIsDownlink(msg: AdapterCommand)
    ensures ResolveDownlinkCmd(msg).Some? ==> IsDownlinkCommand(ResolveDownlinkCmd(msg).value)
  {
  }

  lemma {:induction false} BatchKeepsLink(g: Gcm, env: Env, tenants: Tenants, core: Core, l: Link, n: nat)
    requires LinkOk(l) && l.session.authenticated
    ensures LinkOk(AfterBatch(g, env, tenants, core, l, n).link)
    decreases n
  {
    hide LinkOk, AfterCommand, AfterPopCommand;
    if n > 0 {
      match AfterPopCommand(core, tenants, l.session) {
        case (_, None) =>
        case (core', Some(msg)) =>
          CommandKeepsLink(g, env, core', l, msg);
          var r := AfterCommand(g, env, core', l, msg);
          if r.alive {
            BatchKeepsLink(g, env, tenants, r.core, r.link, n - 1);
          }
      }
    }
  }

  lemma {:induction false} ServedKeepsWire(g: Gcm, env: Env, tenants: Tenants, batch: nat, core: Core, l: Link,
                                           stream: seq<bv8>, i: nat)
    requires LinkOk(l)
    ensures WireOk(Served(g, env, tenants, batch, core, l, stream, i).1)
    decreases |stream|
  {
    hide LinkOk, WireOk, Unpacked, AfterPacket, AfterBatch, AfterRequeueInflight;
    UnpackConsumes(g, stream, l.key);
    WireOfLink(l);
    match Unpacked(g, stream, l.key) {
      case (Err(_), _) =>
        EndKeepsWire(core, l);
      case (Ok(packet), rest) =>
        PacketKeepsLink(g, env, core, l, packet, env.answers(i));
        var p := AfterPacket(g, env, core, l, packet, env.answers(i));
        if p.alive && p.link.session.authenticated {
          BatchKeepsLink(g, env, tenants, p.core, p.link, batch);
          WireOfLink(AfterBatch(g, env, tenants, p.core, p.link, batch).link);
        }
        var r := AfterRound(g, env, tenants, batch, core, l, packet, i);
        assert WireOk(r.link);
        if r.alive {
          ServedKeepsWire(g, env, tenants, batch, r.core, r.link, rest, i + 1);
        } else {
          EndKeepsWire(r.core, r.link);
        }
    }
  }

  lemma EndKeepsWire(core: Core, l: Link)
    requires WireOk(l)
    ensures WireOk(Ended(core, l).1)
  {
    hide WireOk, AfterRequeueInflight;
    SameWire(l, Ended(core, l).1);
  }

  // ---------------------------------------------------------------- main results

  function NonceOf(f: Frame): seq<bv8> {
    Nonce(NonceDirection(f.cmd, f.isAck), f.sequence)
  }

  /** No device forms this nonce for any of its own frames. */
  ghost predicate NotFromDevice(nonce: seq<bv8>) {
    forall f: Frame :: NonceDirection(f.cmd, f.isAck) == FROM_DEVICE ==> NonceOf(f) != nonce
  }

  lemma NonceParts(d: bv8, s: U64, d': bv8, s': U64)
    ensures Nonce(d, s) == Nonce(d', s') <==> d == d' && s == s'
  {
    PowValues();
    if Nonce(d, s) == Nonce(d', s') {
      assert Nonce(d, s)[0] == d && Nonce(d', s')[0] == d';
      assert Nonce(d, s)[4..] == Put(s, 8) && Nonce(d', s')[4..] == Put(s', 8);
      PutInjective(s, s', 8);
    }
  }

  /**
   * Nonces: over any connection, with any rekeys, failed packs and acks, two frames share a nonce
   * exactly if a multiple of 2^64 numbers was used between them; in particular none do in the first
   * 2^64, where their sequences even increase. No frame has a nonce that a device forms.
   */
  lemma NoncesNeverRepeat(g: Gcm, env: Env, tenants: Tenants, batch: nat, core: Core, stream: seq<bv8>, i: nat, j: nat)
    requires i < j < |Served(g, env, tenants, batch, core, NEW_LINK, stream, 0).1.sent|
    ensures var l := Served(g, env, tenants, batch, core, NEW_LINK, stream, 0).1;
            var a, b := l.sent[i], l.sent[j];
            && (NonceOf(a.frame) == NonceOf(b.frame) <==> (b.count - a.count) % 0x1_0000_0000_0000_0000 == 0)
            && (l.count <= 0x1_0000_0000_0000_0000 ==> NonceOf(a.frame) != NonceOf(b.frame))
            && (l.count < 0x1_0000_0000_0000_0000 ==> a.frame.sequence < b.frame.sequence)
            && NotFromDevice(NonceOf(a.frame))
  {
    hide Served, Gated, Veiled, NonceOf, NotFromDevice, Wrapped, NonceDirection;
    var l := Served(g, env, tenants, batch, core, NEW_LINK, stream, 0).1;
    NewLinkOk();
    ServedKeepsWire(g, env, tenants, batch, core, NEW_LINK, stream, 0);
    assert SentOk(l, i) && SentOk(l, j);
    TwoNonces(l.sent[i], l.sent[j]);
  }

  lemma NewLinkOk()
    ensures LinkOk(NEW_LINK)
  {
  }

  predicate OwnNumber(s: Sent) {
    s.frame.sequence == Wrapped(s.count) && NonceDirection(s.frame.cmd, s.frame.isAck) == FROM_SERVER
  }

  lemma TwoNonces(a: Sent, b: Sent)
    requires 1 <= a.count < b.count && OwnNumber(a) && OwnNumber(b)
    ensures NonceOf(a.frame) == NonceOf(b.frame) <==> (b.count - a.count) % 0x1_0000_0000_0000_0000 == 0
    ensures b.count <= 0x1_0000_0000_0000_0000 ==> NonceOf(a.frame) != NonceOf(b.frame)
    ensures b.count < 0x1_0000_0000_0000_0000 ==> a.frame.sequence < b.frame.sequence
    ensures NotFromDevice(NonceOf(a.frame))
  {
    hide NonceDirection, Nonce;
    NonceParts(FROM_SERVER, a.frame.sequence, FROM_SERVER, b.frame.sequence);
    SameRemainder(a.count, b.count);
    forall f: Frame | NonceDirection(f.cmd, f.isAck) == FROM_DEVICE ensures NonceOf(f) != NonceOf(a.frame) {
      NonceParts(FROM_DEVICE, f.sequence, FROM_SERVER, a.frame.sequence);
    }
  }

  lemma SameRemainder(a: nat, b: nat)
    requires a < b
    ensures Wrapped(a) == Wrapped(b) <==> (b - a) % 0x1_0000_0000_0000_0000 == 0
  {
  }

  /** The gate: whatever it serves, nothing but greetings goes out before the device was told that it is in. */
  lemma GateHolds(g: Gcm, env: Env, tenants: Tenants, batch: nat, core: Core, stream: seq<bv8>)
    ensures Gated(Served(g, env, tenants, batch, core, NEW_LINK, stream, 0).1.sent)
    ensures Veiled(Served(g, env, tenants, batch, core, NEW_LINK, stream, 0).1.sent)
  {
    hide Served, Gated, Veiled, CountsIncrease, SentOk;
    NewLinkOk();
    ServedKeepsWire(g, env, tenants, batch, core, NEW_LINK, stream, 0);
  }
}
