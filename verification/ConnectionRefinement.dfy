/** The connection loop takes only steps of the pipeline, so all that holds of every run holds of it. */
module ConnectionRefinement {
  import opened Wrappers
  import opened GosterWy
  import opened Codec
  import opened CodecTheorems
  import opened Text
  import opened Commands
  import CommandStore
  import opened DownlinkService
  import opened CoreIngress
  import opened TcpSession
  import opened RequeueIdentity
  import opened TcpConnection
  import opened Pipeline
  import opened PipelineInvariant
  import opened PipelineTheorems

  type Rows = map<int, CommandStore.CommandRow>

  const COUNT_LIMIT: nat := 0x1_0000_0000_0000_0000

  /** In w, connection c is open, between commands, and as l says. */
  predicate Matches(w: World, c: ConnId, core: Core, l: Link) {
    w.core == core && c in w.conns && w.conns[c] == Conn(l.session, None, l.count, true)
  }

  predicate Handed(w: World, c: ConnId, core: Core, l: Link, msg: AdapterCommand) {
    w.core == core && c in w.conns && w.conns[c] == Conn(l.session, Some(msg), l.count, true)
  }

  /** In w, connection c has ended, after what remained in flight went back. */
  predicate Over(w: World, c: ConnId, core: Core, l: Link) {
    var (core', l') := Ended(core, l);
    w.core == core' && c in w.conns && w.conns[c] == Conn(l'.session, None, l'.count, false)
  }

  predicate Reaches(w: World, c: ConnId, r: After) {
    if r.alive then Matches(w, c, r.core, r.link) else Over(w, c, r.core, r.link)
  }

  /** A step of c's own loop. */
  predicate StepOf(step: Step, c: ConnId) {
    !step.Enqueue? && !step.Connect? && step.c == c
  }

  predicate RunOf(w: World, c: ConnId, steps: seq<Step>) {
    IsRun(w, steps) && forall i :: 0 <= i < |steps| ==> StepOf(steps[i], c)
  }

  lemma Then(w: World, c: ConnId, a: seq<Step>, b: seq<Step>)
    requires RunOf(w, c, a) && RunOf(Run(w, a), c, b)
    ensures RunOf(w, c, a + b) && Run(w, a + b) == Run(Run(w, a), b)
  {
    hide Run, IsRun;
    RunAppend(w, a, b);
  }

  lemma One(w: World, c: ConnId, step: Step)
    requires Enabled(w, step) && StepOf(step, c)
    ensures RunOf(w, c, [step]) && Run(w, [step]) == Next(w, step)
  {
    hide Next, Enabled;
    assert IsRun(Next(w, step), [step][1..]);
  }

  // ---------------------------------------------------------------- what the device is told

  /** What a row asks for is still there. */
  predicate RowsKept(rows: Rows, rows': Rows) {
    forall id :: id in rows ==>
      && id in rows' && rows'[id].uuid == rows[id].uuid
      && rows'[id].cmdId == rows[id].cmdId && rows'[id].payload == rows[id].payload
  }

  /** The frame carries command id, as its row asks for it. */
  predicate Carries(rows: Rows, id: int, f: Frame) {
    id in rows && f.cmd == rows[id].cmdId && f.payload == rows[id].payload
  }

  predicate IsDelivery(f: Frame) {
    IsDownlinkCommand(f.cmd) && !f.isAck
  }

  /** Frame k carries a command that c popped, and that was marked written or came back as the socket said. */
  predicate FrameOf(env: Env, w: World, c: ConnId, sent: seq<Sent>, k: nat, id: int) {
    && k < |sent| && Carries(w.core.table.rows, id, sent[k].frame) && Popped(c, id) in w.log
    && if env.accepts(k) then Wrote(c, id, w.core.table.rows[id].uuid, sent[k].frame.sequence) in w.log
       else Returned(c, id) in w.log
  }

  /** The write that e logs put its command on the wire, under the number that e gives. */
  predicate WriteOf(env: Env, w: World, c: ConnId, sent: seq<Sent>, e: Event) {
    e.Wrote? && e.conn == c ==>
      exists k :: 0 <= k < |sent| && IsDelivery(sent[k].frame) && env.accepts(k)
               && sent[k].frame.sequence == e.sequence && Carries(w.core.table.rows, e.id, sent[k].frame)
  }

  /** From (w, l) to (w', l') the wire and the log tell the same. */
  ghost predicate Told(env: Env, c: ConnId, w: World, l: Link, w': World, l': Link) {
    && l.sent <= l'.sent && w.log <= w'.log && RowsKept(w.core.table.rows, w'.core.table.rows)
    && (forall k :: |l.sent| <= k < |l'.sent| && IsDelivery(l'.sent[k].frame) ==>
          exists id :: FrameOf(env, w', c, l'.sent, k, id))
    && (forall j :: |w.log| <= j < |w'.log| ==> WriteOf(env, w', c, l'.sent, w'.log[j]))
  }

  lemma {:induction false} RowsKeptByRun(w: World, steps: seq<Step>)
    requires Inv(w) && IsRun(w, steps)
    ensures RowsKept(w.core.table.rows, Run(w, steps).core.table.rows)
  {
    hide Inv, Run, IsRun;
    forall id | id in w.core.table.rows
      ensures id in Run(w, steps).core.table.rows
      ensures var row, row' := w.core.table.rows[id], Run(w, steps).core.table.rows[id];
              row'.uuid == row.uuid && row'.cmdId == row.cmdId && row'.payload == row.payload
    {
      FinalRowsStay(w, steps, id);
    }
  }

  lemma FrameStays(env: Env, w: World, w': World, c: ConnId, sent: seq<Sent>, sent': seq<Sent>, k: nat, id: int)
    requires FrameOf(env, w, c, sent, k, id) && sent <= sent' && w.log <= w'.log
    requires RowsKept(w.core.table.rows, w'.core.table.rows)
    ensures FrameOf(env, w', c, sent', k, id)
  {
    assert forall e :: e in w.log ==> e in w'.log;
  }

  lemma WriteStays(env: Env, w: World, w': World, c: ConnId, sent: seq<Sent>, sent': seq<Sent>, e: Event)
    requires WriteOf(env, w, c, sent, e) && sent <= sent' && RowsKept(w.core.table.rows, w'.core.table.rows)
    ensures WriteOf(env, w', c, sent', e)
  {
    if e.Wrote? && e.conn == c {
      var k :| 0 <= k < |sent| && IsDelivery(sent[k].frame) && env.accepts(k)
               && sent[k].frame.sequence == e.sequence && Carries(w.core.table.rows, e.id, sent[k].frame);
      assert sent'[k] == sent[k];
    }
  }

  lemma ToldThen(env: Env, c: ConnId, w0: World, l0: Link, w1: World, l1: Link, w2: World, l2: Link)
    requires Told(env, c, w0, l0, w1, l1) && Told(env, c, w1, l1, w2, l2)
    ensures Told(env, c, w0, l0, w2, l2)
  {
    hide FrameOf, WriteOf, IsDelivery;
    forall k | |l0.sent| <= k < |l2.sent| && IsDelivery(l2.sent[k].frame)
      ensures exists id :: FrameOf(env, w2, c, l2.sent, k, id)
    {
      if k < |l1.sent| {
        assert l2.sent[k] == l1.sent[k];
        var id :| FrameOf(env, w1, c, l1.sent, k, id);
        FrameStays(env, w1, w2, c, l1.sent, l2.sent, k, id);
      }
    }
    forall j | |w0.log| <= j < |w2.log| ensures WriteOf(env, w2, c, l2.sent, w2.log[j]) {
      if j < |w1.log| {
        assert w2.log[j] == w1.log[j];
        WriteStays(env, w1, w2, c, l1.sent, l2.sent, w1.log[j]);
      }
    }
  }

  /** Nothing is written to the device from w to w'. */
  predicate NoWrites(w: World, w': World) {
    w.log <= w'.log && forall j :: |w.log| <= j < |w'.log| ==> !w'.log[j].Wrote?
  }

  /** At most an ack goes out. */
  predicate OnlyAck(l: Link, l': Link) {
    l'.sent == l.sent || (|l'.sent| == |l.sent| + 1 && l.sent <= l'.sent && l'.sent[|l.sent|].frame.isAck)
  }

  lemma QuietTold(env: Env, c: ConnId, w: World, l: Link, w': World, l': Link)
    requires NoWrites(w, w') && OnlyAck(l, l') && RowsKept(w.core.table.rows, w'.core.table.rows)
    ensures Told(env, c, w, l, w', l')
  {
    hide FrameOf;
  }

  // ---------------------------------------------------------------- answering a packet

  lemma Finish(w: World, c: ConnId, core: Core, l: Link, alive: bool) returns (steps: seq<Step>)
    requires Matches(w, c, core, l)
    ensures RunOf(w, c, steps) && Reaches(Run(w, steps), c, After(core, l, alive)) && NoWrites(w, Run(w, steps))
  {
    hide AfterRequeueInflight;
    if alive {
      steps := [];
    } else {
      One(w, c, Disconnect(c));
      steps := [Disconnect(c)];
    }
  }

  /** At most a binding and one frame, then on or out. */
  lemma LightRefines(w: World, c: ConnId, core: Core, l: Link, bind: Option<(string, string)>, l': Link, alive: bool)
    returns (steps: seq<Step>)
    requires Matches(w, c, core, l)
    requires l'.session == if bind.Some? then Bound(l.session, bind.value.0, bind.value.1) else l.session
    requires l'.count == l.count || l'.count == l.count + 1
    ensures RunOf(w, c, steps) && Reaches(Run(w, steps), c, After(core, l', alive)) && NoWrites(w, Run(w, steps))
  {
    var binding, writing := [], [];
    if bind.Some? {
      binding := [Bind(c, bind.value.0, bind.value.1)];
      One(w, c, binding[0]);
    }
    var w1 := Run(w, binding);
    if l'.count == l.count + 1 {
      writing := [WriteOther(c)];
      One(w1, c, WriteOther(c));
    }
    var w2 := Run(w1, writing);
    assert Matches(w2, c, core, l') && w2.log == w.log;
    hide Next, Enabled, Reaches;
    Then(w, c, binding, writing);
    var finishing := Finish(w2, c, core, l', alive);
    Then(w, c, binding + writing, finishing);
    steps := binding + writing + finishing;
  }

  lemma PacketRefines(g: Gcm, env: Env, w: World, c: ConnId, core: Core, l: Link, packet: Packet, a: Answers)
    returns (steps: seq<Step>)
    requires Matches(w, c, core, l)
    ensures RunOf(w, c, steps) && Reaches(Run(w, steps), c, AfterPacket(g, env, core, l, packet, a))
    ensures NoWrites(w, Run(w, steps))
  {
    hide PackFrame, RunOf, Reaches, Matches, Run, IsRun, AfterReport, Wrapped, HandshakePayload;
    var r := AfterPacket(g, env, core, l, packet, a);
    var cmd := packet.cmdId;
    if l.session.authenticated && IsDownlinkCommand(cmd) && packet.isAck {
      steps := AckRefines(g, env, w, c, core, l, packet, a);
    } else {
      var bind := if (cmd == AUTH_VERIFY || cmd == DEVICE_REGISTER) && a.verdict.Accepted?
                  then Some((a.verdict.uuid, a.verdict.tenantId)) else None;
      steps := LightRefines(w, c, core, l, bind, r.link, r.alive);
    }
  }

  lemma AckRefines(g: Gcm, env: Env, w: World, c: ConnId, core: Core, l: Link, packet: Packet, a: Answers)
    returns (steps: seq<Step>)
    requires Matches(w, c, core, l) && l.session.authenticated && IsDownlinkCommand(packet.cmdId) && packet.isAck
    ensures RunOf(w, c, steps) && Reaches(Run(w, steps), c, AfterPacket(g, env, core, l, packet, a))
    ensures NoWrites(w, Run(w, steps))
  {
    hide AfterAck, AckMatches;
    steps := [AckArrives(c, packet.cmdId, packet.sequence)];
    One(w, c, steps[0]);
  }

  // ---------------------------------------------------------------- delivering a batch

  /** The one step that handles a popped command. */
  function CommandStep(g: Gcm, env: Env, c: ConnId, l: Link, msg: AdapterCommand): Step {
    var cmd := ResolveDownlinkCmd(msg);
    if cmd.None? then FailUnmapped(c, env.unmapped)
    else if PackFrame(g, FrameFor(l, msg.payload, cmd.value, 1, l.key, false)).Err? then FailPack(c, env.unpackable)
    else if !env.accepts(|l.sent|) then WriteFail(c, env.broken)
    else WriteOk(c)
  }

  lemma CommandRefines(g: Gcm, env: Env, w: World, c: ConnId, core: Core, l: Link, msg: AdapterCommand)
    returns (steps: seq<Step>)
    requires Handed(w, c, core, l, msg) && l.count + 1 < COUNT_LIMIT
    ensures steps == [CommandStep(g, env, c, l, msg)] && Enabled(w, steps[0]) && Run(w, steps) == Next(w, steps[0])
    ensures RunOf(w, c, steps) && Reaches(Run(w, steps), c, AfterCommand(g, env, core, l, msg))
  {
    hide AfterFail, AfterSent, AfterRequeueDownlink, AfterRequeueInflight, ResolveDownlinkCmd, PackFrame;
    var step := CommandStep(g, env, c, l, msg);
    One(w, c, step);
    steps := [step];
  }

  /** New frames of l' are deliveries to the device, under the key of l, all but the last of them accepted. */
  ghost predicate Delivers(env: Env, rows: Rows, device: string, l: Link, r: After) {
    && l.sent <= r.link.sent && r.link.key == l.key
    && r.link.session.authenticated == l.session.authenticated && r.link.session.uuid == l.session.uuid
    && (forall k :: |l.sent| <= k < |r.link.sent| ==>
          && DeliveryTo(rows, device, l.key, r.link.sent[k].frame)
          && (env.accepts(k) <==> r.alive || k + 1 < |r.link.sent|))
    && (!r.alive ==> |l.sent| < |r.link.sent|)
  }

  ghost predicate DeliveryTo(rows: Rows, device: string, key: Key, f: Frame) {
    IsDelivery(f) && f.keyId == 1 && f.key == key && exists id :: Carries(rows, id, f) && rows[id].uuid == device
  }

  /** The command asks for what its row asks for. */
  predicate AsRow(rows: Rows, msg: AdapterCommand) {
    && msg.commandId in rows && msg.uuid == rows[msg.commandId].uuid
    && msg.payload == rows[msg.commandId].payload
    && (ResolveDownlinkCmd(msg).Some? ==>
          ResolveDownlinkCmd(msg).value == rows[msg.commandId].cmdId && IsDownlinkCommand(rows[msg.commandId].cmdId))
  }

  lemma HandIsRow(w: World, c: ConnId, msg: AdapterCommand)
    requires Inv(w) && c in w.conns && w.conns[c].hand == Some(msg)
    ensures AsRow(w.core.table.rows, msg)
  {
    hide Inv, Image, ResolveDownlinkCmd;
    HeldFacts(w, c);
    var row := w.core.table.rows[msg.commandId];
    ImageId(row.uuid, msg.tenantId, MessageOf(msg.commandId, row));
    ImageResolves(row.uuid, msg.tenantId, MessageOf(msg.commandId, row));
  }

  /** Handling a command writes at most its own frame, and keeps key and device. */
  lemma CommandSends(g: Gcm, env: Env, core: Core, l: Link, msg: AdapterCommand)
    ensures var r := AfterCommand(g, env, core, l, msg);
            && r.link.key == l.key
            && r.link.session.authenticated == l.session.authenticated && r.link.session.uuid == l.session.uuid
            && match CommandFrame(g, l, msg)
               case None => r.link.sent == l.sent && r.alive
               case Some(f) => r.link.sent == l.sent + [Sent(l.count + 1, f)] && r.alive == env.accepts(|l.sent|)
  {
    hide AfterReport, FailRequest, RequeueRequest, SentRequest, ResolveDownlinkCmd, PackFrame, Wrapped;
  }

  function CommandFrame(g: Gcm, l: Link, msg: AdapterCommand): Option<Frame> {
    match ResolveDownlinkCmd(msg)
    case None => None
    case Some(cmd) =>
      var f := FrameFor(l, msg.payload, cmd, 1, l.key, false);
      if PackFrame(g, f).Err? then None else Some(f)
  }

  lemma CommandLogs(g: Gcm, env: Env, w: World, c: ConnId, core: Core, l: Link, msg: AdapterCommand)
    requires Handed(w, c, core, l, msg) && Enabled(w, CommandStep(g, env, c, l, msg))
    ensures Next(w, CommandStep(g, env, c, l, msg)).log == w.log +
            [if CommandFrame(g, l, msg).None? then Refused(c, msg.commandId, msg.uuid)
             else if env.accepts(|l.sent|) then Wrote(c, msg.commandId, msg.uuid, l.count + 1)
             else Returned(c, msg.commandId)]
  {
    hide AfterFail, AfterSent, AfterRequeueDownlink, AfterRequeueInflight, ResolveDownlinkCmd, PackFrame,
         PlaceAfterReturn;
  }

  lemma FrameIsRow(g: Gcm, rows: Rows, l: Link, msg: AdapterCommand)
    requires AsRow(rows, msg) && l.count + 1 < COUNT_LIMIT && CommandFrame(g, l, msg).Some?
    ensures var f := CommandFrame(g, l, msg).value;
            && Carries(rows, msg.commandId, f) && IsDelivery(f)
            && f.keyId == 1 && f.key == l.key && f.sequence == l.count + 1
  {
    hide *;
    FrameParts(g, l, msg);
    SmallCount(l.count + 1);
    RowFrame(rows, msg, ResolveDownlinkCmd(msg).value, CommandFrame(g, l, msg).value);
  }

  lemma RowFrame(rows: Rows, msg: AdapterCommand, cmd: CmdId, f: Frame)
    requires AsRow(rows, msg) && ResolveDownlinkCmd(msg) == Some(cmd)
    requires f.payload == msg.payload && f.cmd == cmd && !f.isAck
    ensures Carries(rows, msg.commandId, f) && IsDelivery(f)
  {
    hide ResolveDownlinkCmd;
  }

  lemma FrameParts(g: Gcm, l: Link, msg: AdapterCommand)
    requires CommandFrame(g, l, msg).Some?
    ensures ResolveDownlinkCmd(msg).Some?
    ensures CommandFrame(g, l, msg).value
         == Frame(msg.payload, ResolveDownlinkCmd(msg).value, 1, l.key, Wrapped(l.count + 1), false)
  {
    hide ResolveDownlinkCmd, PackFrame, Wrapped;
  }

  lemma SmallCount(count: nat)
    requires count < COUNT_LIMIT
    ensures Wrapped(count) == count
  {
  }

  lemma CommandTells(g: Gcm, env: Env, w: World, c: ConnId, core: Core, l: Link, msg: AdapterCommand)
    requires Inv(w) && Handed(w, c, core, l, msg) && l.count + 1 < COUNT_LIMIT && Popped(c, msg.commandId) in w.log
    requires Enabled(w, CommandStep(g, env, c, l, msg))
    ensures var w', r := Next(w, CommandStep(g, env, c, l, msg)), AfterCommand(g, env, core, l, msg);
            && Told(env, c, w, l, w', r.link)
            && Delivers(env, w'.core.table.rows, msg.uuid, l, r)
  {
    CommandSends(g, env, core, l, msg);
    CommandLogs(g, env, w, c, core, l, msg);
    HandIsRow(w, c, msg);
    if CommandFrame(g, l, msg).Some? {
      FrameIsRow(g, w.core.table.rows, l, msg);
    }
    hide CommandFrame, CommandStep, AfterCommand, Inv, Next, Enabled, Handed;
    var step := CommandStep(g, env, c, l, msg);
    var w', r := Next(w, step), AfterCommand(g, env, core, l, msg);
    RowsKeptByStep(w, step);
    hide Carries, IsDelivery, RowsKept, Told;
    if CommandFrame(g, l, msg).None? {
      QuietTold(env, c, w, l, w', r.link);
    } else {
      var f := CommandFrame(g, l, msg).value;
      FrameTells(env, w, c, l, msg.commandId, f, w', r.link);
      FrameDelivers(env, w'.core.table.rows, msg.commandId, l, f, r);
    }
  }

  lemma FrameDelivers(env: Env, rows: Rows, id: int, l: Link, f: Frame, r: After)
    requires Carries(rows, id, f) && IsDelivery(f) && f.keyId == 1 && f.key == l.key
    requires r.link.sent == l.sent + [Sent.Sent(l.count + 1, f)] && r.alive == env.accepts(|l.sent|)
    requires r.link.key == l.key
    requires r.link.session.authenticated == l.session.authenticated && r.link.session.uuid == l.session.uuid
    ensures Delivers(env, rows, rows[id].uuid, l, r)
  {
    hide IsDelivery;
  }

  lemma RowsKeptByStep(w: World, step: Step)
    requires Inv(w) && Enabled(w, step)
    ensures RowsKept(w.core.table.rows, Next(w, step).core.table.rows)
  {
    hide Inv, Next, Enabled;
    assert IsRun(Next(w, step), [step][1..]) && Run(w, [step]) == Next(w, step);
    RowsKeptByRun(w, [step]);
  }

  /** The row of id goes out as f, and the log says whether the socket took it. */
  lemma FrameTells(env: Env, w: World, c: ConnId, l: Link, id: int, f: Frame, w': World, l': Link)
    requires Carries(w.core.table.rows, id, f) && IsDelivery(f) && Popped(c, id) in w.log
    requires RowsKept(w.core.table.rows, w'.core.table.rows)
    requires l'.sent == l.sent + [Sent(l.count + 1, f)] && f.sequence == l.count + 1
    requires w'.log == w.log + [if env.accepts(|l.sent|) then Wrote(c, id, w.core.table.rows[id].uuid, l.count + 1)
                                else Returned(c, id)]
    ensures Told(env, c, w, l, w', l')
    ensures Carries(w'.core.table.rows, id, f) && w'.core.table.rows[id].uuid == w.core.table.rows[id].uuid
  {
    var k, j := |l.sent|, |w.log|;
    assert l'.sent[k].frame == f && w'.log[j] in w'.log;
    assert Popped(c, id) in w'.log;
    assert FrameOf(env, w', c, l'.sent, k, id);
    assert WriteOf(env, w', c, l'.sent, w'.log[j]);
  }

  lemma PopRefines(w: World, c: ConnId, tenants: Tenants, core: Core, l: Link)
    requires Matches(w, c, core, l)
    ensures RunOf(w, c, [PopDownlink(c, tenants)])
    ensures var w' := Run(w, [PopDownlink(c, tenants)]);
            match AfterPopCommand(core, tenants, l.session)
            case (core', None) => Matches(w', c, core', l)
            case (core', Some(msg)) => Handed(w', c, core', l, msg)
  {
    hide AfterPopCommand;
    One(w, c, PopDownlink(c, tenants));
  }

  /** A popped command belongs to the device that the session is bound to. */
  lemma PopTells(w: World, c: ConnId, tenants: Tenants, core: Core, l: Link, msg: AdapterCommand)
    requires Inv(w) && Matches(w, c, core, l) && AfterPopCommand(core, tenants, l.session).1 == Some(msg)
    ensures Next(w, PopDownlink(c, tenants)).log == w.log + [Popped(c, msg.commandId)]
    ensures msg.uuid == TrimSpace(l.session.uuid)
  {
    hide AfterPopCommand, Image, TrimSpace, PullUuid, ResolveTenant;
    var uuid := PullUuid(PullRequestOf(l.session));
    PopEffect(core, tenants, l.session);
    ImageId(uuid, ResolveTenant(tenants, uuid), QueueAt(w, uuid)[0]);
    SessionIdentity(w, c);
    HeadIsNamed(w, uuid);
    PullUuidIsTrimmed(l.session);
  }

  lemma HeadIsNamed(w: World, uuid: string)
    requires Inv(w) && QueueAt(w, uuid) != []
    ensures TrimSpace(uuid) != ""
  {
    hide TrimSpace, ConnOk, LedgerOk;
    assert QueueOk(w, uuid) && Waiting(w, uuid, QueueAt(w, uuid)[0]);
  }

  lemma CommandCounts(g: Gcm, env: Env, core: Core, l: Link, msg: AdapterCommand)
    ensures l.count <= AfterCommand(g, env, core, l, msg).link.count
  {
    hide AfterFail, AfterSent, AfterRequeueDownlink, ResolveDownlinkCmd, PackFrame;
  }

  lemma {:induction false} BatchCounts(g: Gcm, env: Env, tenants: Tenants, core: Core, l: Link, n: nat)
    ensures l.count <= AfterBatch(g, env, tenants, core, l, n).link.count
    decreases n
  {
    hide AfterPopCommand, AfterCommand;
    if n > 0 {
      match AfterPopCommand(core, tenants, l.session) {
        case (_, None) =>
        case (core', Some(msg)) =>
          CommandCounts(g, env, core', l, msg);
          var r := AfterCommand(g, env, core', l, msg);
          if r.alive {
            BatchCounts(g, env, tenants, r.core, r.link, n - 1);
          }
      }
    }
  }

  lemma DeliversThen(env: Env, rows: Rows, rows': Rows, device: string, l: Link, r: After, r': After)
    requires Delivers(env, rows, device, l, r) && r.alive && Delivers(env, rows', device, r.link, r')
    requires RowsKept(rows, rows')
    ensures Delivers(env, rows', device, l, r')
  {
    forall k | |l.sent| <= k < |r'.link.sent| ensures DeliveryTo(rows', device, l.key, r'.link.sent[k].frame) {
      if k < |r.link.sent| {
        assert r'.link.sent[k] == r.link.sent[k];
        DeliveryStays(rows, rows', device, l.key, r.link.sent[k].frame);
      }
    }
  }

  lemma DeliveryStays(rows: Rows, rows': Rows, device: string, key: Key, f: Frame)
    requires DeliveryTo(rows, device, key, f) && RowsKept(rows, rows')
    ensures DeliveryTo(rows', device, key, f)
  {
    var id :| Carries(rows, id, f) && rows[id].uuid == device;
    assert Carries(rows', id, f);
  }

  /** A pop that finds something, and the step that handles it. */
  lemma OneDelivery(g: Gcm, env: Env, tenants: Tenants, w: World, c: ConnId, core: Core, l: Link, core': Core,
                    msg: AdapterCommand)
    returns (steps: seq<Step>)
    requires Matches(w, c, core, l) && l.count + 1 < COUNT_LIMIT
    requires AfterPopCommand(core, tenants, l.session) == (core', Some(msg))
    ensures RunOf(w, c, steps) && Reaches(Run(w, steps), c, AfterCommand(g, env, core', l, msg))
    ensures Inv(w) ==>
              && Inv(Run(w, steps))
              && Told(env, c, w, l, Run(w, steps), AfterCommand(g, env, core', l, msg).link)
              && Delivers(env, Run(w, steps).core.table.rows, TrimSpace(l.session.uuid), l,
                          AfterCommand(g, env, core', l, msg))
  {
    hide AfterPopCommand, AfterCommand, Over, Told, Delivers, CommandStep;
    var pop := PopDownlink(c, tenants);
    PopRefines(w, c, tenants, core, l);
    One(w, c, pop);
    var w1 := Run(w, [pop]);
    var handling := CommandRefines(g, env, w1, c, core', l, msg);
    if Inv(w) {
      PopTells(w, c, tenants, core, l, msg);
      RunKeepsInv(w, [pop]);
      RunKeepsInv(w1, handling);
      RowsKeptByRun(w, [pop]);
      QuietTold(env, c, w, l, w1, l);
      CommandTells(g, env, w1, c, core', l, msg);
      ToldThen(env, c, w, l, w1, l, Run(w1, handling), AfterCommand(g, env, core', l, msg).link);
    }
    hide Run, IsRun, Matches, Handed, Reaches, Inv;
    Then(w, c, [pop], handling);
    steps := [pop] + handling;
  }

  lemma {:induction false} BatchRefines(g: Gcm, env: Env, tenants: Tenants, w: World, c: ConnId, core: Core, l: Link,
                                        n: nat)
    returns (steps: seq<Step>)
    requires Matches(w, c, core, l) && AfterBatch(g, env, tenants, core, l, n).link.count + 1 < COUNT_LIMIT
    ensures RunOf(w, c, steps) && Reaches(Run(w, steps), c, AfterBatch(g, env, tenants, core, l, n))
    ensures Inv(w) ==>
              && Inv(Run(w, steps))
              && Told(env, c, w, l, Run(w, steps), AfterBatch(g, env, tenants, core, l, n).link)
              && Delivers(env, Run(w, steps).core.table.rows, TrimSpace(l.session.uuid), l,
                          AfterBatch(g, env, tenants, core, l, n))
    decreases n
  {
    hide AfterPopCommand, AfterCommand, Run, IsRun, Matches, Handed, Over, Inv, Told, Delivers;
    steps := [];
    Nothing(w, c);
    NothingTold(env, c, w, core, l);
    if n > 0 {
      match AfterPopCommand(core, tenants, l.session) {
        case (core', None) =>
          PopRefines(w, c, tenants, core, l);
          steps := [PopDownlink(c, tenants)];
          EmptyPop(env, w, c, tenants, core, l);
        case (core', Some(msg)) =>
          BatchStart(g, env, tenants, core, l, n, core', msg);
          steps := OneDelivery(g, env, tenants, w, c, core, l, core', msg);
          var r := AfterCommand(g, env, core', l, msg);
          if r.alive {
            var w1 := Run(w, steps);
            var rest := BatchRefines(g, env, tenants, w1, c, r.core, r.link, n - 1);
            Then(w, c, steps, rest);
            if Inv(w) {
              BatchThen(env, c, w, l, w1, r, Run(w1, rest), AfterBatch(g, env, tenants, r.core, r.link, n - 1));
            }
            steps := steps + rest;
          }
      }
    }
  }

  lemma NothingTold(env: Env, c: ConnId, w: World, core: Core, l: Link)
    ensures Told(env, c, w, l, w, l)
    ensures Delivers(env, w.core.table.rows, TrimSpace(l.session.uuid), l, After(core, l, true))
  {
    hide TrimSpace;
  }

  lemma EmptyPop(env: Env, w: World, c: ConnId, tenants: Tenants, core: Core, l: Link)
    requires Matches(w, c, core, l) && AfterPopCommand(core, tenants, l.session).1.None?
    ensures var w' := Run(w, [PopDownlink(c, tenants)]);
            Inv(w) ==>
              && Inv(w') && Told(env, c, w, l, w', l)
              && Delivers(env, w'.core.table.rows, TrimSpace(l.session.uuid), l,
                          After(AfterPopCommand(core, tenants, l.session).0, l, true))
  {
    hide AfterPopCommand, TrimSpace, Told;
    var pop := PopDownlink(c, tenants);
    One(w, c, pop);
    var w' := Run(w, [pop]);
    assert w'.log == w.log;
    if Inv(w) {
      RunKeepsInv(w, [pop]);
      RowsKeptByRun(w, [pop]);
      QuietTold(env, c, w, l, w', l);
    }
  }

  lemma BatchThen(env: Env, c: ConnId, w: World, l: Link, w1: World, r: After, w2: World, r': After)
    requires Told(env, c, w, l, w1, r.link) && Told(env, c, w1, r.link, w2, r'.link) && r.alive
    requires Delivers(env, w1.core.table.rows, TrimSpace(l.session.uuid), l, r)
    requires Delivers(env, w2.core.table.rows, TrimSpace(r.link.session.uuid), r.link, r')
    ensures Told(env, c, w, l, w2, r'.link) && Delivers(env, w2.core.table.rows, TrimSpace(l.session.uuid), l, r')
  {
    hide TrimSpace, FrameOf, WriteOf, DeliveryTo;
    ToldThen(env, c, w, l, w1, r.link, w2, r'.link);
    DeliversThen(env, w1.core.table.rows, w2.core.table.rows, TrimSpace(l.session.uuid), l, r, r');
  }

  lemma BatchStart(g: Gcm, env: Env, tenants: Tenants, core: Core, l: Link, n: nat, core': Core, msg: AdapterCommand)
    requires n > 0 && AfterPopCommand(core, tenants, l.session) == (core', Some(msg))
    ensures l.count <= AfterBatch(g, env, tenants, core, l, n).link.count
  {
    hide AfterPopCommand;
    BatchCounts(g, env, tenants, core, l, n);
  }

  lemma Nothing(w: World, c: ConnId)
    ensures RunOf(w, c, []) && Run(w, []) == w
  {
  }

  // ---------------------------------------------------------------- the whole connection

  lemma PacketCounts(g: Gcm, env: Env, core: Core, l: Link, packet: Packet, a: Answers)
    ensures l.count <= AfterPacket(g, env, core, l, packet, a).link.count
  {
    hide PackFrame, AfterAck, HandshakePayload;
  }

  lemma PacketSends(g: Gcm, env: Env, core: Core, l: Link, packet: Packet, a: Answers)
    ensures OnlyAck(l, AfterPacket(g, env, core, l, packet, a).link)
  {
    hide PackFrame, AfterAck, HandshakePayload, Wrapped;
  }

  /** Answering a packet, as a run that the log agrees with. */
  lemma PacketTells(g: Gcm, env: Env, w: World, c: ConnId, core: Core, l: Link, packet: Packet, a: Answers)
    returns (steps: seq<Step>)
    requires Matches(w, c, core, l)
    ensures RunOf(w, c, steps) && Reaches(Run(w, steps), c, AfterPacket(g, env, core, l, packet, a))
    ensures Inv(w) ==>
              && Inv(Run(w, steps))
              && Told(env, c, w, l, Run(w, steps), AfterPacket(g, env, core, l, packet, a).link)
  {
    hide AfterPacket, Run, IsRun, Matches, Over, Inv, Told, OnlyAck, NoWrites;
    steps := PacketRefines(g, env, w, c, core, l, packet, a);
    PacketSends(g, env, core, l, packet, a);
    if Inv(w) {
      RunKeepsInv(w, steps);
      RowsKeptByRun(w, steps);
      QuietTold(env, c, w, l, Run(w, steps), AfterPacket(g, env, core, l, packet, a).link);
    }
  }

  lemma RoundRefines(g: Gcm, env: Env, tenants: Tenants, batch: nat, w: World, c: ConnId, core: Core, l: Link,
                     packet: Packet, i: nat)
    returns (steps: seq<Step>)
    requires Matches(w, c, core, l)
             && AfterRound(g, env, tenants, batch, core, l, packet, i).link.count + 1 < COUNT_LIMIT
    ensures RunOf(w, c, steps) && Reaches(Run(w, steps), c, AfterRound(g, env, tenants, batch, core, l, packet, i))
    ensures Inv(w) ==>
              && Inv(Run(w, steps))
              && Told(env, c, w, l, Run(w, steps), AfterRound(g, env, tenants, batch, core, l, packet, i).link)
  {
    hide AfterPacket, AfterBatch, Run, IsRun, Matches, Over, Inv, Told, Delivers;
    steps := PacketTells(g, env, w, c, core, l, packet, env.answers(i));
    var r := AfterPacket(g, env, core, l, packet, env.answers(i));
    if r.alive && r.link.session.authenticated {
      var w1 := Run(w, steps);
      var delivering := BatchRefines(g, env, tenants, w1, c, r.core, r.link, batch);
      Then(w, c, steps, delivering);
      if Inv(w) {
        ToldThen(env, c, w, l, w1, r.link, Run(w1, delivering),
                 AfterBatch(g, env, tenants, r.core, r.link, batch).link);
      }
      steps := steps + delivering;
    }
  }

  lemma {:induction false} ServedCounts(g: Gcm, env: Env, tenants: Tenants, batch: nat, core: Core, l: Link,
                                        stream: seq<bv8>, i: nat)
    ensures l.count <= Served(g, env, tenants, batch, core, l, stream, i).1.count
    decreases |stream|
  {
    hide AfterPacket, AfterBatch, Unpacked, AfterRequeueInflight;
    UnpackConsumes(g, stream, l.key);
    match Unpacked(g, stream, l.key) {
      case (Err(_), _) =>
      case (Ok(packet), rest) =>
        PacketCounts(g, env, core, l, packet, env.answers(i));
        var p := AfterPacket(g, env, core, l, packet, env.answers(i));
        BatchCounts(g, env, tenants, p.core, p.link, batch);
        var r := AfterRound(g, env, tenants, batch, core, l, packet, i);
        if r.alive {
          ServedCounts(g, env, tenants, batch, r.core, r.link, rest, i + 1);
        }
    }
  }

  /**
   * Whatever the device sends, the core answers and the socket accepts, serving a connection to its end
   * is a run of that connection's own pipeline steps, to the same core and the same session. From a
   * reachable world, moreover, the frames written and the log tell the same: each command frame carries
   * a popped command as its row asks for it, and each write logged is such a frame with its number.
   */
  lemma {:induction false} ServedRefines(g: Gcm, env: Env, tenants: Tenants, batch: nat, w: World, c: ConnId,
                                         core: Core, l: Link, stream: seq<bv8>, i: nat)
    returns (steps: seq<Step>)
    requires Matches(w, c, core, l)
    requires Served(g, env, tenants, batch, core, l, stream, i).1.count + 1 < COUNT_LIMIT
    ensures RunOf(w, c, steps)
    ensures var (core', l') := Served(g, env, tenants, batch, core, l, stream, i);
            && Run(w, steps).core == core' && c in Run(w, steps).conns
            && Run(w, steps).conns[c] == Conn(l'.session, None, l'.count, false)
            && (Inv(w) ==> Told(env, c, w, l, Run(w, steps), l'))
    decreases |stream|
  {
    hide AfterRound, Unpacked, Run, IsRun, Matches, AfterRequeueInflight, Inv, Told;
    UnpackConsumes(g, stream, l.key);
    match Unpacked(g, stream, l.key) {
      case (Err(_), _) =>
        steps := Finish(w, c, core, l, false);
        if Inv(w) {
          EndTold(env, c, w, core, l, steps);
        }
      case (Ok(packet), rest) =>
        var r := AfterRound(g, env, tenants, batch, core, l, packet, i);
        if r.alive {
          ServedCounts(g, env, tenants, batch, r.core, r.link, rest, i + 1);
        }
        steps := RoundRefines(g, env, tenants, batch, w, c, core, l, packet, i);
        var w1 := Run(w, steps);
        if r.alive {
          var more := ServedRefines(g, env, tenants, batch, w1, c, r.core, r.link, rest, i + 1);
          Then(w, c, steps, more);
          var end := Served(g, env, tenants, batch, r.core, r.link, rest, i + 1).1;
          if Inv(w) {
            ToldThen(env, c, w, l, w1, r.link, Run(w1, more), end);
          }
          steps := steps + more;
        } else if Inv(w) {
          SameSentTold(env, c, w, l, w1, r.link, Ended(r.core, r.link).1);
        }
    }
  }

  lemma SameSentTold(env: Env, c: ConnId, w: World, l: Link, w': World, l': Link, l'': Link)
    requires Told(env, c, w, l, w', l') && l''.sent == l'.sent
    ensures Told(env, c, w, l, w', l'')
  {
    hide FrameOf, WriteOf;
  }

  lemma {:induction false} EndTold(env: Env, c: ConnId, w: World, core: Core, l: Link, steps: seq<Step>)
    requires Inv(w) && IsRun(w, steps) && NoWrites(w, Run(w, steps))
    ensures Told(env, c, w, l, Run(w, steps), Ended(core, l).1)
  {
    hide Inv, Run, IsRun, AfterRequeueInflight;
    RowsKeptByRun(w, steps);
    QuietTold(env, c, w, l, Run(w, steps), Ended(core, l).1);
  }
}
