/** One authenticated TCP session: its device binding and its single in-flight downlink command. */
module TcpSession {
  import opened Wrappers
  import opened GosterWy
  import opened Text
  import opened Commands
  import opened CommandQueue
  import opened DownlinkService
  import opened CoreIngress
  import opened Normalizer

  /** An in-flight command and the sequence number its frame was written with. */
  datatype Inflight = Inflight(command: AdapterCommand, sequence: nat)

  datatype Session = Session(authenticated: bool, uuid: string, tenantId: string, identity: Identity,
                             inflight: Option<Inflight>)

  const NEW_SESSION := Session(false, "", "", Identity("", ""), None)

  // ---------------------------------------------------------------- pure helpers

  function FirstNonEmpty(a: string, b: string): string {
    if TrimSpace(a) != "" then a else if TrimSpace(b) != "" then b else ""
  }

  function ResolveDownlinkCmd(c: AdapterCommand): Option<CmdId> {
    if c.protocolCode != 0 && IsDownlinkCommand(c.protocolCode % 0x1_0000) then Some(c.protocolCode % 0x1_0000)
    else if c.commandCodeOption.Some? && IsDownlinkCommand(c.commandCodeOption.value % 0x1_0000) then
      Some(c.commandCodeOption.value % 0x1_0000)
    else CommandByOperation(c.operation)
  }

  function TargetIdentity(c: AdapterCommand): Option<Identity> {
    if c.target.kind == "" && c.target.value == "" then
      if c.uuid == "" then None else Some(Identity("uuid", c.uuid))
    else Some(c.target)
  }

  function FromAdapter(c: AdapterCommand, cmd: CmdId): CanonicalCommand {
    CanonicalCommand(
      c.commandId, c.commandUuid, c.tenantId, c.uuid, TargetIdentity(c), c.operation,
      if c.protocolCode == 0 && cmd != 0 then cmd else c.protocolCode,
      Some(RawPayload(FirstNonEmpty(c.contentType, "application/octet-stream"), c.payload, [], None)), None)
  }

  // ---------------------------------------------------------------- what each operation does

  function Bound(s: Session, uuid: string, tenantId: string): Session {
    s.(authenticated := true, uuid := uuid, tenantId := tenantId, identity := Identity("uuid", uuid))
  }

  function PullRequestOf(s: Session): PullRequest {
    PullRequest(s.uuid, s.identity.value, [], 1)
  }

  /** Pulls at most one command, and none while one is in flight. */
  function AfterPopCommand(c: Core, tenants: Tenants, s: Session): (r: (Core, Option<AdapterCommand>)) {
    if !s.authenticated || s.inflight.Some? then (c, None)
    else
      match AfterPull(c, tenants, PullRequestOf(s))
      case (c', Err(_)) => (c', None)
      case (c', Ok(commands)) => (c', if commands == [] then None else Some(NormalizeCommand(commands[0])))
  }

  function SentRequest(s: Session, msg: AdapterCommand, cmd: CmdId): StatusRequest {
    StatusRequest(msg.commandId, SentReport, FirstNonEmpty(msg.uuid, s.uuid), TargetIdentity(msg), cmd,
                  Some(FromAdapter(msg, cmd)), None, "")
  }

  function AckRequest(s: Session, commandId: int, cmd: CmdId): StatusRequest {
    StatusRequest(commandId, AckedReport, s.uuid, None, cmd, None, None, "")
  }

  function FailRequest(s: Session, msg: AdapterCommand, errorText: string): StatusRequest {
    StatusRequest(msg.commandId, FailedReport, FirstNonEmpty(msg.uuid, s.uuid), TargetIdentity(msg), 0,
                  Some(FromAdapter(msg, 0)), None, errorText)
  }

  function RequeueRequest(s: Session, msg: AdapterCommand, errorText: string): StatusRequest {
    StatusRequest(msg.commandId, RequeuedReport, FirstNonEmpty(msg.uuid, s.uuid), TargetIdentity(msg), 0,
                  Some(FromAdapter(msg, ResolveDownlinkCmd(msg).GetOr(0))), None, errorText)
  }

  predicate Reports(s: Session, msg: AdapterCommand) {
    s.authenticated && msg.commandId > 0
  }

  function Cleared(s: Session, commandId: int): Session {
    if s.inflight.Some? && s.inflight.value.command.commandId == commandId then s.(inflight := None) else s
  }

  function AfterSent(c: Core, s: Session, msg: AdapterCommand, cmd: CmdId, sequence: nat): (r: (Core, Session)) {
    if !Reports(s, msg) then (c, s)
    else (AfterReport(c, SentRequest(s, msg, cmd)), s.(inflight := Some(Inflight(msg, sequence))))
  }

  function AfterFail(c: Core, s: Session, msg: AdapterCommand, errorText: string): (r: (Core, Session)) {
    if !Reports(s, msg) then (c, s)
    else (AfterReport(c, FailRequest(s, msg, errorText)), Cleared(s, msg.commandId))
  }

  function AfterRequeueDownlink(c: Core, s: Session, msg: AdapterCommand, errorText: string): (r: (Core, Session)) {
    if !Reports(s, msg) then (c, s)
    else (AfterReport(c, RequeueRequest(s, msg, errorText)), Cleared(s, msg.commandId))
  }

  function AfterRequeueInflight(c: Core, s: Session): (r: (Core, Session)) {
    if s.inflight.None? then (c, s)
    else AfterRequeueDownlink(c, s.(inflight := None), s.inflight.value.command, "")
  }

  /** An ack counts only for the in-flight command, by command code and by sequence number. */
  predicate AckMatches(s: Session, cmd: CmdId, sequence: nat) {
    && s.authenticated && s.inflight.Some?
    && ResolveDownlinkCmd(s.inflight.value.command).GetOr(0) == cmd
    && s.inflight.value.sequence == sequence
  }

  function AfterAck(c: Core, s: Session, cmd: CmdId, sequence: nat): (r: (Core, Session)) {
    if !AckMatches(s, cmd, sequence) then (c, s)
    else (AfterReport(c, AckRequest(s, s.inflight.value.command.commandId, cmd)), s.(inflight := None))
  }

  /**
   * A code is resolved to that of a downlink command or not at all: to the command's own code if it is
   * one, else to the code among its options, else to what its operation is called.
   */
  lemma CodeIsResolved(c: AdapterCommand)
    ensures var own, option := c.protocolCode % 0x1_0000, c.commandCodeOption.GetOr(0) % 0x1_0000;
            var r := ResolveDownlinkCmd(c);
            && (r.Some? ==> IsDownlinkCommand(r.value))
            && (IsDownlinkCommand(own) ==> r == Some(own))
            && (!IsDownlinkCommand(own) && IsDownlinkCommand(option) ==> r == Some(option))
            && (!IsDownlinkCommand(own) && !IsDownlinkCommand(option) ==> r == CommandByOperation(c.operation))
  {
  }

  /** A command that was reported failed or returned is in flight no more; another one in flight stays. */
  lemma ReportEmptiesSlot(c: Core, s: Session, msg: AdapterCommand, errorText: string)
    requires Reports(s, msg)
    ensures forall s' :: s' in {AfterFail(c, s, msg, errorText).1, AfterRequeueDownlink(c, s, msg, errorText).1} ==>
              && s' == s.(inflight := s'.inflight)
              && (s'.inflight.Some? <==>
                    s.inflight.Some? && s.inflight.value.command.commandId != msg.commandId)
              && (s'.inflight.Some? ==> s'.inflight == s.inflight)
  {
    hide AfterReport, FailRequest, RequeueRequest;
  }

  // ---------------------------------------------------------------- the session object

  class TcpConnectionSession {
    const core: CoreService
    var authenticated: bool
    var uuid: string
    var tenantId: string
    var identity: Identity
    var inflight: Option<AdapterCommand>
    var inflightSeq: nat

    constructor (core: CoreService)
      ensures this.core == core && State() == NEW_SESSION
    {
      this.core := core;
      authenticated, uuid, tenantId, identity := false, "", "", Identity("", "");
      inflight, inflightSeq := None, 0;
    }

    function State(): Session
      reads this
    {
      Session(authenticated, uuid, tenantId, identity,
              if inflight.None? then None else Some(Inflight(inflight.value, inflightSeq)))
    }

    function CoreState(): Core
      reads core.downlink.store, core.downlink.queue
    {
      core.downlink.State()
    }

    method BindDevice(uuid: string, tenantId: string)
      modifies this
      ensures State() == Bound(old(State()), uuid, tenantId)
    {
      this.uuid := uuid;
      this.tenantId := tenantId;
      this.identity := Identity("uuid", uuid);
      this.authenticated := true;
    }

    method PopCommand() returns (r: Option<AdapterCommand>)
      modifies core.downlink.queue
      ensures (CoreState(), r) == AfterPopCommand(old(CoreState()), core.tenants, State())
    {
      if !authenticated || inflight.Some? {
        return None;
      }
      var pulled := core.PullCommands(PullRequest(uuid, identity.value, [], 1));
      if pulled.Err? || |pulled.value| == 0 {
        return None;
      }
      return Some(NormalizeCommand(pulled.value[0]));
    }

    method MarkDownlinkSent(msg: AdapterCommand, cmd: CmdId, sequence: nat)
      modifies this, core.downlink.store, core.downlink.queue
      ensures (CoreState(), State()) == AfterSent(old(CoreState()), old(State()), msg, cmd, sequence)
    {
      hide FromAdapter, TargetIdentity, FirstNonEmpty, AfterReport, ReportResult;
      if !authenticated || msg.commandId <= 0 {
        return;
      }
      inflight := Some(msg);
      inflightSeq := sequence;
      var _ := core.UpdateCommandStatus(StatusRequest(
        msg.commandId, SentReport, FirstNonEmpty(msg.uuid, uuid), TargetIdentity(msg), cmd,
        Some(FromAdapter(msg, cmd)), None, ""));
    }

    method ClearInflightByCommandId(commandId: int)
      modifies this
      ensures State() == Cleared(old(State()), commandId)
    {
      if inflight.Some? && inflight.value.commandId == commandId {
        inflight := None;
        inflightSeq := 0;
      }
    }

    method FailDownlink(msg: AdapterCommand, errorText: string)
      modifies this, core.downlink.store, core.downlink.queue
      ensures (CoreState(), State()) == AfterFail(old(CoreState()), old(State()), msg, errorText)
    {
      if !authenticated || msg.commandId <= 0 {
        return;
      }
      ClearInflightByCommandId(msg.commandId);
      var _ := core.UpdateCommandStatus(StatusRequest(
        msg.commandId, FailedReport, FirstNonEmpty(msg.uuid, uuid), TargetIdentity(msg), 0,
        Some(FromAdapter(msg, 0)), None, errorText));
    }

    method RequeueDownlink(msg: AdapterCommand, errorText: string)
      modifies this, core.downlink.store, core.downlink.queue
      ensures (CoreState(), State()) == AfterRequeueDownlink(old(CoreState()), old(State()), msg, errorText)
    {
      if !authenticated || msg.commandId <= 0 {
        return;
      }
      ClearInflightByCommandId(msg.commandId);
      var resolved := ResolveDownlinkCmd(msg);
      var cmdId := resolved.GetOr(0);
      var _ := core.UpdateCommandStatus(StatusRequest(
        msg.commandId, RequeuedReport, FirstNonEmpty(msg.uuid, uuid), TargetIdentity(msg), 0,
        Some(FromAdapter(msg, cmdId)), None, errorText));
    }

    method RequeueInflight()
      modifies this, core.downlink.store, core.downlink.queue
      ensures (CoreState(), State()) == AfterRequeueInflight(old(CoreState()), old(State()))
    {
      if inflight.None? {
        return;
      }
      var msg := inflight.value;
      inflight := None;
      inflightSeq := 0;
      RequeueDownlink(msg, "");
    }

    method HandleDownlinkAck(cmd: CmdId, sequence: nat)
      modifies this, core.downlink.store, core.downlink.queue
      ensures (CoreState(), State()) == AfterAck(old(CoreState()), old(State()), cmd, sequence)
    {
      if !authenticated || inflight.None? {
        return;
      }
      var current := inflight.value;
      var inflightCmd := ResolveDownlinkCmd(current);
      if inflightCmd.GetOr(0) != cmd {
        return;
      }
      if inflightSeq != sequence {
        return;
      }
      inflight := None;
      inflightSeq := 0;
      var _ := core.UpdateCommandStatus(StatusRequest(
        current.commandId, AckedReport, uuid, None, cmd, None, None, ""));
    }
  }
}
