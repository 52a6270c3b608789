/** The core's RPC surface for adapters: pulling commands and reporting their status. */
module CoreIngress {
  import opened Wrappers
  import opened GosterWy
  import opened Text
  import opened Commands
  import opened CommandQueue
  import opened CommandStore
  import opened DownlinkService

  datatype IngressError = InvalidRequest | Internal(e: ServiceError)

  datatype PullRequest = PullRequest(uuid: string, primary: string, identities: seq<Identity>, maxCount: int)

  /** The tenant each known device belongs to. */
  type Tenants = map<string, string>

  function ResolveTenant(tenants: Tenants, uuid: string): string {
    if TrimSpace(uuid) != "" && uuid in tenants && TrimSpace(tenants[uuid]) != "" then TrimSpace(tenants[uuid])
    else DEFAULT_TENANT
  }

  function OperationName(cmd: CmdId): string {
    if cmd == CONFIG_PUSH then "config_push"
    else if cmd == OTA_DATA then "ota_data"
    else if cmd == ACTION_EXEC then "action_exec"
    else if cmd == SCREEN_WY then "screen_wy"
    else "unknown"
  }

  function ToCanonical(uuid: string, tenantId: string, m: Message): CanonicalCommand {
    CanonicalCommand(
      m.commandId, "", tenantId, uuid, Some(Identity("uuid", uuid)), OperationName(m.cmdId), m.cmdId,
      Some(RawPayload("application/octet-stream", m.payload, [], None)), Some(m.cmdId))
  }

  /** The first identity of a kind; strings.EqualFold on ASCII. */
  function IdentityValue(items: seq<Identity>, kind: string): string {
    if items == [] then ""
    else if ToLower(items[0].kind) == ToLower(kind) then TrimSpace(items[0].value)
    else IdentityValue(items[1..], kind)
  }

  method FindIdentityValue(items: seq<Identity>, kind: string) returns (value: string)
    ensures value == IdentityValue(items, kind)
  {
    hide ToLower, TrimSpace;
    for i := 0 to |items|
      invariant IdentityValue(items, kind) == IdentityValue(items[i..], kind)
    {
      assert items[i..][1..] == items[i + 1..];
      if ToLower(items[i].kind) == ToLower(kind) {
        return TrimSpace(items[i].value);
      }
    }
    return "";
  }

  function PullUuid(req: PullRequest): string {
    if TrimSpace(req.uuid) != "" then TrimSpace(req.uuid)
    else if req.primary != "" then req.primary
    else IdentityValue(req.identities, "uuid")
  }

  /** Pops up to n messages of one device, oldest first. */
  function Pulled(c: Core, tenants: Tenants, uuid: string, n: nat): (r: (Core, seq<CanonicalCommand>))
    decreases n
  {
    if n == 0 then (c, [])
    else
      match AfterPop(c, uuid)
      case (c', None) => (c', [])
      case (c', Some(m)) =>
        var (c'', more) := Pulled(c', tenants, uuid, n - 1);
        (c'', [ToCanonical(uuid, ResolveTenant(tenants, uuid), m)] + more)
  }

  /** One more message of a pull. */
  lemma PulledNext(c: Core, tenants: Tenants, uuid: string, n: nat, done: seq<CanonicalCommand>)
    requires n > 0
    ensures match AfterPop(c, uuid)
            case (c', None) => Pulled(c, tenants, uuid, n) == (c', [])
            case (c', Some(m)) =>
              var command := ToCanonical(uuid, ResolveTenant(tenants, uuid), m);
              && Pulled(c, tenants, uuid, n).0 == Pulled(c', tenants, uuid, n - 1).0
              && done + Pulled(c, tenants, uuid, n).1 == (done + [command]) + Pulled(c', tenants, uuid, n - 1).1
  {
    hide AfterPop, ToCanonical, ResolveTenant;
  }

  lemma PulledNothing(c: Core, tenants: Tenants, uuid: string)
    ensures Pulled(c, tenants, uuid, 0) == (c, [])
  {
  }

  function AfterPull(c: Core, tenants: Tenants,
                     req: PullRequest): (r: (Core, Result<seq<CanonicalCommand>, IngressError>))
  {
    if PullUuid(req) == "" then (c, Err(InvalidRequest))
    else
      var (c', commands) := Pulled(c, tenants, PullUuid(req), if req.maxCount <= 0 then 1 else req.maxCount);
      (c', Ok(commands))
  }

  // ---------------------------------------------------------------- status reports

  function RequeueUuid(req: StatusRequest): string {
    if TrimSpace(req.uuid) != "" then TrimSpace(req.uuid)
    else if req.command.Some? && TrimSpace(req.command.value.uuid) != "" then TrimSpace(req.command.value.uuid)
    else TrimSpace(req.target.GetOr(Identity("", "")).value)
  }

  function RequeueCode(req: StatusRequest): U32 {
    if req.protocolCode != 0 || req.command.None? then req.protocolCode else req.command.value.protocolCode
  }

  function RequeuePayload(req: StatusRequest): seq<bv8> {
    if RawBytes(req.raw) != [] || req.command.None? then RawBytes(req.raw) else RawBytes(req.command.value.payload)
  }

  /** What a requeue request asks to put where; nothing if a part is missing. */
  function RequeueTarget(req: StatusRequest): Option<(string, Message)> {
    if RequeueUuid(req) == "" || RequeueCode(req) == 0 || RequeuePayload(req) == [] then None
    else Some((RequeueUuid(req), Message(req.commandId, RequeueCode(req) % 0x1_0000, RequeuePayload(req))))
  }

  function AfterReport(c: Core, req: StatusRequest): Core {
    if req.commandId <= 0 then c
    else
      match req.report
      case SentReport => AfterMark(c, req.commandId, Sent, "")
      case AckedReport => AfterMark(c, req.commandId, Acked, "")
      case FailedReport => AfterMark(c, req.commandId, Failed, TrimSpace(req.errorText))
      case ExpiredReport => AfterMark(c, req.commandId, Failed, TrimSpace(req.errorText))
      case RequeuedReport =>
        (match RequeueTarget(req)
         case None => c
         case Some(t) => AfterRequeue(c, t.0, t.1))
      case OtherReport => c
  }

  function Reported(r: Result<(), ServiceError>): Result<(), IngressError> {
    if r.Ok? then Ok(()) else Err(Internal(r.error))
  }

  function ReportResult(c: Core, req: StatusRequest): Result<(), IngressError> {
    if req.commandId <= 0 then Err(InvalidRequest)
    else
      match req.report
      case OtherReport => Err(InvalidRequest)
      case RequeuedReport =>
        (match RequeueTarget(req)
         case None => Err(InvalidRequest)
         case Some(t) => Reported(RequeueResult(c, t.0, t.1)))
      case _ => Reported(MarkResult(c, req.commandId))
  }

  class CoreService {
    const downlink: DownlinkCommandService
    const tenants: Tenants

    constructor (downlink: DownlinkCommandService, tenants: Tenants)
      ensures this.downlink == downlink && this.tenants == tenants
    {
      this.downlink := downlink;
      this.tenants := tenants;
    }

    method PullCommands(req: PullRequest) returns (r: Result<seq<CanonicalCommand>, IngressError>)
      modifies downlink.queue
      ensures (downlink.State(), r) == AfterPull(old(downlink.State()), tenants, req)
    {
      hide TrimSpace, AfterPop, ToCanonical, ResolveTenant, IdentityValue, Pulled;
      var uuid := TrimSpace(req.uuid);
      if uuid == "" {
        uuid := req.primary;
      }
      if uuid == "" {
        uuid := FindIdentityValue(req.identities, "uuid");
      }
      if uuid == "" {
        return Err(InvalidRequest);
      }
      var maxCount := if req.maxCount <= 0 then 1 else req.maxCount;
      var commands: seq<CanonicalCommand> := [];
      ghost var start := downlink.State();
      var i := 0;
      while i < maxCount
        invariant 0 <= i <= maxCount
        invariant var (end, all) := Pulled(start, tenants, uuid, maxCount);
                  var (end', more) := Pulled(downlink.State(), tenants, uuid, maxCount - i);
                  end == end' && all == commands + more
      {
        PulledNext(downlink.State(), tenants, uuid, maxCount - i, commands);
        var msg := downlink.PopDownlink(uuid);
        if msg.None? {
          break;
        }
        commands := commands + [ToCanonical(uuid, ResolveTenant(tenants, uuid), msg.value)];
        i := i + 1;
      }
      PulledNothing(downlink.State(), tenants, uuid);
      assert commands + [] == commands;
      assert Pulled(start, tenants, uuid, maxCount) == (downlink.State(), commands);
      return Ok(commands);
    }

    method UpdateCommandStatus(req: StatusRequest) returns (r: Result<(), IngressError>)
      modifies downlink.store, downlink.queue
      ensures downlink.State() == AfterReport(old(downlink.State()), req)
      ensures r == ReportResult(old(downlink.State()), req)
    {
      if req.commandId <= 0 {
        return Err(InvalidRequest);
      }
      var done: Result<(), ServiceError>;
      match req.report {
        case SentReport =>
          done := downlink.MarkSent(req.commandId);
        case AckedReport =>
          done := downlink.MarkAcked(req.commandId);
        case FailedReport =>
          done := downlink.MarkFailed(req.commandId, req.errorText);
        case ExpiredReport =>
          done := downlink.MarkFailed(req.commandId, req.errorText);
        case RequeuedReport =>
          r := Requeue(req);
          return;
        case OtherReport =>
          return Err(InvalidRequest);
      }
      return if done.Ok? then Ok(()) else Err(Internal(done.error));
    }

    method Requeue(req: StatusRequest) returns (r: Result<(), IngressError>)
      modifies downlink.store, downlink.queue
      ensures req.commandId <= 0 || RequeueTarget(req).None? ==>
                r == Err(InvalidRequest) && downlink.State() == old(downlink.State())
      ensures req.commandId > 0 && RequeueTarget(req).Some? ==>
                var (uuid, message) := RequeueTarget(req).value;
                && downlink.State() == AfterRequeue(old(downlink.State()), uuid, message)
                && r == Reported(RequeueResult(old(downlink.State()), uuid, message))
    {
      hide AfterRequeue, RequeueResult, RequeueTarget;
      if req.commandId <= 0 {
        return Err(InvalidRequest);
      }
      var target := ReadRequeue(req);
      if target.None? {
        return Err(InvalidRequest);
      }
      var done := downlink.Requeue(target.value.0, target.value.1);
      return if done.Ok? then Ok(()) else Err(Internal(done.error));
    }
  }

  method ReadRequeue(req: StatusRequest) returns (target: Option<(string, Message)>)
    ensures target == RequeueTarget(req)
  {
    hide RequeueUuid, RequeueCode, RequeuePayload;
    var uuid := ReadUuid(req);
    if uuid == "" {
      return None;
    }
    var code := ReadCode(req);
    if code == 0 {
      return None;
    }
    var payload := ReadPayload(req);
    if |payload| == 0 {
      return None;
    }
    return Some((uuid, Message(req.commandId, code % 0x1_0000, payload)));
  }

  method ReadUuid(req: StatusRequest) returns (uuid: string)
    ensures uuid == RequeueUuid(req)
  {
    assert TrimSpace("") == "";
    hide TrimSpace;
    uuid := TrimSpace(req.uuid);
    if uuid == "" && req.command.Some? {
      uuid := TrimSpace(req.command.value.uuid);
    }
    if uuid == "" && req.target.Some? {
      uuid := TrimSpace(req.target.value.value);
    }
  }

  method ReadCode(req: StatusRequest) returns (code: U32)
    ensures code == RequeueCode(req)
  {
    code := req.protocolCode;
    if code == 0 && req.command.Some? {
      code := req.command.value.protocolCode;
    }
  }

  method ReadPayload(req: StatusRequest) returns (payload: seq<bv8>)
    ensures payload == RequeuePayload(req)
  {
    hide RawBytes;
    payload := RawBytes(req.raw);
    if |payload| == 0 && req.command.Some? {
      payload := RawBytes(req.command.value.payload);
    }
  }
}
