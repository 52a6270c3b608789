/** The path of one message through the core and an adapter: what comes back is what left. */
module RequeueIdentity {
  import opened Wrappers
  import opened GosterWy
  import opened Text
  import opened Commands
  import opened CommandQueue
  import opened CoreIngress
  import opened Normalizer
  import opened TcpSession

  /** A message popped from `uuid` as the adapter sees it. */
  function Image(uuid: string, tenantId: string, m: Message): AdapterCommand {
    NormalizeCommand(ToCanonical(uuid, tenantId, m))
  }

  /** The adapter maps a popped message to its own command code, or to none if the core never had a downlink code. */
  lemma ImageResolves(uuid: string, tenantId: string, m: Message)
    ensures ResolveDownlinkCmd(Image(uuid, tenantId, m)) == if IsDownlinkCommand(m.cmdId) then Some(m.cmdId) else None
    ensures Image(uuid, tenantId, m).payload == m.payload
  {
    assert CommandByOperation("unknown") == None;
  }

  /**
   * Requeue identity: whatever session reports it, and whatever device that session is bound to by
   * then, a popped downlink message asks to go back to the queue it came from as the identical
   * message, exactly if its payload is nonempty. With an empty payload the request is refused.
   */
  lemma RequeueRestoresMessage(s: Session, uuid: string, tenantId: string, m: Message, errorText: string)
    requires Trimmed(uuid) && uuid != "" && IsDownlinkCommand(m.cmdId)
    ensures RequeueTarget(RequeueRequest(s, Image(uuid, tenantId, m), errorText))
         == if m.payload != [] then Some((uuid, m)) else None
  {
    hide RequeueRequest, RequeueUuid, RequeueCode, RequeuePayload, Image;
    RequeueParts(s, uuid, tenantId, m, errorText);
  }

  lemma RequeueParts(s: Session, uuid: string, tenantId: string, m: Message, errorText: string)
    requires Trimmed(uuid) && uuid != "" && IsDownlinkCommand(m.cmdId)
    ensures var req := RequeueRequest(s, Image(uuid, tenantId, m), errorText);
            && req.commandId == m.commandId
            && RequeueUuid(req) == uuid
            && RequeueCode(req) == m.cmdId
            && RequeuePayload(req) == m.payload
  {
    ImageResolves(uuid, tenantId, m);
    TrimOfTrimmed(uuid);
    hide TrimSpace, OperationName, ResolveDownlinkCmd;
    var c := Image(uuid, tenantId, m);
    assert c.uuid == uuid && c.protocolCode == m.cmdId && c.commandId == m.commandId;
    var req := RequeueRequest(s, c, errorText);
    assert req.uuid == uuid;
    assert req.command == Some(FromAdapter(c, m.cmdId)) && req.protocolCode == 0 && req.raw == None;
    assert RawBytes(FromAdapter(c, m.cmdId).payload) == m.payload;
  }

  /** The uuid a session pulls with is trimmed unless nothing but white space is bound. */
  lemma PullUuidIsTrimmed(s: Session)
    requires s.identity == Identity("uuid", s.uuid)
    ensures TrimSpace(PullUuid(PullRequestOf(s))) != "" ==>
              Trimmed(PullUuid(PullRequestOf(s))) && PullUuid(PullRequestOf(s)) == TrimSpace(s.uuid)
  {
    TrimIsTrimmed(s.uuid);
  }
}
