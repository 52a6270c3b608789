/** The command shapes exchanged between the core and its protocol adapters. */
module Commands {
  import opened Wrappers
  import opened GosterWy

  datatype Identity = Identity(kind: string, value: string)

  /** Text and marshalled JSON are given as their bytes. */
  datatype RawPayload = RawPayload(contentType: string, body: seq<bv8>, text: seq<bv8>, json: Option<seq<bv8>>)

  /** The command as the core sends it. `commandCodeOption` is the number under "command_code", if any. */
  datatype CanonicalCommand = CanonicalCommand(
    commandId: int, commandUuid: string, tenantId: string, uuid: string, target: Option<Identity>,
    operation: string, protocolCode: U32, payload: Option<RawPayload>, commandCodeOption: Option<nat>)

  /** The command as an adapter handles it. */
  datatype AdapterCommand = AdapterCommand(
    commandId: int, commandUuid: string, tenantId: string, uuid: string, operation: string,
    protocolCode: U32, target: Identity, payload: seq<bv8>, contentType: string, commandCodeOption: Option<nat>)

  datatype Report = SentReport | AckedReport | FailedReport | ExpiredReport | RequeuedReport | OtherReport

  datatype StatusRequest = StatusRequest(
    commandId: int, report: Report, uuid: string, target: Option<Identity>, protocolCode: U32,
    command: Option<CanonicalCommand>, raw: Option<RawPayload>, errorText: string)

  /** The first form of a raw payload that is present. */
  function RawBytes(raw: Option<RawPayload>): seq<bv8> {
    match raw
    case None => []
    case Some(p) =>
      if p.body != [] then p.body
      else if p.text != [] then p.text
      else p.json.GetOr([])
  }
}
