/** The canonical form of a command turned into the adapter's own. */
module Normalizer {
  import opened Wrappers
  import opened Commands

  function RawContentType(raw: Option<RawPayload>): string {
    match raw
    case None => ""
    case Some(p) =>
      if p.body != [] || p.contentType != "" then p.contentType
      else if p.text != [] then "text/plain"
      else if p.json.Some? then "application/json"
      else ""
  }

  function NormalizeCommand(c: CanonicalCommand): AdapterCommand {
    AdapterCommand(
      c.commandId, c.commandUuid, c.tenantId, c.uuid, c.operation, c.protocolCode,
      c.target.GetOr(Identity("", "")), RawBytes(c.payload), RawContentType(c.payload), c.commandCodeOption)
  }
}
