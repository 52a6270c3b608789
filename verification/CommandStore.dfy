/** The device_commands table: one row per command ever created. */
module CommandStore {
  import opened Wrappers
  import opened GosterWy
  import opened Text

  datatype CommandStatus = Queued | Sent | Acked | Failed

  datatype CommandRow = CommandRow(
    tenantId: string, uuid: string, cmdId: CmdId, command: string, payload: seq<bv8>,
    status: CommandStatus, errorText: string, executed: bool)

  /** Rows by id; ids come from a counter that starts at 1 and never goes back. */
  datatype Table = Table(rows: map<int, CommandRow>, nextId: int)

  const EMPTY_TABLE := Table(map[], 1)
  const DEFAULT_TENANT: string := "tenant_legacy"

  datatype StoreError = UuidRequired | CommandRequired | DeviceNotFound | TenantMismatch | InvalidId | CommandNotFound

  function NormalizeTenant(tenantId: string): string {
    if TrimSpace(tenantId) == "" then DEFAULT_TENANT else TrimSpace(tenantId)
  }

  /** Why a command may not be created; `owner` is the tenant the device belongs to, if it exists. */
  function CreateError(tenantId: string, uuid: string, command: string, owner: Option<string>): Option<StoreError> {
    if TrimSpace(uuid) == "" then Some(UuidRequired)
    else if TrimSpace(ToLower(command)) == "" then Some(CommandRequired)
    else if owner.None? then Some(DeviceNotFound)
    else if NormalizeTenant(owner.value) != NormalizeTenant(tenantId) then Some(TenantMismatch)
    else None
  }

  function NewRow(tenantId: string, uuid: string, cmdId: CmdId, command: string, payload: seq<bv8>): CommandRow {
    CommandRow(NormalizeTenant(tenantId), TrimSpace(uuid), cmdId, TrimSpace(ToLower(command)), payload, Queued, "",
               false)
  }

  function Inserted(t: Table, row: CommandRow): Table {
    Table(t.rows[t.nextId := row], t.nextId + 1)
  }

  predicate IsFinal(status: CommandStatus) {
    status == Acked || status == Failed
  }

  /** The row update; note that it looks at no earlier status. */
  function WithStatus(row: CommandRow, status: CommandStatus, errorText: string): CommandRow {
    row.(status := status, errorText := TrimSpace(errorText), executed := row.executed || IsFinal(status))
  }

  function StatusError(t: Table, id: int): Option<StoreError> {
    if id <= 0 then Some(InvalidId) else if id !in t.rows then Some(CommandNotFound) else None
  }

  function Updated(t: Table, id: int, status: CommandStatus, errorText: string): Table {
    if StatusError(t, id).Some? then t
    else t.(rows := t.rows[id := WithStatus(t.rows[id], status, errorText)])
  }

  function ResultOf(e: Option<StoreError>): Result<(), StoreError> {
    if e.Some? then Err(e.value) else Ok(())
  }

  class CommandRepository {
    var rows: map<int, CommandRow>
    var nextId: int

    constructor ()
      ensures State() == EMPTY_TABLE
    {
      rows := map[];
      nextId := 1;
    }

    function State(): Table
      reads this
    {
      Table(rows, nextId)
    }

    method CreateDeviceCommand(tenantId: string, uuid: string, cmdId: CmdId, command: string, payload: seq<bv8>,
                               owner: Option<string>)
      returns (r: Result<int, StoreError>)
      modifies this
      ensures match CreateError(tenantId, uuid, command, owner)
              case Some(e) => r == Err(e) && State() == old(State())
              case None =>
                && r == Ok(old(nextId))
                && State() == Inserted(old(State()), NewRow(tenantId, uuid, cmdId, command, payload))
    {
      hide TrimSpace, ToLower, NormalizeTenant;
      var tenant := NormalizeTenant(tenantId);
      var device := TrimSpace(uuid);
      var name := TrimSpace(ToLower(command));
      if device == "" {
        return Err(UuidRequired);
      }
      if name == "" {
        return Err(CommandRequired);
      }
      if owner.None? {
        return Err(DeviceNotFound);
      }
      if NormalizeTenant(owner.value) != tenant {
        return Err(TenantMismatch);
      }
      var id := nextId;
      rows := rows[id := CommandRow(tenant, device, cmdId, name, payload, Queued, "", false)];
      nextId := nextId + 1;
      return Ok(id);
    }

    method UpdateDeviceCommandStatus(id: int, status: CommandStatus, errorText: string)
      returns (r: Result<(), StoreError>)
      modifies this
      ensures r == ResultOf(StatusError(old(State()), id))
      ensures State() == Updated(old(State()), id, status, errorText)
    {
      hide TrimSpace;
      if id <= 0 {
        return Err(InvalidId);
      }
      if id !in rows {
        return Err(CommandNotFound);
      }
      var row := rows[id];
      var executed := row.executed;
      if status == Acked || status == Failed {
        executed := true;
      }
      rows := rows[id := row.(status := status, errorText := TrimSpace(errorText), executed := executed)];
      return Ok(());
    }
  }
}
