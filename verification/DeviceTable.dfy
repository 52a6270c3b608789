/** The devices table: one row per device, with a nullable token that no two rows share. */
module DeviceTable {
  import opened Wrappers
  import opened Text

  datatype AuthStatus = Authenticated | Refuse | Pending | Unknown | Revoked

  /** `info` stands for the descriptive columns, which no operation here looks at. */
  datatype DeviceRow = DeviceRow(tenantId: string, status: AuthStatus, token: Option<string>, info: string)

  type Rows = map<string, DeviceRow>

  datatype TableError = DeviceNotFound | DuplicateDevice | TokenTaken | TokenNotFound

  /** The token column: white space around it is cut off, and nothing is NULL. */
  function NullableToken(token: string): Option<string> {
    if TrimSpace(token) == "" then None else Some(TrimSpace(token))
  }

  /** Another row already has this token. NULLs never clash. */
  predicate Taken(rows: Rows, uuid: string, token: Option<string>) {
    token.Some? && exists u :: u in rows && u != uuid && rows[u].token == token
  }

  function AfterInsert(rows: Rows, uuid: string, row: DeviceRow): Result<Rows, TableError> {
    if uuid in rows then Err(DuplicateDevice)
    else if Taken(rows, uuid, row.token) then Err(TokenTaken)
    else Ok(rows[uuid := row])
  }

  /** Updating a device that is not there updates no row. */
  function AfterWrite(rows: Rows, uuid: string, row: DeviceRow): Result<Rows, TableError> {
    if uuid !in rows then Ok(rows)
    else if Taken(rows, uuid, row.token) then Err(TokenTaken)
    else Ok(rows[uuid := row])
  }

  predicate TokensUnique(rows: Rows) {
    forall u, v :: u in rows && v in rows && rows[u].token.Some? && rows[u].token == rows[v].token ==> u == v
  }

  /** The row that carries a token. */
  predicate Carries(rows: Rows, uuid: string, token: string) {
    uuid in rows && rows[uuid].token == Some(token)
  }

  ghost predicate Known(rows: Rows, token: string) {
    exists u :: Carries(rows, u, token)
  }

  class DeviceRepository {
    var rows: Rows
    /** What the metrics and logs tables hold of each device. */
    var metrics: map<string, seq<string>>
    var logs: map<string, seq<string>>

    constructor ()
      ensures rows == map[] && metrics == map[] && logs == map[]
    {
      rows, metrics, logs := map[], map[], map[];
    }

    method InitDevice(uuid: string, row: DeviceRow) returns (r: Result<(), TableError>)
      modifies this`rows
      ensures match AfterInsert(old(rows), uuid, row)
              case Ok(rows') => r == Ok(()) && rows == rows'
              case Err(e) => r == Err(e) && rows == old(rows)
    {
      if uuid in rows {
        return Err(DuplicateDevice);
      }
      if Taken(rows, uuid, row.token) {
        return Err(TokenTaken);
      }
      rows := rows[uuid := row];
      return Ok(());
    }

    method LoadConfig(uuid: string) returns (r: Result<DeviceRow, TableError>)
      ensures r == if uuid in rows then Ok(rows[uuid]) else Err(DeviceNotFound)
    {
      r := if uuid in rows then Ok(rows[uuid]) else Err(DeviceNotFound);
    }

    method SaveMetadata(uuid: string, row: DeviceRow) returns (r: Result<(), TableError>)
      modifies this`rows
      ensures match AfterWrite(old(rows), uuid, row)
              case Ok(rows') => r == Ok(()) && rows == rows'
              case Err(e) => r == Err(e) && rows == old(rows)
    {
      if uuid in rows {
        if Taken(rows, uuid, row.token) {
          return Err(TokenTaken);
        }
        rows := rows[uuid := row];
      }
      return Ok(());
    }

    method UpdateToken(uuid: string, token: string) returns (r: Result<(), TableError>)
      modifies this`rows
      ensures if uuid !in old(rows) then r == Err(DeviceNotFound) && rows == old(rows)
              else match AfterWrite(old(rows), uuid, old(rows)[uuid].(token := NullableToken(token)))
                   case Ok(rows') => r == Ok(()) && rows == rows'
                   case Err(e) => r == Err(e) && rows == old(rows)
    {
      if uuid !in rows {
        return Err(DeviceNotFound);
      }
      r := SaveMetadata(uuid, rows[uuid].(token := NullableToken(token)));
    }

    /** The device that has the token; the column being unique, there is at most one. */
    method GetDeviceByToken(token: string) returns (r: Result<(string, AuthStatus), TableError>)
      ensures r.Ok? ==> Carries(rows, r.value.0, token) && r.value.1 == rows[r.value.0].status
      ensures r.Err? ==> r.error == TokenNotFound && !Known(rows, token)
    {
      var remaining := rows.Keys;
      while remaining != {}
        invariant remaining <= rows.Keys
        invariant forall u :: u in rows && u !in remaining ==> rows[u].token != Some(token)
        decreases remaining
      {
        var uuid :| uuid in remaining;
        if rows[uuid].token == Some(token) {
          return Ok((uuid, rows[uuid].status));
        }
        remaining := remaining - {uuid};
      }
      return Err(TokenNotFound);
    }

    /** In one transaction: only a device that is there takes its measurements and logs with it. */
    method DestroyDevice(uuid: string) returns (r: Result<(), TableError>)
      modifies this
      ensures r == if uuid in old(rows) then Ok(()) else Err(DeviceNotFound)
      ensures rows == old(rows) - {uuid}
      ensures r.Ok? ==> metrics == old(metrics) - {uuid} && logs == old(logs) - {uuid}
      ensures r.Err? ==> metrics == old(metrics) && logs == old(logs)
    {
      if uuid !in rows {
        assert rows - {uuid} == rows;
        return Err(DeviceNotFound);
      }
      rows := rows - {uuid};
      metrics := metrics - {uuid};
      logs := logs - {uuid};
      return Ok(());
    }
  }
}
