/** Constants and command tables of the Goster-WY protocol. */
module GosterWy {
  import opened Wrappers

  type U8 = x: nat | x < 0x100
  type U16 = x: nat | x < 0x1_0000
  type U32 = x: nat | x < 0x1_0000_0000
  type U64 = x: nat | x < 0x1_0000_0000_0000_0000

  type CmdId = U16

  const MAGIC_NUMBER: U16 := 0x5759
  const PROTOCOL_VERSION: bv8 := 0x01
  const HEADER_SIZE: nat := 32
  const FOOTER_SIZE: nat := 16
  const MAX_PAYLOAD_SIZE: nat := 64 * 1024

  const HANDSHAKE_INIT: CmdId := 0x0001
  const HANDSHAKE_RESP: CmdId := 0x0002
  const AUTH_VERIFY: CmdId := 0x0003
  const AUTH_ACK: CmdId := 0x0004
  const DEVICE_REGISTER: CmdId := 0x0005
  const ERROR_REPORT: CmdId := 0x00FF

  const METRICS_REPORT: CmdId := 0x0101
  const LOG_REPORT: CmdId := 0x0102
  const EVENT_REPORT: CmdId := 0x0103
  const HEARTBEAT: CmdId := 0x0104
  const KEY_EXCHANGE_UPLINK: CmdId := 0x0105

  const CONFIG_PUSH: CmdId := 0x0201
  const OTA_DATA: CmdId := 0x0202
  const ACTION_EXEC: CmdId := 0x0203
  const SCREEN_WY: CmdId := 0x0204
  const KEY_EXCHANGE_DOWNLINK: CmdId := 0x0205

  predicate IsDownlinkCommand(cmd: CmdId) {
    cmd == CONFIG_PUSH || cmd == OTA_DATA || cmd == ACTION_EXEC || cmd == SCREEN_WY
  }

  predicate IsReport(cmd: CmdId) {
    cmd == METRICS_REPORT || cmd == LOG_REPORT || cmd == EVENT_REPORT || cmd == HEARTBEAT
  }

  function CommandByOperation(operation: string): Option<CmdId> {
    if operation == "config_push" || operation == "config" || operation == "set_config" then Some(CONFIG_PUSH)
    else if operation == "ota_data" || operation == "ota" then Some(OTA_DATA)
    else if operation == "action_exec" || operation == "action" || operation == "exec" then Some(ACTION_EXEC)
    else if operation == "screen_wy" || operation == "screen" then Some(SCREEN_WY)
    else None
  }

  const FROM_DEVICE: bv8 := 0x01
  const FROM_SERVER: bv8 := 0x02

  /** The first nonce byte: who is speaking, judged from the command and its ack flag. */
  function NonceDirection(cmd: CmdId, isAck: bool): bv8 {
    if cmd == HANDSHAKE_INIT || cmd == AUTH_VERIFY || cmd == DEVICE_REGISTER || cmd == KEY_EXCHANGE_UPLINK then
      FROM_DEVICE
    else if cmd == HANDSHAKE_RESP || cmd == AUTH_ACK || cmd == KEY_EXCHANGE_DOWNLINK then
      FROM_SERVER
    else if IsReport(cmd) || cmd == ERROR_REPORT then
      if isAck then FROM_SERVER else FROM_DEVICE
    else if IsDownlinkCommand(cmd) then
      if isAck then FROM_DEVICE else FROM_SERVER
    else
      if isAck then FROM_SERVER else FROM_DEVICE
  }
}
