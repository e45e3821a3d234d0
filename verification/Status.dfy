/** PNIO status words (crates/pnio/src/cm/status.rs) and the reasons an AR is
    aborted for (crates/pnio/src/cm/ar.rs). */
module Status {
  import opened Wire

  type PnioStatus = u32

  const OK: PnioStatus := 0

  function StatusWord(code: u8, decode: u8, code1: u8, code2: u8): PnioStatus {
    FromBe32(code, decode, code1, code2)
  }

  const AR_BLOCK: u8 := 1
  const IOCR_BLOCK: u8 := 2
  const EXPECTED_SUBMODULE: u8 := 3
  const ALARM_CR: u8 := 4

  function ConnectReject(block: u8, field: u8): PnioStatus { StatusWord(0xDB, 0x81, block, field) }

  const CONNECT_AR_ALREADY_EXISTS: PnioStatus := StatusWord(0xDB, 0x81, 0x3d, 0x0e)
  const WRITE_INDEX_UNSUPPORTED: PnioStatus := StatusWord(0xDF, 0x80, 0xB0, 0x00)
  const WRITE_WRONG_AR: PnioStatus := StatusWord(0xDF, 0x81, 0x3d, 0x03)
  const WRITE_RESOURCE_UNAVAILABLE: PnioStatus := StatusWord(0xDF, 0x80, 0xC3, 0x00)
  const CONTROL_WRONG_STATE: PnioStatus := StatusWord(0xDD, 0x81, 0x3d, 0x03)
  const SERVICE_UNSUPPORTED: PnioStatus := StatusWord(0x81, 0x81, 0x05, 0x00)
  const READ_INDEX_UNSUPPORTED: PnioStatus := StatusWord(0xDE, 0x80, 0xB0, 0x00)
  const READ_WRONG_AR: PnioStatus := StatusWord(0xDE, 0x81, 0x3d, 0x03)

  datatype AbortReason =
    | ControllerRelease
    | AppReadyFailed
    | AppReadyRejected(status: PnioStatus)
    | ActivityTimeout
    | ControllerReconnect
    | RtWatchdog
    | External
    | ControllerErrRta(status: PnioStatus)
    | AlarmSendFailed
    | RtSocket
    | Shutdown
}
