// The values a connection reports: close metadata and driver errors
// (src/error.rs), and the verdict on a peer close frame (src/driver.rs).
module Errors {

  datatype Option<+T> = None | Some(value: T)

  type u16 = x: int | 0 <= x < 0x1_0000

  datatype CloseInfo = CloseInfo(code: Option<u16>, initiatedByLocal: bool, reason: string)

  datatype DriverError =
    | ClosedError(info: CloseInfo)
    | ClosedOk(info: CloseInfo)
    | Concurrency(message: string)
    | ConnectionFailed(message: string)
    | InvalidUri(message: string)
    | ResourceLimit(message: string)
    | Transport(message: string)

  datatype CloseFrame = CloseFrame(code: u16, reason: string)

  // What a call hands back when it has no value to return.
  datatype Outcome = Success | Failure(error: DriverError)

  const NORMAL: u16 := 1000
  const AWAY: u16 := 1001

  const LOCAL_NORMAL := CloseInfo(Some(NORMAL), true, "")

  // A close frame is clean when it carries no code, or one of the two codes
  // that section 7.4.1 of RFC 6455 gives to an orderly shutdown.
  predicate CleanFrame(frame: Option<CloseFrame>) {
    frame.Some? ==> frame.value.code == NORMAL || frame.value.code == AWAY
  }

  function ClassifyClose(frame: Option<CloseFrame>, initiatedByLocal: bool): (outcome: DriverError)
    ensures outcome.ClosedOk? <==> CleanFrame(frame)
    ensures outcome.ClosedOk? || outcome.ClosedError?
    ensures outcome.info.initiatedByLocal == initiatedByLocal
    ensures outcome.info.code.None? <==> frame.None?
    ensures frame.Some? ==> outcome.info.code == Some(frame.value.code) && outcome.info.reason == frame.value.reason
  {
    match frame
    case None => ClosedOk(CloseInfo(None, initiatedByLocal, ""))
    case Some(f) =>
      var info := CloseInfo(Some(f.code), initiatedByLocal, f.reason);
      if f.code == NORMAL || f.code == AWAY then ClosedOk(info) else ClosedError(info)
  }

  // What close() makes of the terminal value.
  function CloseResult(terminal: DriverError): (result: Outcome)
    ensures result.Success? <==> terminal.ClosedOk?
    ensures result.Failure? ==> result.error == terminal
  {
    if terminal.ClosedOk? then Success else Failure(terminal)
  }
}
