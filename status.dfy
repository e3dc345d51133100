/** OFX status codes. Both the plugin's main entry and the host's suite
    functions return a C `int`; a plugin may return any value, so a status
    is an Int32 and the named codes are constants. */
module Status {
  import opened Machine

  type OfxStatus = Int32

  const OK: OfxStatus := 0
  const Failed: OfxStatus := 1
  const ErrFatal: OfxStatus := 2
  const ErrUnknown: OfxStatus := 3
  const ErrMissingHostFeature: OfxStatus := 4
  const ErrUnsupported: OfxStatus := 5
  const ErrExists: OfxStatus := 6
  const ErrFormat: OfxStatus := 7
  const ErrMemory: OfxStatus := 8
  const ErrBadHandle: OfxStatus := 9
  const ErrBadIndex: OfxStatus := 10
  const ErrValue: OfxStatus := 11
  const ReplyYes: OfxStatus := 12
  const ReplyNo: OfxStatus := 13
  const ReplyDefault: OfxStatus := 14

  /** Whether an action's status lets the host carry on: OK, or
      ReplyDefault ("the host should do its default"). */
  predicate Succeeded(s: OfxStatus) {
    s == OK || s == ReplyDefault
  }

  /** How a host operation can fail: with an OFX status (an `OfxError`
      value or a suite function's return code), or with a Rust panic,
      which ends the host process. */
  datatype Failure = StatusError(status: OfxStatus) | Panic(reason: string)

  /** The panic of `Option::unwrap` on `None`. */
  const UnwrapNone: Failure := Panic("called `Option::unwrap()` on a `None` value")
}
