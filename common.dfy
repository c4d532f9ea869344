/** Small value types shared by the front-end model. */
module Common {

  /** A value that may be absent (JavaScript `null` or `undefined`). */
  datatype Option<+T> = None | Some(value: T)

  /** What awaiting a call on the ledger gateway gives: it resolves to a value or it throws. */
  datatype Probe<+T> = Threw | Returned(value: T)

  /** The three toast kinds the front-end shows. */
  datatype Severity = Success | Error | Info

  /** One toast, in the order it was raised. */
  datatype Notice = Notice(severity: Severity, text: string)
}
