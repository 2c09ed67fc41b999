/** Small value wrappers shared by every module of the model. */
module Wrappers {

  /** A value that may be absent: JavaScript's `null` / `undefined`. */
  datatype Option<+T> = None | Some(value: T)

  /**
   * How an awaited call settles: its promise resolves with a value, or it
   * rejects (the callee threw).
   */
  datatype Outcome<+T> = Resolved(value: T) | Rejected

  function Min(a: real, b: real): real { if a <= b then a else b }

  function Max(a: real, b: real): real { if a >= b then a else b }
}
