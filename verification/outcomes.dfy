/** Optional values, the two exception classes of the routing core, and a
    result type that carries either a value or one of those exceptions. */
module Outcomes {

  /** A value that may be absent (Python's `None`). */
  datatype Option<+T> = None | Some(value: T)

  /** The exceptions the core raises (items/models.py:6-11). */
  datatype Failure =
    | InvalidState            // requested status/location is not a legal start state
    | InvalidStateTransition  // move/error/fix/refund not legal from the current state

  /** Either the successor value or the exception the source would raise. */
  datatype Result<+T> = Ok(value: T) | Fail(error: Failure)
}
