/**
 * Small value types shared by every component of the model.
 */
module Common {

  /** A value that may be missing (`undefined` or `null` in the client). */
  datatype Option<+T> = None | Some(value: T)

  /**
   * The outcome of one network round trip, handed to the model as a parameter:
   * either the request failed (rejected, non-2xx status, unreadable body) or it
   * produced a value.
   */
  datatype Fetch<+T> = Failed | Ok(value: T)
}
