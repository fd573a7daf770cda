/** What the modules share: optional values and the ways a call can go. */
module Common {

  datatype Option<+T> = None | Some(value: T)

  /** A call succeeds, takes effect but reports an error, or has no effect and reports an error. */
  datatype Outcome = Done | Lost | Failed
}
