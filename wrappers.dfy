/** Option and Result, the two failure-carrying types the node's handlers return. */
module Wrappers {

  datatype Option<+T> = None | Some(value: T)

  /** The error kinds the core raises or passes on; the message strings are dropped. */
  datatype Error =
    | InvalidOperation      // Error::InvalidOperation: a lifecycle event the current stage cannot take
    | Logic                 // Error::Logic: a duty addressed to a level the node is not at
    | Routing(code: nat)    // a failure reported by the routing layer, passed on unchanged

  datatype Result<+T> = Ok(value: T) | Err(error: Error)
}
