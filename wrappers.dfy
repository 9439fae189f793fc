/** Small value wrappers shared by the connections model. */
module Wrappers {

  /** Swift's `Optional`. */
  datatype Option<+T> = None | Some(value: T) {
    /** The `??` operator: the wrapped value, or `default` when absent. */
    function GetOr(default: T): T {
      match this
      case Some(v) => v
      case None => default
    }
  }

  /** The outcome of one gateway request: a decoded result, or the
      failure's `localizedDescription`. */
  datatype Reply<+T> = Ok(value: T) | Failed(message: string)
}
