/** Small shared datatypes: an optional value, and the outcome of one call to the market-data provider. */
module Wrappers {

  /** Python's `None` or a present value. */
  datatype Option<+T> = None | Some(value: T) {

    /** The value, or `default` when absent (Python's `d.get(key, default)`). */
    function GetOr(default: T): T {
      match this
      case Some(v) => v
      case None => default
    }
  }

  /** One upstream call: the decoded response, or the description of the transport failure (`str(e)`). */
  datatype Upstream<+T> = Ok(value: T) | Failed(message: string)
}
