/** Small value wrappers shared by every component of the model. */
module Wrappers {

  /** A JavaScript value that may be `undefined`/`null` (None) or present (Some). */
  datatype Option<+T> = None | Some(value: T) {

    /** The wrapped value, or `default` when absent (JavaScript default parameters). */
    function GetOr(default: T): T
    {
      match this
      case Some(v) => v
      case None => default
    }
  }

  /**
   * The answer of the remote CRUD API to one request, as seen by a store:
   * the promise resolves with a payload, or it rejects. The HTTP client is
   * not modelled; every call site takes one of these as an oracle.
   */
  datatype Reply<+T> = Success(payload: T) | Failure
}
