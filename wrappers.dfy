/** Optional values and pass/fail outcomes, used for absent JavaScript
    fields (`undefined`, `null`) and for the outcome of a server call. */
module Wrappers {

  datatype Option<+T> = None | Some(value: T) {
    /** The contained value, or `default` when absent (JavaScript `x ?? d`). */
    function GetOr(default: T): T {
      match this
      case Some(v) => v
      case None => default
    }
  }

  /** The outcome of a request: the server answered with an ok status and a
      payload, or the request failed (non-ok status, network error, thrown
      exception) with a message. */
  datatype Response<+T> = Ok(payload: T) | Failed(message: string)

  /** A request whose handler tells a thrown error apart from an answer:
      `Threw` is a `fetch` that rejected or a body that was not JSON. */
  datatype Fetched<+T> = Received(response: Response<T>) | Threw
}
