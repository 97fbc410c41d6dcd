/** Small failure-carrying datatypes shared by the stores. */
module Wrappers {

  /** A value that may be absent: JavaScript's `undefined`/`null` results. */
  datatype Option<+T> = None | Some(value: T) {
    function GetOr(default: T): T {
      match this
      case Some(v) => v
      case None => default
    }
  }

  /** The outcome of an operation that either completes or throws with a message. */
  datatype Outcome<+E> = Pass | Fail(error: E)

  /** The settled value of an asynchronous server request: its payload, or a
      rejection whose reason may carry an error message. */
  datatype Fetch<+T> = Fetched(value: T) | FetchFailed(message: Option<string>)
}
