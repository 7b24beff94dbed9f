/** JavaScript values the model needs beyond Dafny's own: a value that may be
    `undefined`/`null`, and the outcome of an awaited call. */
module JsValues {

  /** A value that may be absent (`undefined` or `null`). */
  datatype Option<+T> = None | Some(value: T) {
    /** The value, or `default` when it is absent. */
    function GetOr(default: T): T {
      match this
      case Some(v) => v
      case None => default
    }
  }

  /** The settled outcome of an awaited call: resolved with a value or rejected with an error. */
  datatype Result<+T, +E> = Ok(value: T) | Err(error: E)
}
