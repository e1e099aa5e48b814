/** Option and Result values shared by every module of the storefront model. */
module Common {

  /** A value that may be absent (JavaScript `undefined`/`null` where the
      source only tests for presence). */
  datatype Option<+T> = None | Some(value: T) {
    function GetOr(default: T): T {
      match this
      case Some(v) => v
      case None => default
    }
  }

  /** The outcome of an operation that can fail with a message. */
  datatype Result<+T> = Ok(value: T) | Err(message: string)
}
