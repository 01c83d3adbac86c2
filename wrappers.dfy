/** Option and Result, used wherever the Python code returns None or raises. */
module Wrappers {

  datatype Option<+T> = None | Some(value: T) {
    function GetOr(default: T): T {
      match this
      case Some(v) => v
      case None => default
    }
  }

  /** The Python exceptions that the modelled code lets escape or catches. */
  datatype PyError =
    | ValueError     // str.split unpacking, int(), os.putenv
    | DecodeError    // json.load on a file that is not JSON
    | TypeError      // an operation applied to a value of the wrong type
    | OSError        // open() on a path that cannot be written

  datatype Result<+T> = Ok(value: T) | Err(error: PyError)
}
