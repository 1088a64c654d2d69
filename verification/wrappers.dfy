/** Option and Result, the two failure-carrying datatypes the rest of the model uses
    for Python's `None` and for the exceptions the program raises. */
module Wrappers {

  datatype Option<T> = None | Some(value: T) {
    /** The carried value, or `default` for None. */
    function GetOr(default: T): T {
      if Some? then value else default
    }
  }

  datatype Result<T, E> = Ok(value: T) | Err(error: E)
}
