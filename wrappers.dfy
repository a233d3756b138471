/** Optional values and results. A `Result` carries the text of the exception
    the Python code would raise in its `Err` case. */
module Wrappers {

  datatype Option<+T> = None | Some(value: T)

  datatype Result<+T> = Ok(value: T) | Err(error: string)
}
