/** Optional values and results shared by the engine model.
    `None` stands for a JavaScript `undefined`; `Result` carries either a value
    or the error a `throw` would raise. */
module Wrappers {

  datatype Option<+T> = None | Some(value: T)

  datatype Result<+R, +E> = Ok(value: R) | Err(error: E)
}
