/** Optional values and results with an error, as the parser's `Option` and a
    recoverable stand-in for its one panic. */
module Options {

  datatype Option<+T> = None | Some(value: T)

  datatype Result<+T, +E> = Ok(value: T) | Err(error: E)
}
