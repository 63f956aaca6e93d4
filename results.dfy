/** The outcome of an operation that either yields a value or stops with one of
    the source's fatal checks (a failed CHECK or LOG(FATAL)). */
module Results {

  datatype Option<+T> = None | Some(value: T)

  datatype Result<+T, +E> = Ok(value: T) | Err(error: E)
}
