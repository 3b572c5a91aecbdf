/** Option and Result values for the fallible operations of the planner and
    of the extension-node codec (Rust's `Option` and `Result`). */
module Results {

  datatype Option<+T> = None | Some(value: T)

  datatype Result<+T, +E> = Ok(value: T) | Err(error: E)
}
