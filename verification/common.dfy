/** Failure-carrying wrappers shared by the model: Rust's `Option` and
    `anyhow::Result`, where an error is the context message it was wrapped with. */
module Common {

  datatype Option<+T> = None | Some(value: T)

  datatype Result<+T> = Ok(value: T) | Err(message: string)
}
