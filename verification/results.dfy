/** Outcome types shared by the location resolver: an optional value, the
    tool's error type (`MainError`, reduced to its message) and the
    `Result<_, MainError>` every resolver returns. */
module Results {

  datatype Option<T> = None | Some(value: T)

  /** The tool's error, built in the resolver from a fixed message string. */
  datatype MainError = MainError(message: string)

  datatype Result<T> = Ok(value: T) | Err(error: MainError)
}
