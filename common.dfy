/** Values shared by the frontend and the backend models.
    `Option` stands for a JavaScript `undefined`/`null` or a Java `null`;
    `Result` for a call that either returns a value or throws. */
module Common {

  datatype Option<+T> = None | Some(value: T)

  datatype Result<+T, +E> = Ok(value: T) | Err(error: E)
}
