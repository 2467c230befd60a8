/** Failure-compatible result types shared by the whole model. */
module Options {
  datatype Option<+T> = None | Some(value: T)

  /** The value a method returns, or the reason it raised instead. */
  datatype Result<+T, +E> = Success(value: T) | Failure(error: E)
}
