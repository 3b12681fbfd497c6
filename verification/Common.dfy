/** The result types the models share. */
module Common {

  datatype Option<+T> = None | Some(value: T)

  /** A value, or the error a throwing function reports. */
  datatype Result<+T> = Success(value: T) | Failure(error: string)
}
