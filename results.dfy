/** Success-or-failure wrappers shared by the two tools. */
module Results {

  /** An optional value; `None` stands for a statistic that is undefined (NaN in the source). */
  datatype Option<+T> = None | Some(value: T)

  /** The outcome of a tool call: a value, or the kind of exception the call raises. */
  datatype Result<+T, +E> = Success(value: T) | Failure(error: E)
}
