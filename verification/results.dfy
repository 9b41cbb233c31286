/** Option and Result types shared by the account and transaction models.
    An `Err` stands for an `ArgumentException` thrown by the C# classes: the
    operation produces no new value and the caller keeps what it had. */
module Results {

  /** A reference that may be null: `None` is the C# `null`. */
  datatype Option<+T> = None | Some(value: T)

  /** The outcome of a validated operation: the new value, or the kind of
      validation failure that was reported. */
  datatype Result<+T, +E> = Ok(value: T) | Err(error: E)
}
