/** Option and Result types used for Java's null values and exceptions. */
module Results {

  datatype Option<+T> = None | Some(value: T)

  /** The exceptions the modelled code throws or lets escape. */
  datatype Error =
    | NullPointer                    // Objects.requireNonNull or a dereference of null
    | IllegalArgument(reason: string)
    | IllegalState(reason: string)
    | ClassCast                      // Document.getString on a non-string value
    | Runtime(reason: string)

  datatype Result<+T> = Ok(value: T) | Err(error: Error)
}
