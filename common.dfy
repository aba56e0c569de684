/** Small wrapper datatypes shared by the modules of the model. */
module Common {

  /** Python's `Optional[T]`: either `None` or a value. */
  datatype Option<T> = None | Some(value: T) {
    function GetOr(default: T): T {
      match this
      case Some(v) => v
      case None => default
    }
  }

  /**
   * The result of calling a collaborator that may raise: either the value it
   * returned, or the message `str(e)` of the exception it raised.
   */
  datatype Outcome<T> = Ok(value: T) | Raised(message: string)

  /** A Python string is truthy iff it is non-empty; `None` is falsy. */
  predicate Truthy(s: Option<string>) {
    s.Some? && s.value != ""
  }
}
