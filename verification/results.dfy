/** Failure-carrying wrappers used to model thrown exceptions and absent values. */
module Results {

  datatype Option<+T> = None | Some(value: T) {

    /** The value, or `default` when there is none (`x || default`, `x ?? default`). */
    function GetOr(default: T): T {
      match this
      case Some(v) => v
      case None => default
    }
  }

  /** `Failure` stands for an exception escaping the modelled code; its
      payload is the text the exception would carry. */
  datatype Result<+R, +E> = Success(value: R) | Failure(error: E)
}
