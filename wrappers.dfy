/** Option and Result, the stock wrappers used across the model. */
module Wrappers {

  datatype Option<+T> = None | Some(value: T)

  /** Success carries the value a JavaScript function returns; Failure the error it throws. */
  datatype Result<+T, +E> = Success(value: T) | Failure(error: E) {
    function ToOption(): (o: Option<T>)
      ensures o.Some? <==> this.Success?
    {
      match this
      case Success(v) => Some(v)
      case Failure(_) => None
    }
  }

  /** The outcome of a function that returns nothing or throws. */
  datatype Outcome<+E> = Pass | Fail(error: E)
}
