/** Failure-carrying results shared by every module of the model.
    A Python function that either returns a value or raises is modelled as a
    function or method returning `Result`, with the raised exception as the
    error value. */
module Wrappers {

  datatype Option<+T> = None | Some(value: T)

  datatype Result<+T, +E> = Ok(value: T) | Err(error: E) {
    predicate IsFailure() { Err? }
  }

  /** A Python value is "truthy" for optional strings when it is present and
      non-empty (`None` and `""` are both falsy). */
  predicate Truthy(s: Option<string>)
  {
    s.Some? && s.value != ""
  }
}
