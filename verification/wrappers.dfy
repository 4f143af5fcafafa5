/** Failure-carrying values shared by the model's modules: Python's `None`
    and raised exceptions become these. */
module Wrappers {

  datatype Option<+T> = None | Some(value: T)

  datatype Result<+R, +E> = Ok(value: R) | Err(error: E)

  datatype Outcome<+E> = Pass | Fail(error: E)

  /** An argument left out (or given as `None`) falls back to its default;
      one given is used as it is. */
  function OrDefault<T>(p: Option<T>, default: T): (r: T)
    ensures p.Some? ==> r == p.value
    ensures p.None? ==> r == default
  {
    match p
    case Some(v) => v
    case None => default
  }
}
