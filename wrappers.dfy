/** Rust's `Option` and `Result`, as the rest of the model uses them. */
module Wrappers {

  datatype Option<+T> = None | Some(value: T)

  /** `Result<T, E>`: `Ok` carries the value, `Err` the error. */
  datatype Result<+T, +E> = Ok(value: T) | Err(error: E)

  /** `Result::ok`: keeps the value and drops the error. */
  function OkValue<T, E>(r: Result<T, E>): (v: Option<T>)
    ensures v.Some? <==> r.Ok?
    ensures v.Some? ==> v.value == r.value
  {
    match r
    case Ok(x) => Some(x)
    case Err(_) => None
  }
}
