/** Failure-carrying values shared by every module: the source signals errors
    by raising ValueError (backend) or by returning a flag (client); the model
    returns one of these instead. */
module Base {

  datatype Option<+T> = None | Some(value: T) {
    function GetOr(default: T): T
    {
      match this
      case Some(v) => v
      case None => default
    }
  }

  datatype Result<+R, +E> = Ok(value: R) | Err(error: E)

  /** The outcome of an operation that changes state and returns nothing. */
  datatype Outcome<+E> = Pass | Fail(error: E)

  /** How an operation that changes state relates to the function that
      specifies it: on success the state becomes the function's value, on
      failure it stays as it was and the same error is reported. */
  predicate Efeito<S(==), E(==)>(r: Outcome<E>, antes: S, depois: S, spec: Result<S, E>)
  {
    match spec
    case Ok(d) => r == Pass && depois == d
    case Err(e) => r == Fail(e) && depois == antes
  }
}
