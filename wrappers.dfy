/** Option and Result: the two wrappers the contracts' Rust code returns and matches on. */
module Wrappers {
  datatype Option<T> = None | Some(value: T)
  {
    /** `unwrap_or`: the value if present, otherwise `default`. */
    function UnwrapOr(default: T): T
    {
      if Some? then value else default
    }
  }

  /** `Result<T, E>`; the three members below let `:-` play the part of Rust's `?`. */
  datatype Result<T, E> = Ok(value: T) | Err(error: E)
  {
    predicate IsFailure() { Err? }

    function PropagateFailure<U>(): Result<U, E>
      requires Err?
    {
      Err(error)
    }

    function Extract(): T
      requires Ok?
    {
      value
    }
  }
}
