/**
 The few pieces of the host language that every other module of this model
 needs: Python's `None` (as `Option`), an outcome that is either a value or a
 raised exception, and the exception kinds the modelled code raises.
 */
module Python {

  /** `None` stands for Python's `None`; `Some(v)` for any other object. */
  datatype Option<+T> = None | Some(value: T) {
    function GetOr(default: T): T {
      match this
      case Some(v) => v
      case None => default
    }
  }

  /** The exceptions raised by the modelled code, each with its message. */
  datatype PyError =
    | TypeError(msg: string)
    | ValueError(msg: string)
    | AttributeError(msg: string)
    | AssertionError(msg: string)

  /** Either the value a call returned or the exception it raised. */
  datatype Result<+T> = Ok(value: T) | Err(error: PyError) {
    predicate IsFailure() {
      Err?
    }

    function PropagateFailure<U>(): Result<U>
      requires Err?
    {
      Err(error)
    }

    function Extract(): T
      requires Ok?
    {
      value
    }
  }
}
