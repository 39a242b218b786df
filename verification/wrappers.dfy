/**
 Option and Result: the model's stand-ins for Python's `None` and for the
 exceptions a constructor or validator raises.
 */
module Wrappers {

  datatype Option<+T> = None | Some(value: T) {
    predicate IsSome() { Some? }

    function GetOr(default: T): T {
      match this
      case Some(v) => v
      case None => default
    }
  }

  datatype Result<+T> = Ok(value: T) | Err(error: string) {
    predicate IsOk() { Ok? }
  }
}
