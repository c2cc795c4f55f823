/** Shared result types. The service signals fatal conditions with a `Panic`
    exception and invalid input with `ValueError`; Python's `KeyError` and
    `UnboundLocalError` also escape from the selection routines. Each becomes a
    variant of `Error`, carried by a `Result`. */
module Wrappers {

  datatype Option<+T> = None | Some(value: T)

  datatype Error =
    | ValueError(msg: string)        // rejected input (schema validators, numpy, sklearn)
    | Panic(msg: string)             // Panic.unreachable / Panic.todo
    | KeyError(key: string)          // dict lookup of a missing key
    | UnboundLocal(name: string)     // read of a local that was never assigned
    | FitError(model: string)        // an uncaught exception raised by a regressor
    | ValidationError(fields: seq<string>)  // pydantic: the request fields that failed

  datatype Result<+T> = Success(value: T) | Failure(error: Error)

  /** A float that may be one of numpy's infinities, as used for the initial
      "best so far" values of the selection loops. */
  datatype ExtReal = NegInf | Fin(r: real) | PosInf

  /** `r > e` for a finite `r`. */
  predicate Above(r: real, e: ExtReal)
  {
    e.NegInf? || (e.Fin? && r > e.r)
  }

  /** `r < e` for a finite `r`. */
  predicate Below(r: real, e: ExtReal)
  {
    e.PosInf? || (e.Fin? && r < e.r)
  }

  function Abs(x: real): (r: real)
    ensures r >= 0.0 && (r == x || r == -x)
  {
    if x < 0.0 then -x else x
  }
}
