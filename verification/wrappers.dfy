/** Option and Result types shared by every module of the model, and the
    Python exceptions that the modelled code can raise or catch. */
module Wrappers {

  datatype Option<+T> = None | Some(value: T) {
    function GetOr(default: T): T {
      match this
      case Some(v) => v
      case None => default
    }
  }

  /** The exceptions that matter to the modelled code. `Raised` stands for an
      exception thrown by a collaborator outside the model (LLM, database). */
  datatype PyError =
    | TypeError
    | ZeroDivisionError
    | AttributeError
    | IndexError
    | KeyError(key: string)
    | IntKeyError(index: int)
    | NegativeWeight(field: string)
    | NoValidScores
    | ValidationError(field: string)
    | ValidationErrors(fields: seq<string>)
    | Raised

  datatype Result<+T> = Ok(value: T) | Err(error: PyError) {
    predicate IsFailure() {
      Err?
    }

    function PropagateFailure<U>(): Result<U>
      requires Err?
    {
      Err(error)
    }

    function Extract(): T
      requires Ok?
    {
      value
    }
  }

  /** Python's `x or d` on an optional integer: None and 0 give `d`. */
  function IntOr(x: Option<int>, d: int): int {
    match x
    case None => d
    case Some(v) => if v == 0 then d else v
  }

  /** Python's `x or d` on an optional number: None and 0 give `d`. */
  function RealOr(x: Option<real>, d: real): real {
    match x
    case None => d
    case Some(v) => if v == 0.0 then d else v
  }

  /** Python's `x or d` on an optional string: None and "" give `d`. */
  function StrOr(x: Option<string>, d: string): string {
    match x
    case None => d
    case Some(v) => if v == "" then d else v
  }
}
