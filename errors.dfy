/** The error taxonomy shared by the scanner and the parser, and the failure-compatible
    wrappers used to propagate it. */
module Errors {
  import opened Tokens

  datatype Error =
    | UnexpectedToken(current: Token, pos: nat, expected: seq<Kind>)
    | UnexpectedCharacter(character: char, pos: nat)

  datatype Option<+T> = None | Some(value: T)

  /** `Result<T, Error>`, usable with `:-` the way Rust uses `?`. */
  datatype Result<+T> = Ok(value: T) | Err(error: Error) {
    predicate IsFailure() {
      Err?
    }

    function PropagateFailure<U>(): Result<U>
      requires Err?
    {
      Err(error)
    }

    function Extract(): T
      requires Ok?
    {
      value
    }
  }
}
