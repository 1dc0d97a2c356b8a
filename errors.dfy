/** The three fatal error kinds of the pipeline, and the Option/Result wrappers that carry them. */
module Errors {
  import opened Tokens

  datatype Option<+T> = None | Some(value: T)

  datatype LexError =
    | InvalidCharacter(ch: char)         // a character no token starts with
    | StringNotClosed(text: string)      // input ended inside a string literal
    | IntegerOutOfRange(digits: string)  // a digit run that `int.Parse` rejects as too large

  datatype ParseError =
    | UnexpectedToken(found: Token, expected: Token)  // `ConsumeToken` dequeued the wrong kind
    | ExpectedIdentifier(found: Token)                // `ConsumeTokenAs<TokenIdentifier>` failed
    | ExpectedExpression(found: Token)                // `ParseExpression` found no term
    | ExpectedStatement(found: Token)                 // a statement starts with no keyword
    | Exhausted                                       // `Peek`/`Dequeue` on an empty queue

  datatype RuntimeError =
    | AlreadyDefined(name: string)
    | NotDefined(name: string)
    | TypeMismatch      // an operand of the wrong kind (the source's failing casts)
    | DivisionByZero

  datatype Error = LexErr(lex: LexError) | ParseErr(parse: ParseError) | RuntimeErr(runtime: RuntimeError)

  datatype Result<+T> = Ok(value: T) | Err(error: Error) {
    predicate IsFailure() { Err? }

    function PropagateFailure<U>(): Result<U>
      requires Err?
    {
      Err(error)
    }

    function Extract(): T
      requires Ok?
    {
      value
    }
  }
}
