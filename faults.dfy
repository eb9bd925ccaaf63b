/** The engine's fault taxonomy.  The source signals faults with exceptions:
    an ArithmeticException for a zero divisor and an IllegalArgumentException
    (or its subclass NumberFormatException) for everything else.  Here a
    fault is a value, and `Reason` records which check raised it. */
module Faults {

  datatype Reason =
    | InvalidAddress        // malformed, multi-letter or out-of-grid address
    | InvalidRange          // text that is not `addr:addr`
    | InvalidFunctionSyntax // an aggregate call that does not end in `)`
    | EmptyRange            // MIN, MAX or MITTELWERT over no values
    | NotAnInteger          // not `-?[0-9]+`, or outside the 64-bit range
    | ReferenceError        // a referenced cell holds an error code
    | MismatchedParens
    | UnexpectedToken       // `:` or `,` in a plain expression
    | MalformedExpression   // wrong operand count on the evaluation stack

  datatype Fault =
    | DivideByZero          // ArithmeticException
    | Illegal(reason: Reason) // IllegalArgumentException

  datatype Result<+T> = Ok(value: T) | Err(fault: Fault) {
    predicate IsFailure() { Err? }

    function PropagateFailure<U>(): Result<U>
      requires Err?
    {
      Err(fault)
    }

    function Extract(): T
      requires Ok?
    {
      value
    }
  }

  datatype Option<+T> = None | Some(value: T)
}
