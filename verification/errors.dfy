/** Failure values of the engine. The source throws an `Error` with a message;
    here each throw site becomes one variant, returned through `Result`. */
module Errors {

  datatype EngineError =
    | InvalidFirstShotBet      // the 1st Shot bet is not positive
    | InvalidFiveShotBet       // the 5 Shot bet is negative
    | WrongHandSize            // a three-card hand of another size
    | FiveCardNotImplemented   // the placeholder five-card evaluator

  datatype Result<+T> = Ok(value: T) | Err(error: EngineError)

  /** An optional value: an options field that may be omitted, or a result
      field that may be `null`; `None` stands for either. */
  datatype Option<+T> = None | Some(value: T)

  /** The field's value, or `fallback` when it was omitted (`??` and default parameters). */
  function Coalesce<T>(field: Option<T>, fallback: T): T {
    if field.Some? then field.value else fallback
  }
}
