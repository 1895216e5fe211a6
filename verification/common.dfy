/** Small shared datatypes: an optional value, and the outcome of a JavaScript
    expression that either yields a value or throws. */
module Common {

  datatype Option<T> = None | Some(value: T)

  /** The only exception the modelled code can raise: `String.prototype.repeat`
      throws a RangeError for a negative or infinite count. */
  datatype JsError = RangeError

  /** Outcome of evaluating an expression: a normal value or an abrupt
      completion carrying the thrown error. */
  datatype Completion<T> = Normal(value: T) | Abrupt(error: JsError)
}
