/** Option and Result values, used wherever the Python code returns None or raises. */
module Wrappers {

  datatype Option<+T> = None | Some(value: T)

  datatype Result<+T, +E> = Ok(value: T) | Err(error: E)
}

/**
 * The exceptions the core raises: the three classes of chatter's own
 * exceptions module and the Python built-in errors that the modelled code
 * raises or lets escape.
 */
module Errors {

  datatype Error =
    | RuntimeError(message: string)
      /** Carries the grammar name the failing definition was registered under. */
    | PlaceholderError(grammarName: string)
    | GrammarError
    | CombinationsExceededError
      /** An index outside a list, or a random choice from an empty list. */
    | IndexError
      /** A lookup of a key that a dictionary does not hold. */
    | KeyError(key: string)
      /** An operation on a value of the wrong type (`reduce` over nothing, `sum` of strings). */
    | TypeError
      /** A method the value does not have (`items()` on something not a mapping). */
    | AttributeError
}
