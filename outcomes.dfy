/** Failure-carrying wrappers shared by the whole model. */
module Outcomes {

  /** An optional value: Python's `Optional[...]` parameters. */
  datatype Option<+T> = None | Some(value: T)

  /** The Python exceptions that the modelled code raises and does not catch. */
  datatype Error =
    | TypeError       // tuple() of a non-iterable value, iterating a single future, subscripting None
    | IndexError      // the first row of an empty map_iterdata
    | AttributeError  // a method of the absent executor, `.stats` of a list of futures

  /** The outcome of a tool: a value, or the exception it raises. */
  datatype Result<+T> = Ok(value: T) | Err(error: Error)
}
