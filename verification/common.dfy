/** Shared result types: Python's raised exceptions become the error side of a Result. */
module Common {

  datatype Option<+T> = None | Some(value: T)

  datatype Result<+R, +E> = Ok(value: R) | Err(error: E)

  /** Why the generated dataclass constructor refuses its keyword arguments. */
  datatype ArgumentProblem =
    | UnexpectedKeywords(names: set<string>)  // a keyword that is not a field
    | MissingArguments(names: set<string>)    // a field without a default that was not given
    | MultipleValues(names: set<string>)      // a keyword given both explicitly and through **kwargs
    | WrongType(field: string)                // a value whose type the typed model cannot hold

  /** The exceptions the modelled code can raise. */
  datatype Error =
    | ValueError(message: string)
    | IndexError(message: string)
    | TypeError(problem: ArgumentProblem)
}
