/** Option and Result, used for the Python code's `None` values and raised exceptions. */
module Wrappers {

  datatype Option<+T> = None | Some(value: T) {
    /** The value, or `default` when absent (Python's `dict.get(key, default)`). */
    function GetOr(default: T): T {
      match this
      case Some(v) => v
      case None => default
    }
  }

  /** The outcome of an operation that may raise: `Err` stands for the exception. */
  datatype Result<+T, +E> = Ok(value: T) | Err(error: E) {
    predicate IsFailure() {
      Err?
    }

    function PropagateFailure<U>(): Result<U, E>
      requires Err?
    {
      Err(error)
    }

    function Extract(): T
      requires Ok?
    {
      value
    }
  }
}

/** The exceptions the modelled code raises, one constructor per cause. */
module Errors {

  datatype Error =
    /** `ValueError`: the file's suffix is not one of the supported extensions. */
    | UnsupportedFileType(ext: string)
    /** `ValueError`: chunking the extracted text produced no chunk. */
    | NoExtractableText(file: string)
    /** `ValueError`: `retrieve` was called with an empty query. */
    | EmptyQuery
    /** The store refuses a query asking for fewer than one result. */
    | InvalidResultCount(n: int)
    /** The HTTP call to the generation service returned an error status. */
    | UpstreamHttpError(status: int)
    /** `NameError`: the code reads a variable that is not defined. */
    | UndefinedName(name: string)
    /** `AttributeError`: the code calls a method the object does not have. */
    | MissingAttribute(name: string)
}
