/** Outcomes shared by the whole model: an optional value (Python's `None`) and a
    result that carries either a value or the Python exception the source raises. */
module Results {

  datatype Option<+T> = None | Some(value: T)

  /** The exceptions the modelled code raises, by their Python names. */
  datatype PyError =
    | KeyError(key: string)
    | IndexError
    | ZeroDivisionError
    | NotImplementedError
    | FileNotFoundError
    | UnboundLocalError(name: string)
    | TypeError
    | ValueError
    | OverflowError
    /** Not an exception: numpy's 0/0 gives NaN with an "invalid value" warning and
        the computation goes on with NaN; the model stops and reports it instead. */
    | InvalidValue

  datatype Result<+T> = Ok(value: T) | Err(error: PyError)
}
