/** Values shared by every tool model: optional values, results, and the Python
    exceptions the modelled code can raise. */
module Common {

  datatype Option<+T> = None | Some(value: T)

  /** The outcome of a Python call that may raise: the returned value, or the
      exception that escapes the call. */
  datatype Result<+T> = Success(value: T) | Failure(error: PyError)

  /** Python exceptions, by class, with the detail the model keeps. */
  datatype PyError =
    | AssertionError
    | AttributeError(name: string)
    | ConnectionError
    | IndexError
    | JsonDecodeError
    | KeyError(key: string)
    | RequestException
    | SystemExit(code: int)
    | Exception(message: string)
    | TypeError(message: string)
    | ValueError(message: string)

  /** An optional positional argument taken from the command line: absent (the
      parameter keeps its Python default) or given as text. */
  datatype Arg = Default | Given(text: string)
}
