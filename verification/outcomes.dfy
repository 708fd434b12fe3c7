/** Failure-carrying values for the service: the exceptions the Python code raises
    become `Fault` values, and every operation that can raise returns a `Result`. */
module Outcomes {

  /** The exception kinds the modelled code raises, and those it lets escape from a library. */
  datatype Fault =
    | HttpException(status: int, detail: string)  // fastapi.HTTPException
    | ValueError(message: string)
    | KeyError(key: string)
    | IndexError(message: string)
    | TypeError(message: string)
    | Raised(exception: string, message: string)  // a library's own exception, not caught

  datatype Option<+T> = None | Some(value: T)

  datatype Result<+T> = Ok(value: T) | Err(fault: Fault) {

    predicate IsFailure() {
      Err?
    }

    function PropagateFailure<U>(): Result<U>
      requires Err?
    {
      Err(fault)
    }

    function Extract(): T
      requires Ok?
    {
      value
    }
  }

  /** A call into a library the code does not catch (`requests.request`,
      `client.responses.create`): it returns a value or raises one of the library's own
      exceptions (a connection error, a timeout), never one of the kinds above. */
  type LibraryCall<-A(!new), +B> = f: A -> Result<B> | forall a :: f(a).Err? ==> f(a).fault.Raised?
    witness a => Err(Raised("ConnectionError", ""))

  /** A successful step that produces nothing, the model of a Python `None` return. */
  datatype Unit = Unit
}
