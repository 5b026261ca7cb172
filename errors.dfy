/**
  The application's error type and the `Result` every fallible operation returns.
  `Http` carries the status code and the response body, as the Sync client
  builds it; `Io` stands for a failed filesystem call.
*/
module Errors {
  import opened Ints

  datatype TodoError =
    | Config(msg: string)
    | Api(msg: string)
    | Http(status: u16, body: string)
    | InvalidInput(msg: string)
    | ConfigNotFound
    | Serialize(msg: string)
    | Io(msg: string)

  datatype Result<+T> = Ok(value: T) | Err(error: TodoError)
  {
    predicate IsFailure() { Err? }

    function PropagateFailure<U>(): Result<U>
      requires Err?
    {
      Err(error)
    }

    function Extract(): T
      requires Ok?
    {
      value
    }
  }
}
