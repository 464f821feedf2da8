/** The vocabulary of the HTTP layer: JSON bodies and the ways a request fails. */
module Http {

  /** A JSON value, as a handler returns it and the framework serialises it. */
  datatype Json =
    | Null
    | Bool(b: bool)
    | Num(n: int)
    | Str(s: string)
    | Arr(items: seq<Json>)
    | Obj(fields: map<string, Json>)

  /** Why a request did not produce a body. */
  datatype Failure =
    | HttpException(statusCode: nat, detail: string)  // raised on purpose by a handler
    | Unhandled(message: string)                     // any other exception escaping a handler

  /** The status code the client sees: an exception nobody caught becomes a 500. */
  function StatusCode(f: Failure): nat
  {
    match f
    case HttpException(code, _) => code
    case Unhandled(_) => 500
  }

  /** The answer to one request. */
  datatype Result<+T> = Ok(value: T) | Err(failure: Failure)
}
