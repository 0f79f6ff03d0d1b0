/** Option and Result, and the exceptions that the request handler of
    YKSBot/app.py can raise inside its try block. */
module Outcomes {

  datatype Option<+T> = None | Some(value: T)

  /** Why a step failed: each case stands for a Python exception that the
      handler's `except Exception` turns into an error response. Exception
      message texts are not modelled. */
  datatype Failure =
    | BadRequestBody          // request.get_json() raised: the body is not JSON
    | StoreUnreadable         // json.load raised on the stored profile file
    | NotAnObject             // subscripting or .get on a document that is not a dict
    | MissingKey(key: string) // KeyError
    | WrongType(key: string)  // TypeError / AttributeError on the value stored under key
    | ModelFailure(reason: string) // the language-model call raised

  datatype Result<+T> = Ok(value: T) | Err(error: Failure)
}
