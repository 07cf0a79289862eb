/** The REST API's error taxonomy: one kind per exception class, each with a fixed HTTP
    status and default detail text, plus the failures the API does not catch. */
module Exceptions {

  datatype ErrorKind =
    | TelnetUnexpectedResponse
    | TelnetConnectionTimeout
    | TelnetLoginFailed
    | CanNotModifyError
    | JasminSyntaxError
    | JasminError
    | UnknownError
    | MissingKeyError
    | MultipleValuesRequiredKeyError
    | ActionFailed
    | ObjectNotFoundError

  /** The class-level `status_code` of each kind. */
  function StatusCode(k: ErrorKind): (code: int)
    ensures code in {400, 403, 404, 500}
    ensures code == 500 <==> k == TelnetUnexpectedResponse || k == TelnetConnectionTimeout
    ensures code == 403 <==> k == TelnetLoginFailed
    ensures code == 404 <==> k == UnknownError || k == ObjectNotFoundError
  {
    match k
    case TelnetUnexpectedResponse => 500
    case TelnetConnectionTimeout => 500
    case TelnetLoginFailed => 403
    case CanNotModifyError => 400
    case JasminSyntaxError => 400
    case JasminError => 400
    case UnknownError => 404
    case MissingKeyError => 400
    case MultipleValuesRequiredKeyError => 400
    case ActionFailed => 400
    case ObjectNotFoundError => 404
  }

  /** The class-level `default_detail` of each kind. */
  function DefaultDetail(k: ErrorKind): string
  {
    match k
    case TelnetUnexpectedResponse => "Unexpected response from Jasmin."
    case TelnetConnectionTimeout => "Connection to JCLI timed out."
    case TelnetLoginFailed => "Jasmin login failed."
    case CanNotModifyError => "Cannot modify the specified key."
    case JasminSyntaxError => "Syntax error in Jasmin command."
    case JasminError => "An error occurred in Jasmin."
    case UnknownError => "Object or operation not known."
    case MissingKeyError => "A mandatory key is missing."
    case MultipleValuesRequiredKeyError => "Multiple values are required for this key."
    case ActionFailed => "Action failed."
    case ObjectNotFoundError => "Object not found."
  }

  /** Why an operation did not complete.
      Api: one of the exception classes above, with its detail text.
      PexpectEof, PexpectTimeout: pexpect's EOF and TIMEOUT escaping a console wait.
      Crash: any other uncaught Python exception (an IndexError on a short listing row,
      a KeyError, a TypeError), named by `reason`. */
  datatype Failure =
    | Api(kind: ErrorKind, detail: string)
    | PexpectEof
    | PexpectTimeout
    | Crash(reason: string)

  /** `raise Cls` with no argument: the kind with its default detail. */
  function Raise(k: ErrorKind): (f: Failure)
    ensures f.Api? && f.kind == k
  {
    Api(k, DefaultDetail(k))
  }

  /** The HTTP status the operation answers with: the kind's status for an API exception,
      500 for anything Django does not know how to render. */
  function HttpStatus(f: Failure): (code: int)
    ensures code in {400, 403, 404, 500}
    ensures !f.Api? ==> code == 500
  {
    if f.Api? then StatusCode(f.kind) else 500
  }

  datatype Result<+T> = Ok(value: T) | Err(failure: Failure)
}
