/**
 * Thrown JavaScript errors as the controllers see them, and the way they turn an error into
 * the `code` and `details` fields of a 500 response.
 */
module Errors {

  /**
   * A thrown error. Falsy JavaScript values are written as their falsy form: `status` 0 stands
   * for an absent HTTP status, `code` and `message` "" for absent fields. `rendered` is what
   * `error.toString()` returns.
   */
  datatype JsError = JsError(status: int, code: string, message: string, rendered: string)

  /**
   * An error raised by the program itself with `new Error(message)`; its `toString()` is
   * "Error", followed by ": " and the message when there is one.
   */
  function Raised(message: string): (e: JsError)
    ensures e.status == 0 && e.code == "" && e.message == message
    ensures message == [] ==> e.rendered == "Error"
    ensures message != [] ==> e.rendered == "Error: " + message
  {
    JsError(0, "", message, if message == "" then "Error" else "Error: " + message)
  }

  /** The `code` field of a chat error response: a number, a string, or the word UNKNOWN. */
  datatype ErrorCode = Status(status: int) | Named(name: string) | Unknown

  /** `(error && (error.status || error.code)) || 'UNKNOWN'`. */
  function CodeOf(e: JsError): (c: ErrorCode)
    ensures c.Status? <==> e.status != 0
    ensures c.Status? ==> c.status == e.status
    ensures c.Named? ==> e.status == 0 && c.name == e.code
    ensures c.Unknown? <==> e.status == 0 && e.code == ""
  {
    if e.status != 0 then Status(e.status)
    else if e.code != "" then Named(e.code)
    else Unknown
  }

  /** `(error && (error.message || error.toString())) || 'Unknown error'`: never empty. */
  function DetailsOf(e: JsError): (d: string)
    ensures d != []
    ensures e.message != [] ==> d == e.message
    ensures e.message == [] && e.rendered != [] ==> d == e.rendered
    ensures e.message == [] && e.rendered == [] ==> d == "Unknown error"
  {
    if e.message != "" then e.message
    else if e.rendered != "" then e.rendered
    else "Unknown error"
  }

  /** `error?.message || 'Unknown error'`, the details of the generation and listing routes. */
  function MessageOf(e: JsError): (d: string)
    ensures d != []
    ensures e.message != [] ==> d == e.message
    ensures e.message == [] ==> d == "Unknown error"
  {
    if e.message != "" then e.message else "Unknown error"
  }
}
