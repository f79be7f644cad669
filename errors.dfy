/** The ways a tool call can fail. None of them is caught by the server:
    each reaches the caller of the tool as the failure of that call. */
module Errors {

  datatype ToolError =
      /** Arguments rejected by a tool's declared schema; names the offending
          arguments in declaration order. No request has been made. */
    | InvalidArguments(fields: seq<string>)
      /** The request got no answer at all (`fetch` rejected: the name did
          not resolve, the connection was refused or reset). */
    | NetworkError
      /** The remote answered with a status outside 200-299. */
    | RemoteError(status: int, message: string)
      /** The body of a successful response is not JSON. */
    | DecodeError
      /** A JavaScript TypeError raised while reshaping the document
          (a member read on null, `join`, `slice` or `map` on a value that
          has no such method). */
    | TypeError
}
