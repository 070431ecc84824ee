/**
 * The three kinds of failure a handler can meet. Each handler catches every
 * exception at its top level and turns it into the same error envelope, so
 * only the presence of a message matters, not its exact wording.
 */
module Errors {

  datatype Error =
    | MalformedRequest(detail: string)          // bad body, missing field, wrong type
    | UpstreamFailure(detail: string)           // the backend call raised
    | InvalidUpstreamResponse(detail: string)   // the backend answered without the expected fields

  /** The `str(error)` text put in the error envelope; never empty. */
  function Describe(e: Error): (text: string)
    ensures |text| > 0
  {
    match e
    case MalformedRequest(d) => "malformed request: " + d
    case UpstreamFailure(d) => "upstream failure: " + d
    case InvalidUpstreamResponse(d) => "invalid upstream response: " + d
  }
}
