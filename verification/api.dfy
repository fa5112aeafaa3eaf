/** The outcome of a call to the remote API, as the pages see it: the request
    itself (axios, `localStorage`, the router) is outside the model, so its
    result is an input. */
module Api {

  /** `err.response`: an HTTP status and `data.message`, where "" stands for
      a message that is missing or empty (both are falsy). */
  datatype ErrorResponse = ErrorResponse(status: int, message: string)

  /** A request either succeeds or throws; a thrown error without a
      `response` (network failure) has `None`. */
  datatype Failure = NoResponse | WithResponse(response: ErrorResponse)

  /** How an awaited request ended. */
  datatype Outcome = Succeeded | Failed(failure: Failure)

  /** Where the page sends the browser afterwards (`router.push`), if anywhere. */
  datatype Nav = Stay | GoTo(path: string)

  /** `err.response?.data?.message || fallback`: the server's message when it
      sent a non-empty one, the fallback otherwise. */
  function MessageOr(failure: Failure, fallback: string): (m: string)
    ensures failure.WithResponse? && failure.response.message != "" ==> m == failure.response.message
    ensures !(failure.WithResponse? && failure.response.message != "") ==> m == fallback
    ensures fallback != "" ==> m != ""
  {
    match failure
    case WithResponse(ErrorResponse(_, message)) => if message != "" then message else fallback
    case NoResponse => fallback
  }

  /** `err.response?.status === 401`. */
  predicate IsUnauthorized(failure: Failure) {
    failure.WithResponse? && failure.response.status == 401
  }
}
