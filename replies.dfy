/** The action results the controllers return, by status code. */
module Replies {
  import opened Wrappers

  datatype Reply<T> =
    | Success(body: T)                  // Json(body): 200
    | Done                              // Ok(): 200 without a body
    | MultiStatus(body: T)              // StatusCode(207, body): some valves failed
    | BadRequest(message: string)       // 400
    | NotFound(reason: Option<string>)  // NotFound() or NotFound(message): 404
    | Unavailable(message: string)      // StatusCode(503, message)

  function StatusCode<T>(r: Reply<T>): int {
    match r
    case Success(_) => 200
    case Done => 200
    case MultiStatus(_) => 207
    case BadRequest(_) => 400
    case NotFound(_) => 404
    case Unavailable(_) => 503
  }
}
