/** Optional values and outcomes shared by every module of the model. */
module Wrappers {

  /** A Java `null`/`Optional` or a JavaScript `undefined`/`null`. */
  datatype Option<T> = None | Some(value: T)
  {
    function GetOr(default: T): (r: T)
      ensures this.Some? ==> r == value
      ensures this.None? ==> r == default
    {
      match this
      case None => default
      case Some(v) => v
    }
  }

  datatype Result<T, E> = Ok(value: T) | Err(error: E)

  /** The HTTP status a `ResponseStatusException` (or an uncaught exception) produces. */
  datatype HttpStatus = BadRequest | Unauthorized | Forbidden | NotFound | Conflict | InternalError
  {
    /** The numeric status code sent on the wire. */
    function Code(): (c: int)
      ensures 400 <= c <= 599
      ensures c == 409 <==> this == Conflict
    {
      match this
      case BadRequest => 400
      case Unauthorized => 401
      case Forbidden => 403
      case NotFound => 404
      case Conflict => 409
      case InternalError => 500
    }
  }

  /** A request refused by a controller: the status and the literal reason text. */
  datatype Rejection = Rejection(status: HttpStatus, reason: string)

  /** What a browser `fetch` gave the page: a status and the body's text, or a network failure. */
  datatype Reply = Answered(status: int, body: string) | NetworkFailure
  {
    /** `response.ok`: a status in the 2xx range. */
    predicate Ok() { Answered? && 200 <= status <= 299 }
  }

  /** An inline error a page shows: the element's id and the text put into it. */
  datatype Shown = Shown(elementId: string, message: string)
}
