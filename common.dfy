/** Values shared by both services: optional fields and the error taxonomy of the handlers. */
module Common {

  /** A field that a request may leave out (JSON null / absent). */
  datatype Option<+T> = None | Some(value: T) {

    /** The carried value, or `default` when there is none. */
    function GetOr(default: T): T {
      match this
      case Some(v) => v
      case None => default
    }
  }

  /**
   * The failures the handlers raise. InvalidInput and NotFound carry the
   * detail message sent to the client.
   */
  datatype Error =
    | InvalidInput(detail: string)  // HTTP 400
    | NotFound(detail: string)      // HTTP 404
    | ServerError(detail: string)   // an unhandled storage exception and its own message; the client sees only a generic HTTP 500

  /** The outcome of a handler: a response body, or the error it raised. */
  datatype Result<+T> = Ok(value: T) | Err(error: Error)
}
