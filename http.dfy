/** The HTTP outcome of a handler, in place of Express's `res.status(..).json(..)`. */
module Http {

  /** `Ok` carries the success status (200 or 201) and the JSON body the
      handler sends; the error cases carry the `error` text of the body. */
  datatype Response<T> =
    | Ok(code: nat, body: T)
    | BadRequest(error: string)
    | NotFound(error: string)
    | ServerError(error: string)
  {
    /** The HTTP status code the handler sends. */
    function Status(): nat {
      match this
      case Ok(code, _) => code
      case BadRequest(_) => 400
      case NotFound(_) => 404
      case ServerError(_) => 500
    }
  }
}
