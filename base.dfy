/** Small shared datatypes: an optional value and the outcome of an HTTP handler. */
module Base {

  datatype Option<+T> = None | Some(value: T)

  /** What a handler answers. `Ok` is a 200 response carrying the handler's
      payload; `BadRequest` is a 400 for a missing required field; `NotFound`
      is a 404 for an unknown device or row; `ServerError` is the 500 the web
      framework produces when the handler raises an uncaught exception. */
  datatype Reply<+T> = Ok(value: T) | BadRequest | NotFound | ServerError
}
