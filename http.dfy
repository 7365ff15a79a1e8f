/** What a controller hands back to Spring: a status with a body, or an exception it lets escape. */
module Http {

  const BAD_REQUEST := 400
  const UNAUTHORIZED := 401
  const FORBIDDEN := 403
  const NOT_FOUND := 404
  const CONFLICT := 409

  /**
   * `Ok`, `Created` and `NoContent` are the 200, 201 and 204 responses; `Error` is any other
   * `ResponseEntity.status(..).body(message)`; `Thrown` is an exception that leaves the handler, whose
   * status is decided by exception handling outside this model.
   */
  datatype Response<+T> =
    | Ok(body: T)
    | Created(body: T)
    | NoContent
    | Error(status: int, message: string)
    | Thrown(exception: string)
}
