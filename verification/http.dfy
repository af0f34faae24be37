/** HTTP status codes and the error a FastAPI endpoint or dependency raises (HTTPException). */
module Http {
  const Ok := 200
  const Created := 201
  const BadRequest := 400
  const Unauthorized := 401
  const Forbidden := 403
  const NotFound := 404
  const PayloadTooLarge := 413
  const UnsupportedMediaType := 415
  const UnprocessableEntity := 422
  const InternalServerError := 500

  datatype HttpError = HttpError(status: int, detail: string)

  /** An endpoint's reply: a success status with its body, or an HTTP error. */
  datatype Reply<T> = Reply(status: int, body: T) | Failure(error: HttpError)
}
