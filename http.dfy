/** The HTTP error signal of FastAPI's `HTTPException`. */
module Http {

  /** `HTTPException(status_code=status, detail=detail)`. */
  datatype HttpError = HttpError(status: int, detail: string)

  /** Every Python exception a route handler can see: an `HTTPException`, or some other exception with `str(e)`. */
  datatype Raised = HttpRaised(error: HttpError) | OtherRaised(message: string)
}
