/** The error body every REST handler returns: a machine-readable code and a message. */
module Api {

  datatype ApiError = ApiError(code: string, message: string)

  const BAD_REQUEST := "BAD_REQUEST"
  const NOT_FOUND := "NOT_FOUND"
  const VALIDATION_ERROR := "VALIDATION_ERROR"
  const INTERNAL_ERROR := "INTERNAL_ERROR"
  const DATABASE_ERROR := "DATABASE_ERROR"
}
