/** The Python exceptions the modelled code raises or lets through. */
module Exceptions {

  datatype Error =
    | ValueError(message: string)
    | TypeError(message: string)
    | AttributeError(message: string)
      /** `requests.exceptions.HTTPError`, raised by `raise_for_status` */
    | HttpError(status: int)
      /** `requests.exceptions.ConnectionError` and other transport failures */
    | ConnectionFailure
      /** `MissingSchema`, `InvalidSchema`, `InvalidURL`: request errors that are also `ValueError`s */
    | InvalidUrl

  /** Whether an `except ValueError` clause catches the exception. */
  predicate IsValueError(e: Error) {
    e.ValueError? || e.InvalidUrl?
  }
}
