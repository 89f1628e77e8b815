/** Failure-carrying values that stand in for the exceptions the backend throws. */
module Wrappers {

  datatype Option<T> = None | Some(value: T)

  datatype Result<T, E> = Success(value: T) | Failure(error: E)

  datatype Outcome<E> = Pass | Fail(error: E)

  /** What a `throw` carries: a plain `Error` from the domain layer, an
      `AppError` with the HTTP status the error handler answers with, a failure of the
      database, or a failure while the PDF library draws or the page is written to disk;
      the messages of the last two are not modelled. */
  datatype Error =
    | DomainError(message: string)
    | AppError(message: string, statusCode: int)
    | StorageError
    | GenerationError
}
