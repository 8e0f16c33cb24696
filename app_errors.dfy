/**
 * The application's exception classes and Kotlin's `Result<T>`, whose failure
 * side carries any `Throwable`.
 */
module AppErrors {
  import opened Wrappers

  const NoNetworkMessage := "No network connection available"
  const NoMorePagesMessage := "No more pages available"
  const UnknownErrorMessage := "Unknown error"

  /**
   * The throwables the core can see. The three application exceptions are
   * built from a non-null message; any other throwable may have none.
   */
  datatype Throwable =
    | NoNetworkException(message: string)
    | RemoteDataSourceException(message: string)
    | NoMorePagesException(message: string)
    | OtherThrowable(otherMessage: Option<string>)

  /** `NoNetworkException()`: the exception built with its default message. */
  function DefaultNoNetworkException(): (e: Throwable)
    ensures e.NoNetworkException? && e.message == NoNetworkMessage
  {
    NoNetworkException(NoNetworkMessage)
  }

  /** The two typed errors a remote data source is allowed to throw. */
  predicate IsRemoteError(e: Throwable) {
    e.NoNetworkException? || e.RemoteDataSourceException?
  }

  /** Kotlin's `Result<T>`. */
  datatype Result<+T> = Success(value: T) | Failure(error: Throwable)
}
