/**
 * The remote data source: one call to the HTTP API wrapped in a catch-all
 * that turns every exception into one of two typed errors. The API itself is
 * not modelled; what one call does is an input, `ApiCall`.
 */
module RemoteSource {
  import opened Wrappers
  import opened Planets
  import opened AppErrors

  /** The exceptions the HTTP client can throw: I/O failures (and their subclasses) or anything else. */
  datatype ApiException =
    | IOException(message: Option<string>)
    | OtherException(message: Option<string>)

  /** What one API call did: returned a decoded page, or threw. */
  datatype ApiCall = Returned(response: PlanetResponse) | Threw(exception: ApiException)

  /** The classifier: the error kind depends on the exception's class alone. */
  function GetRemoteException(e: ApiException): (t: Throwable)
    ensures IsRemoteError(t)
    ensures t.NoNetworkException? <==> e.IOException?
    ensures t.NoNetworkException? ==> t == DefaultNoNetworkException()
    ensures t.RemoteDataSourceException? ==>
              t.message == GetOrElse(e.message, UnknownErrorMessage)
  {
    match e
    case IOException(_) => DefaultNoNetworkException()
    case OtherException(m) => RemoteDataSourceException(GetOrElse(m, UnknownErrorMessage))
  }

  /** `getPlanets()`: the first page, or the classified failure. */
  function GetPlanets(call: ApiCall): (r: Result<PlanetResponse>)
    ensures call.Returned? ==> r == Success(call.response)
    ensures call.Threw? ==> r == Failure(GetRemoteException(call.exception))
  {
    match call
    case Returned(response) => Success(response)
    case Threw(e) => Failure(GetRemoteException(e))
  }

  /** `getNextPage(nextPageUrl)`: the API is asked for exactly `nextPageUrl`. */
  function GetNextPage(nextPageUrl: string, pageApi: string -> ApiCall): (r: Result<PlanetResponse>)
    ensures pageApi(nextPageUrl).Returned? ==> r == Success(pageApi(nextPageUrl).response)
    ensures pageApi(nextPageUrl).Threw? ==>
              r == Failure(GetRemoteException(pageApi(nextPageUrl).exception))
  {
    var call := pageApi(nextPageUrl);
    if call.Returned? then Success(call.response) else Failure(GetRemoteException(call.exception))
  }

  /** No raw exception escapes either entry point: every failure is one of the two typed errors. */
  lemma NoRawExceptionEscapes(call: ApiCall, nextPageUrl: string, pageApi: string -> ApiCall)
    ensures GetPlanets(call).Failure? ==> IsRemoteError(GetPlanets(call).error)
    ensures GetNextPage(nextPageUrl, pageApi).Failure? ==>
              IsRemoteError(GetNextPage(nextPageUrl, pageApi).error)
  {
  }

  /** The kind of error never depends on the message text, only on the exception's class. */
  lemma ClassificationIgnoresMessage(e1: ApiException, e2: ApiException)
    requires e1.IOException? == e2.IOException?
    ensures GetRemoteException(e1).NoNetworkException? == GetRemoteException(e2).NoNetworkException?
    ensures e1.IOException? ==> GetRemoteException(e1) == GetRemoteException(e2)
  {
  }

  /** Both entry points share the classifier: the same API behaviour gives the same result. */
  lemma EntryPointsAgree(call: ApiCall, nextPageUrl: string, pageApi: string -> ApiCall)
    requires pageApi(nextPageUrl) == call
    ensures GetNextPage(nextPageUrl, pageApi) == GetPlanets(call)
  {
  }
}
