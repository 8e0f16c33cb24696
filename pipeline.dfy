/**
 * Whole-pipeline runs: the local store, the repository and the view model
 * wired together as the application wires them, driven through
 * end-to-end scenarios.
 */
module Pipeline {
  import opened Wrappers
  import opened Planets
  import opened AppErrors
  import RemoteSource
  import opened LocalStore
  import Repository
  import opened ViewModel

  /**
   * A first page {next: "p2", [a, b]} is shown as is; loading more with "p2"
   * answering {next: none, [c]} appends c; after that, loading more asks the
   * repository nothing and changes nothing.
   */
  method PaginateToTheEnd(a: PlanetDTO, b: PlanetDTO, c: PlanetDTO)
    returns (shown: PlanetsUiState, cursor: Option<string>, lastLoadChangedNothing: bool)
    ensures shown == PlanetsUiState.Success([Repository.ToPlanet(a), Repository.ToPlanet(b), Repository.ToPlanet(c)])
    ensures cursor == None
    ensures lastLoadChangedNothing
  {
    var first := PlanetResponse(2, Some("p2"), None, [a, b]);
    var second := PlanetResponse(2, None, None, [c]);
    var vm := new PlanetsViewModel();
    vm.FetchPlanets(Result.Success(first));
    assert vm.uiState == PlanetsUiState.Success([Repository.ToPlanet(a), Repository.ToPlanet(b)]);
    assert vm.nextPageUrl == Some("p2");
    var repository := (url: string) =>
      if url == "p2" then Result.Success(second) else Result.Failure(RemoteDataSourceException(UnknownErrorMessage));
    vm.LoadMorePlanets(repository);
    shown, cursor := vm.uiState, vm.nextPageUrl;
    assert shown.planets == [Repository.ToPlanet(a), Repository.ToPlanet(b)] + [Repository.ToPlanet(c)];
    ghost var calls := vm.repositoryCalls;
    vm.LoadMorePlanets(repository);
    lastLoadChangedNothing := vm.uiState == shown && vm.nextPageUrl == cursor;
    assert vm.repositoryCalls == calls;
  }

  /**
   * Online, then offline: the second first-page fetch fails for lack of a
   * network, and the screen shows the same planets again, from the cache,
   * with the cursor the online fetch left.
   */
  method OfflineAfterOnlineShowsCachedPage(page: PlanetResponse, noNetwork: RemoteSource.ApiException)
    returns (online: PlanetsUiState, offline: PlanetsUiState, cursor: Option<string>)
    requires page.results != []
    requires noNetwork.IOException?
    ensures online == PlanetsUiState.Success(Repository.MapToPlanet(page.results))
    ensures offline == online
    ensures cursor == page.next
  {
    var store := new PlanetLocalDataSource();
    var repository := new Repository.PlanetRepositoryImpl(store);
    var vm := new PlanetsViewModel();
    var result := repository.GetPlanets(RemoteSource.Returned(page));
    vm.FetchPlanets(result);
    online := vm.uiState;
    assert store.rows == Repository.MapToPlanet(page.results);
    result := repository.GetPlanets(RemoteSource.Threw(noNetwork));
    assert result.value.results == Repository.MapToPlanetDTO(Repository.MapToPlanet(page.results));
    vm.FetchPlanets(result);
    offline, cursor := vm.uiState, vm.nextPageUrl;
    Repository.PlanetListRoundTrip(Repository.MapToPlanet(page.results));
    Repository.MappedPlanetsHaveDefaultIds(page.results);
  }

  /**
   * Saving only inserts: after the same first page is fetched twice online,
   * an offline first-page fetch shows its planets twice, and reports the
   * doubled row count.
   */
  method OfflineAfterTwoFetchesShowsDuplicates(page: PlanetResponse, noNetwork: RemoteSource.ApiException)
    returns (offline: PlanetsUiState, count: int)
    requires page.results != []
    requires noNetwork.IOException?
    ensures offline == PlanetsUiState.Success(Repository.MapToPlanet(page.results) + Repository.MapToPlanet(page.results))
    ensures count == 2 * |page.results|
  {
    var store := new PlanetLocalDataSource();
    var repository := new Repository.PlanetRepositoryImpl(store);
    var vm := new PlanetsViewModel();
    var result := repository.GetPlanets(RemoteSource.Returned(page));
    result := repository.GetPlanets(RemoteSource.Returned(page));
    var twice := Repository.MapToPlanet(page.results) + Repository.MapToPlanet(page.results);
    assert store.rows == twice;
    result := repository.GetPlanets(RemoteSource.Threw(noNetwork));
    count := result.value.count;
    vm.FetchPlanets(result);
    offline := vm.uiState;
    Repository.PlanetListRoundTrip(twice);
    Repository.MapToPlanetAppend(page.results, page.results);
    Repository.MappedPlanetsHaveDefaultIds(page.results + page.results);
  }

  /** Offline with nothing cached: the screen shows the no-network message. */
  method OfflineWithEmptyCacheShowsError(noNetwork: RemoteSource.ApiException) returns (shown: PlanetsUiState)
    requires noNetwork.IOException?
    ensures shown == Error(NoNetworkMessage)
  {
    var store := new PlanetLocalDataSource();
    var repository := new Repository.PlanetRepositoryImpl(store);
    var vm := new PlanetsViewModel();
    var result := repository.GetPlanets(RemoteSource.Threw(noNetwork));
    vm.FetchPlanets(result);
    shown := vm.uiState;
  }

  /**
   * A non-connectivity failure is shown with its message (or "Unknown error"
   * when it has none) even when the cache could have answered.
   */
  method RemoteFailureIgnoresCache(cached: seq<Planet>, failure: RemoteSource.ApiException)
    returns (shown: PlanetsUiState)
    requires failure.OtherException?
    ensures shown == Error(GetOrElse(failure.message, UnknownErrorMessage))
  {
    var store := new PlanetLocalDataSource();
    store.SavePlanets(cached);
    var repository := new Repository.PlanetRepositoryImpl(store);
    var vm := new PlanetsViewModel();
    var result := repository.GetPlanets(RemoteSource.Threw(failure));
    vm.FetchPlanets(result);
    shown := vm.uiState;
  }

  /** A view model that fetches in `init` has asked the repository twice after one explicit fetch. */
  method InitialFetchThenRetry(first: Result<PlanetResponse>, retry: Result<PlanetResponse>)
    returns (vm: PlanetsViewModel)
    ensures vm.repositoryCalls == [GetPlanetsCall, GetPlanetsCall]
    ensures vm.uiState == FetchedState(retry)
  {
    vm := new PlanetsViewModel.WithInitialFetch(first);
    vm.FetchPlanets(retry);
  }
}
