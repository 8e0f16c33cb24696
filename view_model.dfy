/**
 * The view-state holder: the UI state (Loading, Success with a list, or Error
 * with a message), the "loading more" flag, the selected planet and the
 * next-page cursor. The repository is an oracle: each step receives the
 * result the repository returns. Every launched coroutine body runs as one
 * atomic step.
 */
module ViewModel {
  import opened Wrappers
  import opened Planets
  import opened AppErrors
  import Repository
  import RemoteSource

  /** What the screen shows; exactly one variant at a time. */
  datatype PlanetsUiState = Loading | Success(planets: seq<Planet>) | Error(errorMessage: string)

  /** A request the view model made to the repository. */
  datatype RepositoryCall = GetPlanetsCall | GetNextPageCall(nextPageUrl: string)

  /**
   * The `when` in `handleError`: every failure becomes an Error state. The two
   * application exceptions are always built with a non-null message, so the
   * `?:` defaults in the source are never taken for them.
   */
  function ErrorState(error: Throwable): (ui: PlanetsUiState)
    ensures ui.Error?
    ensures error.NoNetworkException? || error.RemoteDataSourceException? ==> ui.errorMessage == error.message
    ensures error.NoMorePagesException? ==> ui.errorMessage == NoMorePagesMessage
    ensures error.OtherThrowable? ==> ui.errorMessage == UnknownErrorMessage
  {
    match error
    case NoNetworkException(message) => Error(message)
    case NoMorePagesException(_) => Error(NoMorePagesMessage)
    case RemoteDataSourceException(message) => Error(message)
    case OtherThrowable(_) => Error(UnknownErrorMessage)
  }

  /** `(uiState as? Success)?.planets.orEmpty()`: the list on screen, or none. */
  function CurrentPlanets(ui: PlanetsUiState): (ps: seq<Planet>)
    ensures ui.Success? ==> ps == ui.planets
    ensures !ui.Success? ==> ps == []
  {
    if ui.Success? then ui.planets else []
  }

  /** The state a first-page fetch ends in. */
  function FetchedState(result: Result<PlanetResponse>): (ui: PlanetsUiState)
    ensures ui.Success? <==> result.Success?
    ensures ui.Success? ==>
              |ui.planets| == |result.value.results|
              && forall i :: 0 <= i < |ui.planets| ==> ui.planets[i] == Repository.ToPlanet(result.value.results[i])
    ensures result.Failure? ==> ui == ErrorState(result.error)
  {
    match result
    case Success(response) => PlanetsUiState.Success(Repository.MapToPlanet(response.results))
    case Failure(error) => ErrorState(error)
  }

  /** The state a load-more ends in: the new page after the list on screen, or an error that replaces it. */
  function AppendedState(current: PlanetsUiState, result: Result<PlanetResponse>): (ui: PlanetsUiState)
    ensures ui.Success? <==> result.Success?
    ensures ui.Success? ==>
              && |ui.planets| == |CurrentPlanets(current)| + |result.value.results|
              && ui.planets[..|CurrentPlanets(current)|] == CurrentPlanets(current)
              && forall j :: 0 <= j < |result.value.results| ==>
                   ui.planets[|CurrentPlanets(current)| + j] == Repository.ToPlanet(result.value.results[j])
    ensures result.Failure? ==> ui == ErrorState(result.error)
  {
    match result
    case Success(response) =>
      PlanetsUiState.Success(CurrentPlanets(current) + Repository.MapToPlanet(response.results))
    case Failure(error) => ErrorState(error)
  }

  /** Every result list of `pages`, concatenated in page order. */
  function AllResults(pages: seq<PlanetResponse>): (dtos: seq<PlanetDTO>)
  {
    if pages == [] then [] else pages[0].results + AllResults(pages[1..])
  }

  /** The state after a successful load-more for each of `pages`, in order. */
  function LoadPages(ui: PlanetsUiState, pages: seq<PlanetResponse>): (r: PlanetsUiState)
    ensures ui.Success? ==> r.Success?
    decreases pages
  {
    if pages == [] then ui else LoadPages(AppendedState(ui, Result.Success(pages[0])), pages[1..])
  }

  // Kept apart from LoadPagesAccumulates on purpose: proved inline, next to the
  // pointwise contracts of MapToPlanet and AppendedState, the same equation runs
  // out of resource; in this empty context Dafny proves it at once.
  lemma AppendAssociative<T>(a: seq<T>, b: seq<T>, c: seq<T>)
    ensures (a + b) + c == a + (b + c)
  {
  }

  /**
   * Successive successful loads keep what is on screen and add every page's
   * planets after it, in page order, without removing duplicates.
   */
  lemma {:induction false} LoadPagesAccumulates(planets: seq<Planet>, pages: seq<PlanetResponse>)
    ensures LoadPages(PlanetsUiState.Success(planets), pages)
              == PlanetsUiState.Success(planets + Repository.MapToPlanet(AllResults(pages)))
    decreases pages
  {
    if pages != [] {
      var page, rest := Repository.MapToPlanet(pages[0].results), Repository.MapToPlanet(AllResults(pages[1..]));
      var shown := planets + page;
      assert AppendedState(PlanetsUiState.Success(planets), Result.Success(pages[0])) == PlanetsUiState.Success(shown);
      LoadPagesAccumulates(shown, pages[1..]);
      assert AllResults(pages) == pages[0].results + AllResults(pages[1..]);
      Repository.MapToPlanetAppend(pages[0].results, AllResults(pages[1..]));
      AppendAssociative(planets, page, rest);
    }
  }

  /** A first page followed by successful loads shows all pages' planets, in order. */
  lemma FetchThenLoadPages(first: PlanetResponse, pages: seq<PlanetResponse>)
    ensures LoadPages(FetchedState(Result.Success(first)), pages)
              == PlanetsUiState.Success(Repository.MapToPlanet(AllResults([first] + pages)))
  {
    LoadPagesAccumulates(Repository.MapToPlanet(first.results), pages);
    Repository.MapToPlanetAppend(first.results, AllResults(pages));
    assert ([first] + pages)[1..] == pages;
  }

  /** A failed load-more shows an error and no list, whatever was on screen before. */
  lemma FailedLoadDiscardsList(current: PlanetsUiState, error: Throwable)
    ensures AppendedState(current, Result.Failure(error)).Error?
    ensures AppendedState(current, Result.Failure(error)) == FetchedState(Result.Failure(error))
  {
  }

  /**
   * The message a user sees for a failure of the remote data source: the
   * default no-network text for any I/O failure, otherwise the exception's
   * own message or "Unknown error".
   */
  lemma RemoteFailureMessages(e: RemoteSource.ApiException)
    ensures e.IOException? ==> ErrorState(RemoteSource.GetRemoteException(e)) == Error(NoNetworkMessage)
    ensures e.OtherException? ==>
              ErrorState(RemoteSource.GetRemoteException(e)) == Error(GetOrElse(e.message, UnknownErrorMessage))
  {
  }

  class PlanetsViewModel {
    var uiState: PlanetsUiState
    var selectedPlanet: Option<Planet>
    var isLoadingMore: bool
    var nextPageUrl: Option<string>
    /**
     * Every assignment to the UI-state flow's value, oldest first. The flow itself
     * drops an assignment equal to its current value; this log keeps it.
     */
    ghost var emitted: seq<PlanetsUiState>
    /** Every request made to the repository, oldest first. */
    ghost var repositoryCalls: seq<RepositoryCall>

    ghost predicate Valid()
      reads this
    {
      emitted != [] && emitted[|emitted| - 1] == uiState
    }

    /** The guard of `loadMorePlanets`. */
    predicate CanLoadMore()
      reads this
    {
      !isLoadingMore && nextPageUrl.Some?
    }

    /** Construction without an initial fetch: Loading, nothing selected, no cursor. */
    constructor()
      ensures Valid()
      ensures uiState == Loading && selectedPlanet == None && !isLoadingMore && nextPageUrl == None
      ensures emitted == [Loading] && repositoryCalls == []
    {
      uiState := Loading;
      selectedPlanet := None;
      isLoadingMore := false;
      nextPageUrl := None;
      emitted := [Loading];
      repositoryCalls := [];
    }

    /** Construction whose `init` block fetches the first page once; `firstPage` is what the repository returns. */
    constructor WithInitialFetch(firstPage: Result<PlanetResponse>)
      ensures Valid()
      ensures uiState == FetchedState(firstPage)
      ensures nextPageUrl == (if firstPage.Success? then firstPage.value.next else None)
      ensures selectedPlanet == None && !isLoadingMore
      ensures emitted == [Loading, Loading, uiState] && repositoryCalls == [GetPlanetsCall]
    {
      uiState := Loading;
      selectedPlanet := None;
      isLoadingMore := false;
      nextPageUrl := None;
      emitted := [Loading];
      repositoryCalls := [];
      new;
      FetchPlanets(firstPage);
    }

    /** `fetchPlanets`: Loading, then the first page or an error; the cursor moves only on success. */
    method FetchPlanets(result: Result<PlanetResponse>)
      requires Valid()
      modifies this
      ensures Valid()
      ensures uiState == FetchedState(result)
      ensures nextPageUrl == (if result.Success? then result.value.next else old(nextPageUrl))
      ensures selectedPlanet == old(selectedPlanet) && isLoadingMore == old(isLoadingMore)
      ensures emitted == old(emitted) + [Loading, uiState]
      ensures repositoryCalls == old(repositoryCalls) + [GetPlanetsCall]
    {
      uiState := Loading;
      emitted := emitted + [Loading];
      repositoryCalls := repositoryCalls + [GetPlanetsCall];
      match result {
        case Success(response) =>
          uiState := PlanetsUiState.Success(Repository.MapToPlanet(response.results));
          emitted := emitted + [uiState];
          nextPageUrl := response.next;
        case Failure(error) =>
          HandleError(error);
      }
    }

    /**
     * `loadMorePlanets`: unless a load is running or there is no cursor, asks
     * the repository for the cursor's page (`getNextPage` is what it answers),
     * appends it or shows the error, and always clears the flag.
     */
    method LoadMorePlanets(getNextPage: string -> Result<PlanetResponse>)
      requires Valid()
      modifies this
      ensures Valid()
      ensures !old(CanLoadMore()) ==> unchanged(this)
      ensures old(CanLoadMore()) ==>
                var url := old(nextPageUrl).value;
                && repositoryCalls == old(repositoryCalls) + [GetNextPageCall(url)]
                && uiState == AppendedState(old(uiState), getNextPage(url))
                && nextPageUrl == (if getNextPage(url).Success? then getNextPage(url).value.next else old(nextPageUrl))
                && !isLoadingMore
                && selectedPlanet == old(selectedPlanet)
                && emitted == old(emitted) + [uiState]
    {
      if !isLoadingMore && nextPageUrl.Some? {
        isLoadingMore := true;
        var url := nextPageUrl.value;
        repositoryCalls := repositoryCalls + [GetNextPageCall(url)];
        var result := getNextPage(url);
        match result {
          case Success(response) =>
            var planets := Repository.MapToPlanet(response.results);
            var currentPlanets := CurrentPlanets(uiState);
            uiState := PlanetsUiState.Success(currentPlanets + planets);
            emitted := emitted + [uiState];
            nextPageUrl := response.next;
          case Failure(error) =>
            HandleError(error);
        }
        isLoadingMore := false;
      }
    }

    /** `onPlanetSelected`: only the selection changes. */
    method OnPlanetSelected(planet: Planet)
      modifies this`selectedPlanet
      ensures selectedPlanet == Some(planet)
    {
      selectedPlanet := Some(planet);
    }

    /** `onPlanetDetailsDismissed`: only the selection is cleared. */
    method OnPlanetDetailsDismissed()
      modifies this`selectedPlanet
      ensures selectedPlanet == None
    {
      selectedPlanet := None;
    }

    /** `handleError`: shows the failure as an Error state. */
    method HandleError(error: Throwable)
      requires Valid()
      modifies this`uiState, this`emitted
      ensures Valid()
      ensures uiState == ErrorState(error)
      ensures emitted == old(emitted) + [uiState]
    {
      uiState := ErrorState(error);
      emitted := emitted + [uiState];
    }
  }
}
