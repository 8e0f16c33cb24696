# Starplanet: a verified model of the paginated planet pipeline

Starplanet is an Android client that lists planets from a public REST API, one page at a
time, caches what it fetched in an on-device table, and falls back to that cache when the
first page cannot be fetched for lack of a network. This project models, in Dafny, the part
of the app that decides what the user sees:

- the **remote data source** (`PlanetRemoteDataSourceImpl`), which turns every exception of
  the HTTP client into one of two typed errors (`remote_source.dfy`);
- the **local data source** (the `planets` table), as a sequence of rows that only grows
  (`local_store.dfy`);
- the **repository** (`PlanetRepositoryImpl`), a class holding the next-page cursor
  `currentPageUrl`, with the `Planet` / `PlanetDTO` mappings of its companion object
  (`repository.dfy`);
- the **view model** (`PlanetsViewModel`), a class holding the UI state, the "loading more"
  flag, the selected planet and the next-page cursor (`view_model.dfy`). The view model
  exists in two packages, `com.jpmc.sriraksha` and `com.sriraksha`. The two copies are the
  same text except that only the jpmc copy fetches in `init`. One class models both:
  its plain constructor is the sriraksha copy and `WithInitialFetch` is the jpmc copy;
- the **load-more trigger** (`DefaultLoadMoreStrategy`), over 32-bit `Int` arithmetic
  (`load_more.dfy`);
- the value types `Planet`, `PlanetDTO`, `PlanetResponse` and the exception classes
  (`planets.dfy`, `app_errors.dfy`, `wrappers.dfy`);
- end-to-end runs of the whole pipeline (`pipeline.dfy`).

Each launched coroutine body is one atomic step. The view model receives what its repository
returns as an argument. `FetchPlanets` takes the result. `LoadMorePlanets` takes the
repository's answer for any URL, so the URL it asks for is visible. Two ghost fields record
the history: `repositoryCalls` lists every request made to the repository, so "no repository
call" can be stated, and `emitted` lists every assignment to the UI-state flow's value, so
"Loading is assigned first" can be stated. (A `MutableStateFlow` ignores an assignment
equal to its current value, so `emitted` is a log of assignments, not of the values the
flow emitted to its collectors.) The repository is wired to the remote data source as the
app's dependency injection wires it. Its methods take what the HTTP call did (`ApiCall`:
returned a page, or threw an `IOException` or another exception).

Two consequences of the code are worth stating:

- `savePlanets` only inserts (`app/src/main/java/com/jpmc/sriraksha/starplanet/data/local/PlanetDao.kt`
  line 17, `PlanetLocalDataSourceImpl.kt` lines 15-19); no delete is issued, so the store appends
  and a save never replaces the cache. `Pipeline.OfflineAfterTwoFetchesShowsDuplicates` proves the
  consequence: fetching the same first page twice, then going offline, shows it twice.
- The exception classes take a non-null message, so the `?:` defaults in `handleError`
  for `NoNetworkException` and `RemoteDataSourceException` are never taken.
  `ViewModel.ErrorState` shows their own message.

## Model

| member | source | states |
|---|---|---|
| AppErrors.DefaultNoNetworkException | app/src/main/java/com/jpmc/sriraksha/starplanet/utils/AppException.kt:3 | `NoNetworkException()` carries "No network connection available" |
| RemoteSource.GetRemoteException | app/src/main/java/com/jpmc/sriraksha/starplanet/data/remote/PlanetRemoteDataSourceImpl.kt:28-33 | every exception becomes one of the two typed errors; NoNetwork exactly for an IOException, with the default message; otherwise RemoteDataSource with the original message, or "Unknown error" when there is none |
| RemoteSource.GetPlanets | app/src/main/java/com/jpmc/sriraksha/starplanet/data/remote/PlanetRemoteDataSourceImpl.kt:12-18 | a returned page is passed through unchanged; a thrown exception fails with its classification |
| RemoteSource.GetNextPage | app/src/main/java/com/jpmc/sriraksha/starplanet/data/remote/PlanetRemoteDataSourceImpl.kt:20-26 | the API is asked for exactly the given URL; its page is passed through unchanged, its exception classified |
| RemoteSource.NoRawExceptionEscapes | app/src/main/java/com/sriraksha/starplanet/data/remote/PlanetRemoteDataSourceImpl.kt:15-29 | every failure of either entry point is NoNetwork or RemoteDataSource, never a raw exception |
| RemoteSource.ClassificationIgnoresMessage | app/src/main/java/com/sriraksha/starplanet/data/remote/PlanetRemoteDataSourceImpl.kt:31-36 | two exceptions of the same class get the same error kind whatever their messages; two I/O failures classify identically |
| RemoteSource.EntryPointsAgree | app/src/main/java/com/sriraksha/starplanet/data/remote/PlanetRemoteDataSourceImpl.kt:18-27 | the same API behaviour gives the same result through either entry point: both use one classifier |
| LocalStore.PlanetLocalDataSource.SavePlanets | app/src/main/java/com/jpmc/sriraksha/starplanet/data/local/PlanetLocalDataSourceImpl.kt:15-19 | the planets are inserted after the existing rows, in order; no row is removed |
| LocalStore.PlanetLocalDataSource.GetPlanets | app/src/main/java/com/jpmc/sriraksha/starplanet/data/local/PlanetLocalDataSourceImpl.kt:21-25 | returns every row of the table |
| LocalStore.PlanetLocalDataSource.GetPlanetsCount | app/src/main/java/com/jpmc/sriraksha/starplanet/data/local/PlanetLocalDataSourceImpl.kt:27-31 | the count is the number of rows `GetPlanets` returns |
| Repository.ToPlanet | app/src/main/java/com/jpmc/sriraksha/starplanet/data/repository/PlanetRepositoryImpl.kt:61-75 | the planet keeps the eleven descriptive fields of the wire object; its id is the default 0 |
| Repository.ToPlanetDTO | app/src/main/java/com/jpmc/sriraksha/starplanet/data/repository/PlanetRepositoryImpl.kt:77-94 | the wire object keeps the eleven descriptive fields; residents null, films empty, url empty |
| Repository.MapToPlanet | app/src/main/java/com/jpmc/sriraksha/starplanet/data/repository/PlanetRepositoryImpl.kt:25 | same length, and element i is the i-th wire object converted: order is kept |
| Repository.MapToPlanetDTO | app/src/main/java/com/jpmc/sriraksha/starplanet/data/repository/PlanetRepositoryImpl.kt:28 | same length, and element i is the i-th cached planet converted: order is kept |
| Repository.PlanetRoundTrip | app/src/main/java/com/jpmc/sriraksha/starplanet/data/repository/PlanetRepositoryImpl.kt:61-94 | planet to wire object and back gives the same planet with its id reset to 0 |
| Repository.PlanetDTORoundTrip | app/src/main/java/com/jpmc/sriraksha/starplanet/data/repository/PlanetRepositoryImpl.kt:62-93 | wire object to planet and back loses only residents, films and url |
| Repository.PlanetListRoundTrip | app/src/main/java/com/jpmc/sriraksha/starplanet/data/repository/PlanetRepositoryImpl.kt:25-28 | the round trip on a whole list gives the same planets, in order, with ids reset |
| Repository.MappedPlanetsHaveDefaultIds | app/src/main/java/com/jpmc/sriraksha/starplanet/data/model/Planet.kt:8-9 | planets made from wire objects already have the default id, so resetting ids changes nothing |
| Repository.PlanetRepositoryImpl.constructor | app/src/main/java/com/jpmc/sriraksha/starplanet/data/repository/PlanetRepositoryImpl.kt:15-19 | a new repository has no cursor |
| Repository.PlanetRepositoryImpl.GetPlanets | app/src/main/java/com/jpmc/sriraksha/starplanet/data/repository/PlanetRepositoryImpl.kt:21-44 | remote success: the response itself, cursor := its next, the store gains its planets in order. No network and an empty store: the same failure. No network and a non-empty store: success with count = rows, next = the unchanged cursor, previous = null, results = the cached planets converted in order. Other failure: propagated regardless of the cache. On every failure, cursor and store are unchanged |
| Repository.PlanetRepositoryImpl.GetNextPage | app/src/main/java/com/jpmc/sriraksha/starplanet/data/repository/PlanetRepositoryImpl.kt:46-58 | returns what the remote data source returns for that URL, with no offline fallback; on success, cursor := next and the store gains the page; on failure, cursor and store are unchanged |
| ViewModel.ErrorState | app/src/main/java/com/jpmc/sriraksha/starplanet/ui/viewmodel/PlanetsViewModel.kt:81-91 | every failure becomes an Error. NoNetwork and RemoteDataSource show their own message. NoMorePages shows "No more pages available". Any other throwable shows "Unknown error" |
| ViewModel.CurrentPlanets | app/src/main/java/com/jpmc/sriraksha/starplanet/ui/viewmodel/PlanetsViewModel.kt:59-60 | the list shown in a Success state, and the empty list in any other state |
| ViewModel.FetchedState | app/src/main/java/com/jpmc/sriraksha/starplanet/ui/viewmodel/PlanetsViewModel.kt:42-47 | Success exactly when the repository succeeded; its list holds the response's planets, converted, in order; a failure gives the error state |
| ViewModel.AppendedState | app/src/main/java/com/jpmc/sriraksha/starplanet/ui/viewmodel/PlanetsViewModel.kt:57-64 | on success, the list on screen is kept as a prefix, followed by the new page's planets in order; the old list is empty if the state was not Success. On failure, the error state replaces everything |
| ViewModel.LoadPagesAccumulates | app/src/main/java/com/sriraksha/starplanet/ui/viewmodel/PlanetsViewModel.kt:57-62 | successive successful loads show the list on screen followed by all pages' planets, in page order, duplicates kept |
| ViewModel.FetchThenLoadPages | app/src/main/java/com/sriraksha/starplanet/ui/viewmodel/PlanetsViewModel.kt:38-62 | a first page followed by successful loads shows exactly the planets of all pages, in order |
| ViewModel.FailedLoadDiscardsList | app/src/main/java/com/sriraksha/starplanet/ui/viewmodel/PlanetsViewModel.kt:63-64 | a failed load-more shows the same Error a failed first fetch would, discarding the list on screen |
| ViewModel.RemoteFailureMessages | app/src/main/java/com/sriraksha/starplanet/ui/viewmodel/PlanetsViewModel.kt:81-91 | a user sees "No network connection available" for any I/O failure, otherwise the remote message or "Unknown error" |
| ViewModel.PlanetsViewModel.constructor | app/src/main/java/com/sriraksha/starplanet/ui/viewmodel/PlanetsViewModel.kt:27-36 | without an initial fetch: Loading, no selection, flag false, no cursor, no repository call |
| ViewModel.PlanetsViewModel.WithInitialFetch | app/src/main/java/com/jpmc/sriraksha/starplanet/ui/viewmodel/PlanetsViewModel.kt:23-36 | `init` fetches once: exactly one repository call, and the state is that of a first fetch started with no cursor |
| ViewModel.PlanetsViewModel.FetchPlanets | app/src/main/java/com/jpmc/sriraksha/starplanet/ui/viewmodel/PlanetsViewModel.kt:38-49 | one repository call; Loading is assigned and then the fetched state; the cursor moves to `next` only on success; flag and selection untouched |
| ViewModel.PlanetsViewModel.LoadMorePlanets | app/src/main/java/com/jpmc/sriraksha/starplanet/ui/viewmodel/PlanetsViewModel.kt:52-69 | when a load is running or there is no cursor: no repository call and no change at all. Otherwise: exactly one request, for the cursor's URL; the state is the appended state; the cursor moves only on success; the flag ends false; the selection is untouched |
| ViewModel.PlanetsViewModel.OnPlanetSelected | app/src/main/java/com/jpmc/sriraksha/starplanet/ui/viewmodel/PlanetsViewModel.kt:71-73 | only the selection changes, to the planet |
| ViewModel.PlanetsViewModel.OnPlanetDetailsDismissed | app/src/main/java/com/jpmc/sriraksha/starplanet/ui/viewmodel/PlanetsViewModel.kt:75-79 | only the selection changes, to none |
| ViewModel.PlanetsViewModel.HandleError | app/src/main/java/com/sriraksha/starplanet/ui/viewmodel/PlanetsViewModel.kt:81-91 | the state becomes, and is emitted as, the Error for the failure; nothing else changes |
| LoadMore.Minus | app/src/main/java/com/jpmc/sriraksha/starplanet/ui/loadmore/strategy/DefaultLoadMoreStrategy.kt:12 | Kotlin `Int` subtraction: exact when it fits in 32 bits, otherwise congruent modulo 2^32 |
| LoadMore.LastVisibleIndex | app/src/main/java/com/jpmc/sriraksha/starplanet/ui/loadmore/strategy/DefaultLoadMoreStrategy.kt:10 | none exactly when nothing is visible, otherwise the index of the last visible item |
| LoadMore.DefaultLoadMoreStrategy.ShouldLoadMore | app/src/main/java/com/jpmc/sriraksha/starplanet/ui/loadmore/strategy/DefaultLoadMoreStrategy.kt:9-13 | false when nothing is visible; for a non-negative count and boundary, true exactly when the last visible index is at least count minus boundary |
| LoadMore.DefaultFiresWithinFive | app/src/main/java/com/jpmc/sriraksha/starplanet/ui/loadmore/strategy/DefaultLoadMoreStrategy.kt:8-12 | the default strategy fires exactly when the last visible index is at least count minus 5 |
| LoadMore.MonotoneInLastIndex | app/src/main/java/com/jpmc/sriraksha/starplanet/ui/loadmore/strategy/DefaultLoadMoreStrategy.kt:12 | with the same count, a later last visible item never switches the trigger off |
| LoadMore.MonotoneInBoundary | app/src/main/java/com/jpmc/sriraksha/starplanet/ui/loadmore/strategy/DefaultLoadMoreStrategy.kt:12 | a larger non-negative boundary never switches the trigger off |
| LoadMore.OnlyLastVisibleMatters | app/src/main/java/com/jpmc/sriraksha/starplanet/ui/loadmore/strategy/DefaultLoadMoreStrategy.kt:10 | layouts with the same count and the same last visible item get the same answer |
| LoadMore.WrapAroundAtExtremeBoundary | app/src/main/java/com/jpmc/sriraksha/starplanet/ui/loadmore/strategy/DefaultLoadMoreStrategy.kt:8-12 | with the boundary at the smallest `Int`, the subtraction wraps, and the trigger fires for item 0 of a 10-item list |
| Pipeline.PaginateToTheEnd | app/src/main/java/com/jpmc/sriraksha/starplanet/ui/viewmodel/PlanetsViewModel.kt:53-62 | first page [a, b] with cursor "p2", then a load-more answering [c] with no next: the screen shows [a, b, c] (the append that PlanetsViewmodelTest.kt lines 212-224 check), the cursor is none (line 62), and a further load-more changes nothing (the guard of line 53) |
| Pipeline.OfflineAfterOnlineShowsCachedPage | app/src/test/java/com/jpmc/sriraksha/starplanet/data/repository/PlanetRepositoryImplTest.kt:64-87 | after an online first fetch, an offline first fetch shows the same planets again, and the cursor is the one the online fetch left |
| Pipeline.OfflineAfterTwoFetchesShowsDuplicates | app/src/main/java/com/jpmc/sriraksha/starplanet/data/repository/PlanetRepositoryImpl.kt:21-39 | the same page fetched twice online is shown twice when offline, with count twice its length |
| Pipeline.OfflineWithEmptyCacheShowsError | app/src/main/java/com/jpmc/sriraksha/starplanet/data/repository/PlanetRepositoryImpl.kt:27-30 | offline with an empty store, the screen shows "No network connection available" |
| Pipeline.RemoteFailureIgnoresCache | app/src/test/java/com/jpmc/sriraksha/starplanet/data/repository/PlanetRepositoryImplTest.kt:93-107 | whatever the cache holds, a non-I/O failure is shown with its message or "Unknown error" |
| Pipeline.InitialFetchThenRetry | app/src/test/java/com/jpmc/sriraksha/starplanet/ui/viewmodel/PlanetsViewmodelTest.kt:119-134 | a view model that fetches in `init`, then fetches once more, has asked the repository twice and shows the second result |

## Left out

- Coroutines, `StateFlow` and dispatchers: each launched body is one atomic step, and steps never interleave. So between steps the "loading more" flag is always false, and the flag half of the `loadMorePlanets` guard only matters under interleaving. The interleaving in which `nextPageUrl!!` could find null is not modelled.
- The HTTP client, JSON decoding and the API interface: what one call does is an input (`ApiCall`). Throwables that are not `Exception`s escape `catch (e: Exception)` in the source, and they are not modelled.
- The database: SQL, `OnConflictStrategy.REPLACE` and the auto-generated ids are not modelled. Rows keep the id they were saved with, and `SELECT *` is taken to return rows in insertion order. Ids never reach the screen from the cache, because the cached planets pass through `toPlanetDTO`, which drops them.
- `PlanetResponse.previous` is untyped (`Any?`) in the source and is modelled as an optional string; the core only ever sets it to null.
- The repository with a remote data source that throws anything other than its two typed errors: the model wires it to the remote data source implementation, which cannot do that.
- `NoMorePagesException` is never thrown. It appears only in the error-to-message mapping.
- The interface files (`PlanetRepository.kt`, `PlanetRemoteDataSource.kt`, `PlanetLocalDataSource.kt`, `LoadMoreStrategy.kt`) add no behaviour: each is modelled through its one implementation.
- Compose screens, navigation, theming and dependency injection: rendering and wiring only. The screen's `LazyListState.shouldLoadMore` is the same comparison as the default strategy with boundary 5.
- LoadMore.MonotoneInBoundary: proved for non-negative boundaries only. For boundaries near the smallest `Int`, the 32-bit subtraction wraps and monotonicity fails (see `LoadMore.WrapAroundAtExtremeBoundary`).
- LoadMore.DefaultLoadMoreStrategy.ShouldLoadMore: its contract gives the plain comparison only for a non-negative count and boundary. Outside that range, the body's wrapped subtraction is the whole description.
