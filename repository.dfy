/**
 * The repository: fetches pages from the remote data source, remembers the
 * next-page cursor, writes every fetched page to the local store, and serves
 * the first page from the store when the network is unavailable.
 */
module Repository {
  import opened Wrappers
  import opened Planets
  import opened AppErrors
  import RemoteSource
  import opened LocalStore

  /** `p` and `d` agree on the eleven descriptive attributes a planet is stored with. */
  predicate SameDescription(p: Planet, d: PlanetDTO) {
    && p.name == d.name
    && p.rotationPeriod == d.rotationPeriod
    && p.orbitalPeriod == d.orbitalPeriod
    && p.diameter == d.diameter
    && p.climate == d.climate
    && p.gravity == d.gravity
    && p.terrain == d.terrain
    && p.surfaceWater == d.surfaceWater
    && p.population == d.population
    && p.created == d.created
    && p.edited == d.edited
  }

  /** `PlanetDTO.toPlanet()`: keeps the description, leaves the id at its default. */
  function ToPlanet(d: PlanetDTO): (p: Planet)
    ensures SameDescription(p, d)
    ensures p.id == DefaultPlanetId
  {
    Planet(DefaultPlanetId, d.name, d.rotationPeriod, d.orbitalPeriod, d.diameter, d.climate,
           d.gravity, d.terrain, d.surfaceWater, d.population, d.created, d.edited)
  }

  /** `Planet.toPlanetDTO()`: keeps the description; no residents, no films, an empty url. */
  function ToPlanetDTO(p: Planet): (d: PlanetDTO)
    ensures SameDescription(p, d)
    ensures d.residents == None && d.films == [] && d.url == ""
  {
    PlanetDTO(p.name, p.rotationPeriod, p.orbitalPeriod, p.diameter, p.climate, p.gravity,
              p.terrain, p.surfaceWater, p.population, None, [], p.created, p.edited, "")
  }

  /** `results.map { it.toPlanet() }`. */
  function MapToPlanet(dtos: seq<PlanetDTO>): (ps: seq<Planet>)
    ensures |ps| == |dtos|
    ensures forall i :: 0 <= i < |dtos| ==> ps[i] == ToPlanet(dtos[i])
  {
    if dtos == [] then [] else [ToPlanet(dtos[0])] + MapToPlanet(dtos[1..])
  }

  /** `planets.map { it.toPlanetDTO() }`. */
  function MapToPlanetDTO(ps: seq<Planet>): (dtos: seq<PlanetDTO>)
    ensures |dtos| == |ps|
    ensures forall i :: 0 <= i < |ps| ==> dtos[i] == ToPlanetDTO(ps[i])
  {
    if ps == [] then [] else [ToPlanetDTO(ps[0])] + MapToPlanetDTO(ps[1..])
  }

  /** The planets with their ids reset to the default, everything else kept. */
  function WithDefaultIds(ps: seq<Planet>): (qs: seq<Planet>)
    ensures |qs| == |ps|
    ensures forall i :: 0 <= i < |ps| ==> qs[i] == ps[i].(id := DefaultPlanetId)
  {
    if ps == [] then [] else [ps[0].(id := DefaultPlanetId)] + WithDefaultIds(ps[1..])
  }

  /** Planets built from wire objects already carry the default id. */
  lemma MappedPlanetsHaveDefaultIds(dtos: seq<PlanetDTO>)
    ensures WithDefaultIds(MapToPlanet(dtos)) == MapToPlanet(dtos)
  {
  }

  /** A stored planet survives the trip through the wire type except for its id. */
  lemma PlanetRoundTrip(p: Planet)
    ensures ToPlanet(ToPlanetDTO(p)) == p.(id := DefaultPlanetId)
  {
  }

  /** A wire planet survives the trip through the stored type except for the three fields not stored. */
  lemma PlanetDTORoundTrip(d: PlanetDTO)
    ensures ToPlanetDTO(ToPlanet(d)) == d.(residents := None, films := [], url := "")
  {
  }

  /** The round trip on whole lists, in order. */
  lemma {:induction false} PlanetListRoundTrip(ps: seq<Planet>)
    ensures MapToPlanet(MapToPlanetDTO(ps)) == WithDefaultIds(ps)
  {
    if ps != [] {
      PlanetListRoundTrip(ps[1..]);
      assert MapToPlanetDTO(ps)[1..] == MapToPlanetDTO(ps[1..]);
    }
  }

  /** Mapping a concatenation maps each part in order. */
  lemma {:induction false} MapToPlanetAppend(a: seq<PlanetDTO>, b: seq<PlanetDTO>)
    ensures MapToPlanet(a + b) == MapToPlanet(a) + MapToPlanet(b)
  {
    if a != [] {
      MapToPlanetAppend(a[1..], b);
      assert (a + b)[1..] == a[1..] + b;
    }
  }

  class PlanetRepositoryImpl {
    const localDataSource: PlanetLocalDataSource
    /** The locator of the page after the last one fetched; `None` before any fetch or after the last page. */
    var currentPageUrl: Option<string>

    constructor(localDataSource: PlanetLocalDataSource)
      ensures this.localDataSource == localDataSource
      ensures currentPageUrl == None
    {
      this.localDataSource := localDataSource;
      currentPageUrl := None;
    }

    /**
     * `getPlanets()`: the first page. `api` is what the HTTP call does; it is
     * classified by the remote data source before the repository sees it.
     */
    method GetPlanets(api: RemoteSource.ApiCall) returns (result: Result<PlanetResponse>)
      modifies this, localDataSource
      // remote success: the page is returned as is, its cursor kept, its planets cached
      ensures RemoteSource.GetPlanets(api).Success? ==>
                && result == RemoteSource.GetPlanets(api)
                && currentPageUrl == result.value.next
                && localDataSource.rows == old(localDataSource.rows) + MapToPlanet(result.value.results)
      // any remote failure: neither the cursor nor the store changes
      ensures RemoteSource.GetPlanets(api).Failure? ==>
                currentPageUrl == old(currentPageUrl) && localDataSource.rows == old(localDataSource.rows)
      // no network and nothing cached: the same failure
      ensures RemoteSource.GetPlanets(api).Failure? && RemoteSource.GetPlanets(api).error.NoNetworkException?
              && old(localDataSource.rows) == [] ==>
                result == RemoteSource.GetPlanets(api)
      // no network, something cached: a page built from the cache
      ensures RemoteSource.GetPlanets(api).Failure? && RemoteSource.GetPlanets(api).error.NoNetworkException?
              && old(localDataSource.rows) != [] ==>
                && result.Success?
                && result.value.count == |old(localDataSource.rows)|
                && result.value.next == old(currentPageUrl)
                && result.value.previous == None
                && result.value.results == MapToPlanetDTO(old(localDataSource.rows))
      // any other remote failure: propagated, whatever the cache holds
      ensures RemoteSource.GetPlanets(api).Failure? && !RemoteSource.GetPlanets(api).error.NoNetworkException? ==>
                result == RemoteSource.GetPlanets(api)
    {
      var remote := RemoteSource.GetPlanets(api);
      match remote
      case Success(response) =>
        currentPageUrl := response.next;
        localDataSource.SavePlanets(MapToPlanet(response.results));
        result := Success(response);
      case Failure(e) =>
        if e.NoNetworkException? {
          var cached := localDataSource.GetPlanets();
          var cachedPlanets := MapToPlanetDTO(cached);
          if cachedPlanets == [] {
            result := Failure(e);
          } else {
            var count := localDataSource.GetPlanetsCount();
            result := Success(PlanetResponse(count, currentPageUrl, None, cachedPlanets));
          }
        } else {
          // the remote data source throws only RemoteDataSourceException besides NoNetworkException
          result := Failure(e);
        }
    }

    /** `getNextPage(nextPageUrl)`: like the first page on success, but with no offline fallback. */
    method GetNextPage(nextPageUrl: string, pageApi: string -> RemoteSource.ApiCall)
      returns (result: Result<PlanetResponse>)
      modifies this, localDataSource
      ensures result == RemoteSource.GetNextPage(nextPageUrl, pageApi)
      ensures result.Success? ==>
                && currentPageUrl == result.value.next
                && localDataSource.rows == old(localDataSource.rows) + MapToPlanet(result.value.results)
      ensures result.Failure? ==>
                currentPageUrl == old(currentPageUrl) && localDataSource.rows == old(localDataSource.rows)
    {
      var remote := RemoteSource.GetNextPage(nextPageUrl, pageApi);
      match remote
      case Success(response) =>
        currentPageUrl := response.next;
        localDataSource.SavePlanets(MapToPlanet(response.results));
        result := Success(response);
      case Failure(e) =>
        result := Failure(e);
    }
  }
}
