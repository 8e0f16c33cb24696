/**
 * The value types that travel between the layers: the stored entity `Planet`,
 * the wire object `PlanetDTO` and one page of the API, `PlanetResponse`.
 * Every descriptive attribute is opaque text; nothing is parsed.
 */
module Planets {
  import opened Wrappers

  /** A row of the local `planets` table; `id` is the table's surrogate key, 0 until the store assigns one. */
  datatype Planet = Planet(
    id: int,
    name: string,
    rotationPeriod: string,
    orbitalPeriod: string,
    diameter: string,
    climate: string,
    gravity: string,
    terrain: string,
    surfaceWater: string,
    population: string,
    created: string,
    edited: string)

  /** The default value of `Planet.id` when a planet is built without one. */
  const DefaultPlanetId := 0

  /** One planet as the API sends it. */
  datatype PlanetDTO = PlanetDTO(
    name: string,
    rotationPeriod: string,
    orbitalPeriod: string,
    diameter: string,
    climate: string,
    gravity: string,
    terrain: string,
    surfaceWater: string,
    population: string,
    residents: Option<seq<string>>,
    films: seq<string>,
    created: string,
    edited: string,
    url: string)

  /**
   * One page: `count` is the total over all pages (not |results|), `next` the
   * locator of the following page, if any. The untyped `previous` field is
   * modelled as an optional string.
   */
  datatype PlanetResponse = PlanetResponse(
    count: int,
    next: Option<string>,
    previous: Option<string>,
    results: seq<PlanetDTO>)
}
