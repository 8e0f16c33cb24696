/**
 * The local data source: the `planets` table of the on-device database, as the
 * sequence of its rows in insertion order. Saving only inserts (no delete is
 * ever issued), and the count is taken over the same table that is read.
 */
module LocalStore {
  import opened Planets

  class PlanetLocalDataSource {
    /** The rows of the `planets` table, oldest first. */
    var rows: seq<Planet>

    /** A fresh, empty table. */
    constructor()
      ensures rows == []
    {
      rows := [];
    }

    /** `savePlanets`: inserts the planets after the existing rows; nothing is removed. */
    method SavePlanets(planets: seq<Planet>)
      modifies this
      ensures rows == old(rows) + planets
    {
      rows := rows + planets;
    }

    /** `getPlanets`: every row of the table. */
    method GetPlanets() returns (planets: seq<Planet>)
      ensures planets == rows
    {
      planets := rows;
    }

    /** `getPlanetsCount`: `COUNT(*)` over the table `GetPlanets` reads. */
    method GetPlanetsCount() returns (count: int)
      ensures count == |rows|
    {
      count := |rows|;
    }
  }
}
