/** The records of models/structs.go. */
module Models {

  /** One artist as the upstream `/api/artists` list gives it. */
  datatype Artist = Artist(
    id: int,
    name: string,
    image: string,
    members: seq<string>,
    creationDate: int,
    firstAlbum: string,
    concertDates: string,
    relations: string)

  /** One entry of a `DatesLocations` map: a location and its dates. */
  datatype Place = Place(location: string, dates: seq<string>)

  /** Go's `map[string][]string`, kept as the sequence of its entries in
      whatever order a range over the map visits them (Go leaves that order
      unspecified). The nil map is the empty sequence. */
  type DatesLocations = seq<Place>

  /** One record of `/api/relation`. */
  datatype DatesLocation = DatesLocation(id: int, places: DatesLocations)

  /** One record of `/api/dates`. */
  datatype Date = Date(id: int, dates: seq<string>)

  /** One record of `/api/locations`. */
  datatype Location = Location(artistId: int, locations: seq<string>, date: string)

  /** One entry of the in-memory artist cache. */
  datatype Data = Data(
    name: string,
    id: int,
    image: string,
    members: seq<string>,
    creationDate: int,
    firstAlbum: string,
    dateAndLocation: DatesLocations,
    dates: seq<Date>,
    locations: seq<Location>)

  /** Go's zero values of the transient records. */
  const ZeroDate := Date(0, [])
  const ZeroLocation := Location(0, [], "")
}
