/**
  The stored restaurant document (database/model.py) and what the store's
  proximity query hands back for it.
 */
module Model {

  /** A GeoJSON point; its coordinates list is [longitude, latitude]. */
  datatype Point = Point(lon: real, lat: real)

  /**
    One document of the `restaurants` collection: the six required fields of
    the schema plus the identifier the store adds. `launchDate` is a day
    number; `popularity` is the score, larger meaning more popular.
   */
  datatype Restaurant = Restaurant(
    id: nat,
    blurhash: string,
    launchDate: int,
    location: Point,
    name: string,
    online: bool,
    popularity: real)

  /**
    One result of the store's proximity query around a customer point: the
    document and its distance from that point, as the store measured it.
   */
  datatype Hit = Hit(restaurant: Restaurant, distance: real)
}
