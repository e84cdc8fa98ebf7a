/** The geometry library the correlator calls, as an oracle: the three turf
    operations are left uninterpreted and passed in as functions. */
module Turf {
  import opened Wrappers
  import opened Js

  /** A WGS84 position in decimal degrees, longitude first as in GeoJSON. */
  datatype Position = Position(lon: real, lat: real)

  /** A coordinate computed by JavaScript arithmetic: a number or NaN. */
  datatype Coord = Deg(deg: real) | NaN

  /** A GeoJSON point feature, longitude first. */
  datatype Point = Point(lon: real, lat: real)

  const NotNumbersMessage: string := "coordinates must contain numbers"

  /** `turf.point([lon, lat])`: the constructor validates its coordinates and
      throws when either of them is not a number. */
  function MakePoint(lon: Coord, lat: Coord): (r: Result<Point>)
    ensures r.Ok? <==> lon.Deg? && lat.Deg?
    ensures r.Ok? ==> r.value.lon == lon.deg && r.value.lat == lat.deg
    ensures r.Err? ==> r.error == Error("Error", NotNumbersMessage)
  {
    if lon.NaN? || lat.NaN? then Err(Error("Error", NotNumbersMessage))
    else Ok(Point(lon.deg, lat.deg))
  }

  /** `turf.lineString([origin, destination])` */
  datatype LineString = LineString(origin: Position, destination: Position)

  /** `buffer(line, meters)` gives a GeoJSON feature; `booleanIntersects` and
      `booleanPointInPolygon` test GeoJSON values. */
  datatype Oracle = Oracle(
    buffer: (LineString, int) -> Value,
    booleanIntersects: (Value, Value) -> bool,
    booleanPointInPolygon: (Point, Value) -> bool)

  /** `{ type: "Feature", properties: {}, geometry }` */
  function Feature(geometry: Value): (f: Value)
    ensures Field(f, "geometry") == geometry
  {
    Obj(map["type" := Str("Feature"), "properties" := Obj(map[]), "geometry" := geometry])
  }
}
