/** A geographic point with optional metadata (GPXToolKit/GPXWaypoint.swift). */
module Waypoints {
  import opened Wrappers

  /** An instant in whole seconds; its textual form is produced and read by the date encoders and decoders. */
  datatype Date = Date(seconds: int)

  /** `Double(_:)` on a string: the number it denotes, or nothing when it is not a number. */
  type NumberDecoder = string -> Option<real>

  /** The only coordinates a waypoint may carry: latitude and longitude within their inclusive ranges. */
  predicate ValidCoordinate(lat: real, lon: real)
  {
    -90.0 <= lat <= 90.0 && -180.0 <= lon <= 180.0
  }

  /** The stored fields of a waypoint. `lat` and `lon` are constants in the source; the rest are set by the parser. */
  datatype WaypointData = WaypointData(
    lat: real,
    lon: real,
    elevation: Option<real>,
    date: Option<Date>,
    name: Option<string>,
    comment: Option<string>,
    description: Option<string>)

  /** A waypoint: the failable initializer is the single gate, so every waypoint has valid coordinates. */
  type Waypoint = w: WaypointData | ValidCoordinate(w.lat, w.lon)
    witness WaypointData(0.0, 0.0, None, None, None, None, None)

  /** `init?(lat:lon:)`: both strings must be numbers and lie in range; a new waypoint has no other field set. */
  function NewWaypoint(lat: string, lon: string, number: NumberDecoder): (r: Option<Waypoint>)
    ensures r.Some? <==>
      number(lat).Some? && number(lon).Some? && ValidCoordinate(number(lat).value, number(lon).value)
    ensures r.Some? ==> r.value.lat == number(lat).value && r.value.lon == number(lon).value
    ensures r.Some? ==>
      r.value.elevation == None && r.value.date == None &&
      r.value.name == None && r.value.comment == None && r.value.description == None
  {
    match (number(lat), number(lon))
    case (Some(latitude), Some(longitude)) =>
      if ValidCoordinate(latitude, longitude) then
        Some(WaypointData(latitude, longitude, None, None, None, None, None))
      else
        None
    case _ => None
  }
}
