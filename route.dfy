/** A planned path: an ordered sequence of waypoints with optional text (GPXToolKit/GPXRoute.swift). */
module Routes {
  import opened Wrappers
  import opened Waypoints

  datatype Route = Route(
    points: seq<Waypoint>,
    name: Option<string>,
    comment: Option<string>,
    description: Option<string>)

  /** `GPXRoute()`: no points and no name, comment or description. */
  function NewRoute(): (r: Route)
    ensures r.points == []
    ensures r.name == None && r.comment == None && r.description == None
  {
    Route([], None, None, None)
  }
}
