/** Recorded paths: a track is a named sequence of segments, a segment a sequence of points (GPXToolKit/GPXTrack.swift). */
module Tracks {
  import opened Wrappers
  import opened Waypoints

  datatype TrackSegment = TrackSegment(points: seq<Waypoint>)

  /** `GPXTrackSegment()`: a segment without points. */
  function NewTrackSegment(): (s: TrackSegment)
    ensures s.points == []
  {
    TrackSegment([])
  }

  /** A track's name is never absent: it is the empty string until a `name` element sets it. */
  datatype Track = Track(
    name: string,
    comment: Option<string>,
    description: Option<string>,
    segments: seq<TrackSegment>)

  /** `GPXTrack()`: empty name, no comment, no description, no segments. */
  function NewTrack(): (t: Track)
    ensures t.name == "" && t.comment == None && t.description == None
    ensures t.segments == []
  {
    Track("", None, None, [])
  }
}
