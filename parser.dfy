/**
 * The event-driven GPX reader (GPXToolKit/GPXParser.swift).
 *
 * An XML tokenizer reports start-element, end-element and character events; the parser keeps one
 * "current" slot per open entity and a text buffer, and appends every entity it finishes to one of
 * three found lists. Each handler is a guarded update of those fields. The pure functions
 * OnStartElement, OnEndElement and OnCharacters give the transition on a snapshot of the fields, and
 * the methods of class GPXParser perform it in place and are proved to agree with them.
 */
module Parser {
  import opened Wrappers
  import opened Keys
  import opened Waypoints
  import opened Tracks
  import opened Routes

  /** The parser's private tag enum: the cases of GPXKey except `gpx`, so the root element is never handled. */
  type ParserKey = k: GPXKey | k != Gpx witness Trk

  /** The element names whose text content is assigned to the innermost open entity. */
  type TextKey = k: GPXKey | k == Name || k == Cmt || k == Desc witness Name

  /** `GPXKey(rawValue: elementName)` for the private enum: nothing for `gpx` and for every unknown name. */
  function ParserKeyOf(elementName: string): (r: Option<ParserKey>)
    ensures r.Some? ==> RawValue(r.value) == elementName
    ensures r.None? <==> elementName == "gpx" || forall k :: RawValue(k) != elementName
  {
    match FromRawValue(elementName)
    case Some(k) => if k == Gpx then None else Some(k)
    case None => None
  }

  /** `ISO8601DateFormatter.date(from:)`: the instant a string denotes, or nothing. */
  type DateDecoder = string -> Option<Date>

  /** The two conversions the parser delegates to Foundation. */
  datatype Decoders = Decoders(number: NumberDecoder, date: DateDecoder)

  /** A snapshot of the parser's fields, named as in the source. */
  datatype ParseContext = ParseContext(
    currentTrack: Option<Track>,
    currentTrackSegment: Option<TrackSegment>,
    currentPoint: Option<Waypoint>,
    currentRoute: Option<Route>,
    currentString: Option<string>,
    foundTracks: seq<Track>,
    foundRoutes: seq<Route>,
    foundWaypoints: seq<Waypoint>)

  /** The fields of a new parser: nothing open, no text buffer, nothing found. */
  const EmptyContext: ParseContext := ParseContext(None, None, None, None, None, [], [], [])

  /** `didStartElement`: open the entity the element names, or start a text buffer for a leaf element. */
  function OnStartElement(c: ParseContext, elementName: string, attributes: map<string, string>, dec: Decoders)
    : (r: ParseContext)
    ensures ParserKeyOf(elementName).None? ==> r == c
    ensures r.foundTracks == c.foundTracks && r.foundRoutes == c.foundRoutes
    ensures r.foundWaypoints == c.foundWaypoints
    ensures r.currentPoint != c.currentPoint ==>
      "lat" in attributes && "lon" in attributes &&
      r.currentPoint == NewWaypoint(attributes["lat"], attributes["lon"], dec.number) && r.currentPoint.Some?
  {
    match ParserKeyOf(elementName)
    case None => c
    case Some(key) =>
      match key
      case Trk => c.(currentTrack := Some(NewTrack()))
      case Trkseg => c.(currentTrackSegment := Some(NewTrackSegment()))
      case Trkpt | Rtept | Wpt =>
        if "lat" in attributes && "lon" in attributes then
          match NewWaypoint(attributes["lat"], attributes["lon"], dec.number)
          case Some(point) => c.(currentPoint := Some(point))
          case None => c
        else
          c
      case Rte => c.(currentRoute := Some(NewRoute()))
      case Ele | Time | Desc | Cmt | Name => c.(currentString := Some(""))
  }

  function WithPointText(p: Waypoint, key: TextKey, text: string): Waypoint
  {
    if key == Name then p.(name := Some(text))
    else if key == Cmt then p.(comment := Some(text))
    else p.(description := Some(text))
  }

  function WithTrackText(t: Track, key: TextKey, text: string): Track
  {
    if key == Name then t.(name := text)
    else if key == Cmt then t.(comment := Some(text))
    else t.(description := Some(text))
  }

  function WithRouteText(r: Route, key: TextKey, text: string): Route
  {
    if key == Name then r.(name := Some(text))
    else if key == Cmt then r.(comment := Some(text))
    else r.(description := Some(text))
  }

  /** End of `name`, `cmt` or `desc`: the buffer goes to the open point, else the open track, else the open route. */
  function CloseTextElement(c: ParseContext, key: TextKey): ParseContext
  {
    match c.currentString
    case None => c
    case Some(text) =>
      var given :=
        if c.currentPoint.Some? then
          c.(currentPoint := Some(WithPointText(c.currentPoint.value, key, text)))
        else if c.currentTrack.Some? then
          c.(currentTrack := Some(WithTrackText(c.currentTrack.value, key, text)))
        else if c.currentRoute.Some? then
          c.(currentRoute := Some(WithRouteText(c.currentRoute.value, key, text)))
        else
          c;
      given.(currentString := None)
  }

  /** End of `ele`: set the open point's elevation when the buffer parses as a number; always drop the buffer. */
  function CloseElevation(c: ParseContext, dec: Decoders): ParseContext
  {
    if c.currentPoint.Some? && c.currentString.Some? && dec.number(c.currentString.value).Some? then
      c.(currentPoint := Some(c.currentPoint.value.(elevation := dec.number(c.currentString.value))),
         currentString := None)
    else
      c.(currentString := None)
  }

  /** End of `time`: set the open point's date when the buffer parses as a date; always drop the buffer. */
  function CloseTime(c: ParseContext, dec: Decoders): ParseContext
  {
    if c.currentString.Some? && dec.date(c.currentString.value).Some? && c.currentPoint.Some? then
      c.(currentPoint := Some(c.currentPoint.value.(date := dec.date(c.currentString.value))),
         currentString := None)
    else
      c.(currentString := None)
  }

  /**
   * `didEndElement`: hand the finished entity to its container, or the buffered text to its owner.
   * Whatever happens, the found lists keep their prefix and grow by at most one entity, and an open
   * point keeps the coordinates it was created with.
   */
  function OnEndElement(c: ParseContext, elementName: string, dec: Decoders): (r: ParseContext)
    ensures ParserKeyOf(elementName).None? ==> r == c
    ensures c.foundTracks <= r.foundTracks && |r.foundTracks| <= |c.foundTracks| + 1
    ensures c.foundRoutes <= r.foundRoutes && |r.foundRoutes| <= |c.foundRoutes| + 1
    ensures c.foundWaypoints <= r.foundWaypoints && |r.foundWaypoints| <= |c.foundWaypoints| + 1
    ensures r.currentPoint.Some? ==>
      c.currentPoint.Some? &&
      r.currentPoint.value.lat == c.currentPoint.value.lat && r.currentPoint.value.lon == c.currentPoint.value.lon
    ensures r.currentString.Some? ==> r.currentString == c.currentString
  {
    match ParserKeyOf(elementName)
    case None => c
    case Some(key) =>
      match key
      case Trk =>
        if c.currentTrack.Some? then
          c.(foundTracks := c.foundTracks + [c.currentTrack.value], currentTrack := None)
        else c
      case Trkseg =>
        if c.currentTrack.Some? && c.currentTrackSegment.Some? then
          var track := c.currentTrack.value;
          c.(currentTrack := Some(track.(segments := track.segments + [c.currentTrackSegment.value])),
             currentTrackSegment := None)
        else c
      case Trkpt =>
        if c.currentTrackSegment.Some? && c.currentPoint.Some? then
          var segment := c.currentTrackSegment.value;
          c.(currentTrackSegment := Some(segment.(points := segment.points + [c.currentPoint.value])),
             currentPoint := None)
        else c
      case Rte =>
        if c.currentRoute.Some? then
          c.(foundRoutes := c.foundRoutes + [c.currentRoute.value], currentRoute := None)
        else c
      case Rtept =>
        if c.currentRoute.Some? && c.currentPoint.Some? then
          var route := c.currentRoute.value;
          c.(currentRoute := Some(route.(points := route.points + [c.currentPoint.value])),
             currentPoint := None)
        else c
      case Wpt =>
        if c.currentPoint.Some? then
          c.(foundWaypoints := c.foundWaypoints + [c.currentPoint.value], currentPoint := None)
        else c
      case Ele => CloseElevation(c, dec)
      case Time => CloseTime(c, dec)
      case Name | Cmt | Desc => CloseTextElement(c, key)
  }

  /**
   * `didEndElement` with the route branches as the source writes them. GPXRoute is a struct, so
   * `guard let route = self.currentRoute` binds a copy: appending a point to it, or setting its name,
   * comment or description, changes only the copy, and `currentRoute` keeps its old value. The point and
   * the buffer are still dropped. Every other branch is OnEndElement's.
   */
  function OnEndElementAsWritten(c: ParseContext, elementName: string, dec: Decoders): (r: ParseContext)
    ensures ParserKeyOf(elementName) != Some(Rte) ==> r.currentRoute == c.currentRoute
  {
    match ParserKeyOf(elementName)
    case Some(Rtept) =>
      if c.currentRoute.Some? && c.currentPoint.Some? then c.(currentPoint := None) else c
    case Some(Name) | Some(Cmt) | Some(Desc) =>
      if c.currentString.Some? && c.currentPoint.None? && c.currentTrack.None? && c.currentRoute.Some? then
        c.(currentString := None)
      else
        OnEndElement(c, elementName, dec)
    case _ => OnEndElement(c, elementName, dec)
  }

  /**
   * The end of an `rtept` inside a route: as written, the point is consumed and the route is left without
   * it; with the route updated in place, the route gains the point.
   */
  lemma RoutePointLost(c: ParseContext, r: Route, p: Waypoint, dec: Decoders)
    requires c.currentRoute == Some(r) && c.currentPoint == Some(p)
    ensures OnEndElementAsWritten(c, RawValue(Rtept), dec) == c.(currentPoint := None)
    ensures OnEndElement(c, RawValue(Rtept), dec) == c.(currentRoute := Some(r.(points := r.points + [p])), currentPoint := None)
    ensures OnEndElementAsWritten(c, RawValue(Rtept), dec) != OnEndElement(c, RawValue(Rtept), dec)
  {
    assert ParserKeyOf(RawValue(Rtept)) == Some(Rtept);
    assert r.(points := r.points + [p]).points != r.points;
  }

  /**
   * The end of a route's `name`: as written, the text is consumed and the route keeps no name; with the route
   * updated in place, the route is named.
   */
  lemma RouteNameLost(c: ParseContext, r: Route, text: string, dec: Decoders)
    requires c.currentRoute == Some(r) && c.currentString == Some(text)
    requires c.currentPoint.None? && c.currentTrack.None? && r.name.None?
    ensures OnEndElementAsWritten(c, RawValue(Name), dec) == c.(currentString := None)
    ensures OnEndElement(c, RawValue(Name), dec) == c.(currentRoute := Some(r.(name := Some(text))), currentString := None)
    ensures OnEndElementAsWritten(c, RawValue(Name), dec) != OnEndElement(c, RawValue(Name), dec)
  {
    assert ParserKeyOf(RawValue(Name)) == Some(Name);
  }

  /** `foundCharacters`: text is appended while a buffer is open and discarded otherwise; nothing else changes. */
  function OnCharacters(c: ParseContext, s: string): (r: ParseContext)
    ensures r.currentString.Some? <==> c.currentString.Some?
    ensures c.currentString.Some? ==> r.currentString.value == c.currentString.value + s
    ensures r.(currentString := c.currentString) == c
  {
    match c.currentString
    case None => c
    case Some(current) => c.(currentString := Some(current + s))
  }

  // ---------------------------------------------------------------------------------------------
  // Each handler, element by element: what happens when its guard holds and when it fails

  /** Every element the parser handles is recognised by its raw value. */
  lemma KeyOfRaw(k: ParserKey)
    ensures ParserKeyOf(RawValue(k)) == Some(k)
  {
    RawValueRoundTrip(k);
  }

  /** A `trk`, `trkseg` or `rte` start tag opens a new entity of that kind, whatever its attributes. */
  lemma EntityStart(c: ParseContext, attributes: map<string, string>, dec: Decoders)
    ensures OnStartElement(c, "trk", attributes, dec) == c.(currentTrack := Some(NewTrack()))
    ensures OnStartElement(c, "trkseg", attributes, dec) == c.(currentTrackSegment := Some(NewTrackSegment()))
    ensures OnStartElement(c, "rte", attributes, dec) == c.(currentRoute := Some(NewRoute()))
  {
    KeyOfRaw(Trk);
    KeyOfRaw(Trkseg);
    KeyOfRaw(Rte);
  }

  /**
   * A `trkpt`, `rtept` or `wpt` start tag opens the point its `lat` and `lon` attributes describe. Without
   * both attributes, or when they are not numbers in range, it changes nothing.
   */
  lemma PointStartCases(c: ParseContext, key: ParserKey, attributes: map<string, string>, dec: Decoders)
    requires key == Trkpt || key == Rtept || key == Wpt
    ensures var r := OnStartElement(c, RawValue(key), attributes, dec);
      if "lat" in attributes && "lon" in attributes && NewWaypoint(attributes["lat"], attributes["lon"], dec.number).Some?
      then r == c.(currentPoint := NewWaypoint(attributes["lat"], attributes["lon"], dec.number))
      else r == c
  {
    KeyOfRaw(key);
  }

  /** An `ele`, `time`, `name`, `cmt` or `desc` start tag starts an empty text buffer, replacing any open one. */
  lemma TextStart(c: ParseContext, key: ParserKey, attributes: map<string, string>, dec: Decoders)
    requires key == Ele || key == Time || key == Name || key == Cmt || key == Desc
    ensures OnStartElement(c, RawValue(key), attributes, dec) == c.(currentString := Some(""))
  {
    KeyOfRaw(key);
  }

  /** `trk` end: the open track joins the found tracks and the slot is cleared; with no open track nothing changes. */
  lemma TrackEnd(c: ParseContext, dec: Decoders)
    ensures OnEndElement(c, "trk", dec)
         == if c.currentTrack.Some? then c.(foundTracks := c.foundTracks + [c.currentTrack.value], currentTrack := None)
            else c
  {
    KeyOfRaw(Trk);
  }

  /** `trkseg` end: the open segment joins the open track; unless both are open nothing changes. */
  lemma SegmentEnd(c: ParseContext, dec: Decoders)
    ensures OnEndElement(c, "trkseg", dec)
         == if c.currentTrack.Some? && c.currentTrackSegment.Some? then
              c.(currentTrack := Some(c.currentTrack.value.(segments := c.currentTrack.value.segments + [c.currentTrackSegment.value])),
                 currentTrackSegment := None)
            else c
  {
    KeyOfRaw(Trkseg);
  }

  /** `trkpt` end: the open point joins the open segment; unless both are open nothing changes. */
  lemma TrackPointEnd(c: ParseContext, dec: Decoders)
    ensures OnEndElement(c, "trkpt", dec)
         == if c.currentTrackSegment.Some? && c.currentPoint.Some? then
              c.(currentTrackSegment := Some(c.currentTrackSegment.value.(points := c.currentTrackSegment.value.points + [c.currentPoint.value])),
                 currentPoint := None)
            else c
  {
    KeyOfRaw(Trkpt);
  }

  /** `rte` end: the open route joins the found routes and the slot is cleared; with no open route nothing changes. */
  lemma RouteEnd(c: ParseContext, dec: Decoders)
    ensures OnEndElement(c, "rte", dec)
         == if c.currentRoute.Some? then c.(foundRoutes := c.foundRoutes + [c.currentRoute.value], currentRoute := None)
            else c
  {
    KeyOfRaw(Rte);
  }

  /** `rtept` end: the open point joins the open route; unless both are open nothing changes. */
  lemma RoutePointEnd(c: ParseContext, dec: Decoders)
    ensures OnEndElement(c, "rtept", dec)
         == if c.currentRoute.Some? && c.currentPoint.Some? then
              c.(currentRoute := Some(c.currentRoute.value.(points := c.currentRoute.value.points + [c.currentPoint.value])),
                 currentPoint := None)
            else c
  {
    KeyOfRaw(Rtept);
  }

  /** `wpt` end: the open point joins the found waypoints and the slot is cleared; with no open point nothing changes. */
  lemma WaypointEnd(c: ParseContext, dec: Decoders)
    ensures OnEndElement(c, "wpt", dec)
         == if c.currentPoint.Some? then c.(foundWaypoints := c.foundWaypoints + [c.currentPoint.value], currentPoint := None)
            else c
  {
    KeyOfRaw(Wpt);
  }

  /**
   * `ele` end: the buffer is always dropped. The open point's elevation is set only when there is a point and
   * the buffer reads as a number; otherwise nothing else changes.
   */
  lemma ElevationEnd(c: ParseContext, dec: Decoders)
    ensures var r := OnEndElement(c, "ele", dec);
      r.currentString.None? &&
      if c.currentPoint.Some? && c.currentString.Some? && dec.number(c.currentString.value).Some? then
        r == c.(currentPoint := Some(c.currentPoint.value.(elevation := dec.number(c.currentString.value))), currentString := None)
      else r == c.(currentString := None)
  {
    KeyOfRaw(Ele);
  }

  /**
   * `time` end: the buffer is always dropped. The open point's date is set only when the buffer reads as a
   * date and there is a point; otherwise nothing else changes.
   */
  lemma TimeEnd(c: ParseContext, dec: Decoders)
    ensures var r := OnEndElement(c, "time", dec);
      r.currentString.None? &&
      if c.currentString.Some? && dec.date(c.currentString.value).Some? && c.currentPoint.Some? then
        r == c.(currentPoint := Some(c.currentPoint.value.(date := dec.date(c.currentString.value))), currentString := None)
      else r == c.(currentString := None)
  {
    KeyOfRaw(Time);
  }

  /**
   * `name`, `cmt` or `desc` end: with no buffer nothing changes. Otherwise the text goes to the open point,
   * else to the open track, else to the open route, else nowhere, and the buffer is dropped.
   */
  lemma TextEnd(c: ParseContext, key: TextKey, dec: Decoders)
    ensures var r := OnEndElement(c, RawValue(key), dec);
      if c.currentString.None? then r == c
      else
        var text := c.currentString.value;
        r.currentString.None? &&
        (c.currentPoint.Some? ==> r == c.(currentPoint := Some(WithPointText(c.currentPoint.value, key, text)), currentString := None)) &&
        (c.currentPoint.None? && c.currentTrack.Some? ==>
           r == c.(currentTrack := Some(WithTrackText(c.currentTrack.value, key, text)), currentString := None)) &&
        (c.currentPoint.None? && c.currentTrack.None? && c.currentRoute.Some? ==>
           r == c.(currentRoute := Some(WithRouteText(c.currentRoute.value, key, text)), currentString := None)) &&
        (c.currentPoint.None? && c.currentTrack.None? && c.currentRoute.None? ==> r == c.(currentString := None))
  {
    KeyOfRaw(key);
  }

  /** The events an XML tokenizer reports to the parser's delegate methods. */
  datatype Event =
    | ElementStarted(name: string, attributes: map<string, string>)
    | ElementEnded(name: string)
    | CharactersFound(text: string)

  function Step(c: ParseContext, e: Event, dec: Decoders): ParseContext
  {
    match e
    case ElementStarted(name, attributes) => OnStartElement(c, name, attributes, dec)
    case ElementEnded(name) => OnEndElement(c, name, dec)
    case CharactersFound(text) => OnCharacters(c, text)
  }

  /** The fields after the parser has handled `events` in order, starting from `c`. */
  function Run(c: ParseContext, events: seq<Event>, dec: Decoders): ParseContext
    decreases |events|
  {
    if events == [] then c else Run(Step(c, events[0], dec), events[1..], dec)
  }

  /** Handling two event streams one after the other is handling their concatenation. */
  lemma {:induction false} RunConcat(c: ParseContext, a: seq<Event>, b: seq<Event>, dec: Decoders)
    ensures Run(c, a + b, dec) == Run(Run(c, a, dec), b, dec)
    decreases |a|
  {
    if a == [] {
      assert a + b == b;
    } else {
      assert (a + b)[0] == a[0];
      assert (a + b)[1..] == a[1..] + b;
      RunConcat(Step(c, a[0], dec), a[1..], b, dec);
    }
  }

  /** Handling one more event is one more step. */
  lemma RunSnoc(c: ParseContext, events: seq<Event>, e: Event, dec: Decoders)
    ensures Run(c, events + [e], dec) == Step(Run(c, events, dec), e, dec)
  {
    RunConcat(c, events, [e], dec);
    assert [e][1..] == [];
  }

  /**
   * Whatever the events, the parser never removes or reorders what it has found: each found list of
   * the start state is a prefix of the corresponding list at the end, which is at most one entity per
   * event longer.
   */
  lemma {:induction false} FoundListsOnlyGrow(c: ParseContext, events: seq<Event>, dec: Decoders)
    ensures var r := Run(c, events, dec);
      c.foundTracks <= r.foundTracks && c.foundRoutes <= r.foundRoutes && c.foundWaypoints <= r.foundWaypoints &&
      |r.foundTracks| + |r.foundRoutes| + |r.foundWaypoints| <=
        |c.foundTracks| + |c.foundRoutes| + |c.foundWaypoints| + |events|
    decreases |events|
  {
    if events != [] {
      var next := Step(c, events[0], dec);
      StepGrows(c, events[0], dec);
      FoundListsOnlyGrow(next, events[1..], dec);
    }
  }

  /** One event keeps every found list as a prefix and adds at most one entity in all. */
  lemma StepGrows(c: ParseContext, e: Event, dec: Decoders)
    ensures var r := Step(c, e, dec);
      c.foundTracks <= r.foundTracks && c.foundRoutes <= r.foundRoutes && c.foundWaypoints <= r.foundWaypoints &&
      |r.foundTracks| + |r.foundRoutes| + |r.foundWaypoints| <= |c.foundTracks| + |c.foundRoutes| + |c.foundWaypoints| + 1
  {
    match e
    case ElementStarted(name, attributes) =>
    case ElementEnded(name) =>
      var r := OnEndElement(c, name, dec);
      assert |r.foundTracks| + |r.foundRoutes| + |r.foundWaypoints| <= |c.foundTracks| + |c.foundRoutes| + |c.foundWaypoints| + 1 by {
        match ParserKeyOf(name)
        case None =>
        case Some(key) =>
      }
    case CharactersFound(text) =>
  }

  /** The parser's life cycle (GPXParserState). */
  datatype ParserState = Initial | Parsing | Done

  /** `GPXParser`: the delegate of an XML tokenizer, holding the current slots and the found lists. */
  class GPXParser {
    const decoders: Decoders
    var state: ParserState
    var currentTrack: Option<Track>
    var currentTrackSegment: Option<TrackSegment>
    var currentPoint: Option<Waypoint>
    var currentRoute: Option<Route>
    var currentString: Option<string>
    var foundTracks: seq<Track>
    var foundRoutes: seq<Route>
    var foundWaypoints: seq<Waypoint>

    /** The parser's fields as a value. */
    function Context(): ParseContext
      reads this
    {
      ParseContext(currentTrack, currentTrackSegment, currentPoint, currentRoute, currentString,
                   foundTracks, foundRoutes, foundWaypoints)
    }

    constructor (decoders: Decoders)
      ensures this.decoders == decoders && state == Initial
      ensures Context() == EmptyContext
    {
      this.decoders := decoders;
      state := Initial;
      currentTrack, currentTrackSegment, currentPoint, currentRoute, currentString := None, None, None, None, None;
      foundTracks, foundRoutes, foundWaypoints := [], [], [];
    }

    /** `parserDidEndDocument`: the parse is over; no document is assembled from the found lists. */
    method ParserDidEndDocument()
      modifies this
      ensures state == Done && Context() == old(Context())
    {
      state := Done;
    }

    /** `parser(_:didStartElement:...)`. */
    method StartElement(elementName: string, attributes: map<string, string>)
      modifies this
      ensures Context() == OnStartElement(old(Context()), elementName, attributes, decoders)
      ensures state == old(state)
    {
      var key := ParserKeyOf(elementName);
      if key.None? {
        return;
      }
      match key.value
      case Trk =>
        currentTrack := Some(NewTrack());
      case Trkseg =>
        currentTrackSegment := Some(NewTrackSegment());
      case Trkpt | Rtept | Wpt =>
        if "lat" !in attributes || "lon" !in attributes {
          return;
        }
        var point := NewWaypoint(attributes["lat"], attributes["lon"], decoders.number);
        if point.None? {
          return;
        }
        currentPoint := point;
      case Rte =>
        currentRoute := Some(NewRoute());
      case Ele | Time | Desc | Cmt | Name =>
        currentString := Some("");
    }

    /** `parser(_:didEndElement:...)`. */
    method EndElement(elementName: string)
      modifies this
      ensures Context() == OnEndElement(old(Context()), elementName, decoders)
      ensures state == old(state)
    {
      var key := ParserKeyOf(elementName);
      if key.None? {
        return;
      }
      match key.value
      case Trk =>
        if currentTrack.None? {
          return;
        }
        foundTracks := foundTracks + [currentTrack.value];
        currentTrack := None;
      case Trkseg =>
        if currentTrack.None? || currentTrackSegment.None? {
          return;
        }
        var track := currentTrack.value;
        currentTrack := Some(track.(segments := track.segments + [currentTrackSegment.value]));
        currentTrackSegment := None;
      case Trkpt =>
        if currentTrackSegment.None? || currentPoint.None? {
          return;
        }
        var segment := currentTrackSegment.value;
        currentTrackSegment := Some(segment.(points := segment.points + [currentPoint.value]));
        currentPoint := None;
      case Rte =>
        if currentRoute.None? {
          return;
        }
        foundRoutes := foundRoutes + [currentRoute.value];
        currentRoute := None;
      case Rtept =>
        if currentRoute.None? || currentPoint.None? {
          return;
        }
        var route := currentRoute.value;
        currentRoute := Some(route.(points := route.points + [currentPoint.value]));
        currentPoint := None;
      case Wpt =>
        if currentPoint.None? {
          return;
        }
        foundWaypoints := foundWaypoints + [currentPoint.value];
        currentPoint := None;
      case Ele =>
        if currentPoint.Some? && currentString.Some? {
          var elevation := decoders.number(currentString.value);
          if elevation.Some? {
            currentPoint := Some(currentPoint.value.(elevation := elevation));
          }
        }
        currentString := None;
      case Time =>
        if currentString.Some? && currentPoint.Some? {
          var date := decoders.date(currentString.value);
          if date.Some? {
            currentPoint := Some(currentPoint.value.(date := date));
          }
        }
        currentString := None;
      case Name | Cmt | Desc =>
        if currentString.None? {
          return;
        }
        var text := currentString.value;
        if currentPoint.Some? {
          currentPoint := Some(WithPointText(currentPoint.value, key.value, text));
        } else if currentTrack.Some? {
          currentTrack := Some(WithTrackText(currentTrack.value, key.value, text));
        } else if currentRoute.Some? {
          currentRoute := Some(WithRouteText(currentRoute.value, key.value, text));
        }
        currentString := None;
    }

    /** `parser(_:foundCharacters:)`. */
    method FoundCharacters(s: string)
      modifies this
      ensures Context() == OnCharacters(old(Context()), s)
      ensures state == old(state)
      ensures currentString == if old(currentString).Some? then Some(old(currentString).value + s) else None
      ensures Context() == old(Context()).(currentString := currentString)
    {
      if currentString.None? {
        return;
      }
      currentString := Some(currentString.value + s);
    }

    /**
     * `parse(completion:)` without its dispatching: a parser that has not run yet marks itself as
     * parsing, receives the tokenizer's events in order, and ends in the done state. A parser that has
     * already run refuses and changes nothing.
     */
    method Parse(events: seq<Event>) returns (started: bool)
      modifies this
      ensures started <==> old(state) == Initial
      ensures started ==> state == Done && Context() == Run(old(Context()), events, decoders)
      ensures !started ==> state == old(state) && Context() == old(Context())
    {
      if state != Initial {
        return false;
      }
      state := Parsing;
      var i := 0;
      while i < |events|
        invariant 0 <= i <= |events|
        invariant state == Parsing
        invariant Context() == Run(old(Context()), events[..i], decoders)
      {
        RunSnoc(old(Context()), events[..i], events[i], decoders);
        assert events[..i + 1] == events[..i] + [events[i]];
        match events[i] {
          case ElementStarted(name, attributes) => StartElement(name, attributes);
          case ElementEnded(name) => EndElement(name);
          case CharactersFound(text) => FoundCharacters(text);
        }
        i := i + 1;
      }
      assert events[..i] == events;
      ParserDidEndDocument();
      started := true;
    }
  }
}
