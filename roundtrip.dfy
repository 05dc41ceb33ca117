/**
 * Writing a document and reading it back.
 *
 * The writer's markup is turned into the events an XML tokenizer reports for its text (a start tag
 * with its attributes, an end tag, character data), and the parser's transition functions are run
 * over them. When every number and date the document holds reads back as itself, the parser finds
 * exactly the collection the writer wrote; when one does not, the parser keeps what its decoder made of it.
 */
module RoundTrip {
  import opened Wrappers
  import opened Keys
  import opened Waypoints
  import opened Tracks
  import opened Routes
  import opened Parser
  import opened Writer

  /** The attributes of a start tag as the tokenizer hands them over: a dictionary, later names winning. */
  function AttributeMap(attributes: seq<(string, string)>): map<string, string>
  {
    if attributes == [] then map[]
    else
      var last := attributes[|attributes| - 1];
      AttributeMap(attributes[..|attributes| - 1])[last.0 := last.1]
  }

  function ToEvent(m: Markup): Event
  {
    match m
    case Open(tag, attributes) => ElementStarted(tag, AttributeMap(attributes))
    case Close(tag) => ElementEnded(tag)
    case Chars(text) => CharactersFound(text)
  }

  /** The events reported for the text of `ms`: one per item. */
  function ToEvents(ms: seq<Markup>): seq<Event>
  {
    if ms == [] then [] else [ToEvent(ms[0])] + ToEvents(ms[1..])
  }

  lemma {:induction false} ToEventsConcat(a: seq<Markup>, b: seq<Markup>)
    ensures ToEvents(a + b) == ToEvents(a) + ToEvents(b)
  {
    if a == [] {
      assert a + b == b;
    } else {
      assert (a + b)[0] == a[0];
      assert (a + b)[1..] == a[1..] + b;
      ToEventsConcat(a[1..], b);
    }
  }

  /** The parser's fields after it has handled the events of `ms`. */
  function Replay(c: ParseContext, ms: seq<Markup>, dec: Decoders): ParseContext
  {
    Run(c, ToEvents(ms), dec)
  }

  lemma ReplayConcat(c: ParseContext, a: seq<Markup>, b: seq<Markup>, dec: Decoders)
    ensures Replay(c, a + b, dec) == Replay(Replay(c, a, dec), b, dec)
  {
    ToEventsConcat(a, b);
    RunConcat(c, ToEvents(a), ToEvents(b), dec);
  }

  lemma ReplayCons(c: ParseContext, m: Markup, ms: seq<Markup>, dec: Decoders)
    ensures Replay(c, [m] + ms, dec) == Replay(Step(c, ToEvent(m), dec), ms, dec)
  {
    assert ([m] + ms)[1..] == ms;
  }

  lemma ReplayOne(c: ParseContext, m: Markup, dec: Decoders)
    ensures Replay(c, [m], dec) == Step(c, ToEvent(m), dec)
  {
    assert [m][1..] == [];
    assert ToEvents([m]) == [ToEvent(m)] + ToEvents([]) == [ToEvent(m)];
    assert ToEvents([m])[1..] == [];
    assert Run(Step(c, ToEvent(m), dec), [], dec) == Step(c, ToEvent(m), dec);
  }

  lemma ReplayTriple(c: ParseContext, m: Markup, n: Markup, k: Markup, dec: Decoders)
    ensures Replay(c, [m, n, k], dec) == Step(Step(Step(c, ToEvent(m), dec), ToEvent(n), dec), ToEvent(k), dec)
  {
    assert [m, n, k] == [m] + ([n] + [k]);
    ReplayCons(c, m, [n] + [k], dec);
    ReplayCons(Step(c, ToEvent(m), dec), n, [k], dec);
    ReplayOne(Step(Step(c, ToEvent(m), dec), ToEvent(n), dec), k, dec);
  }

  /** The elements whose content is text. */
  type LeafKey = k: GPXKey | k == Ele || k == Time || k == Name || k == Cmt || k == Desc witness Name

  /** Closing a text element with a buffer open always drops the buffer. */
  lemma LeafEndDropsBuffer(c: ParseContext, key: LeafKey, dec: Decoders)
    requires c.currentString.Some?
    ensures OnEndElement(c, RawValue(key), dec).currentString.None?
  {
    KeyOfRaw(key);
  }

  /** Opening a text element starts an empty buffer. */
  lemma LeafStart(c: ParseContext, key: LeafKey, dec: Decoders)
    ensures Step(c, ToEvent(Open(RawValue(key), [])), dec) == c.(currentString := Some(""))
  {
    KeyOfRaw(key);
  }

  /** The end of a text element, and the line break after it. */
  lemma LeafEnd(c: ParseContext, key: LeafKey, dec: Decoders)
    requires c.currentString.Some?
    ensures Replay(c, [Close(RawValue(key))] + [Chars("\n")], dec) == OnEndElement(c, RawValue(key), dec)
  {
    ReplayCons(c, Close(RawValue(key)), [Chars("\n")], dec);
    LeafEndDropsBuffer(c, key, dec);
    ReplayOne(OnEndElement(c, RawValue(key), dec), Chars("\n"), dec);
  }

  /** The indentation and the start tag of a text element open an empty buffer, whatever follows. */
  lemma LeafOpening(c: ParseContext, indent: string, key: LeafKey, rest: seq<Markup>, dec: Decoders)
    requires c.currentString.None?
    ensures Replay(c, [Chars(indent)] + ([Open(RawValue(key), [])] + rest), dec) == Replay(c.(currentString := Some("")), rest, dec)
  {
    ReplayCons(c, Chars(indent), [Open(RawValue(key), [])] + rest, dec);
    ReplayCons(c, Open(RawValue(key), []), rest, dec);
    LeafStart(c, key, dec);
  }

  /** Reading a text element back is closing it with its text in the buffer. */
  lemma LeafRun(c: ParseContext, indent: string, key: LeafKey, value: string, dec: Decoders)
    requires c.currentString.None?
    ensures Replay(c, Leaf(indent, key, value), dec) == OnEndElement(c.(currentString := Some(value)), RawValue(key), dec)
  {
    var tag := RawValue(key);
    var rest := [Chars(value)] + ([Close(tag)] + [Chars("\n")]);
    assert Leaf(indent, key, value) == [Chars(indent)] + ([Open(tag, [])] + rest);
    LeafOpening(c, indent, key, rest, dec);
    var started := c.(currentString := Some(""));
    ReplayCons(started, Chars(value), [Close(tag)] + [Chars("\n")], dec);
    assert "" + value == value;
    LeafEnd(c.(currentString := Some(value)), key, dec);
  }

  lemma OptionalLeafRun(c: ParseContext, indent: string, key: LeafKey, value: Option<string>, dec: Decoders)
    requires c.currentString.None?
    ensures Replay(c, OptionalLeaf(indent, key, value), dec)
         == (match value
             case None => c
             case Some(v) => OnEndElement(c.(currentString := Some(v)), RawValue(key), dec))
  {
    match value
    case None =>
    case Some(v) => LeafRun(c, indent, key, v, dec);
  }

  // ---------------------------------------------------------------------------------------------
  // Points

  /** The waypoint the parser creates from a start tag: the coordinates and nothing else. */
  function Bare(p: Waypoint): Waypoint
  {
    WaypointData(p.lat, p.lon, None, None, None, None, None)
  }

  /** An optional value after writing and reading back: what the decoder makes of the encoder's text. */
  function Decoded<T>(value: Option<T>, encode: T -> string, decode: string -> Option<T>): Option<T>
  {
    if value.Some? then decode(encode(value.value)) else None
  }

  /** Both coordinates of `p` read back from their written text as themselves. */
  predicate CoordinatesReadBack(p: Waypoint, enc: Encoders, dec: Decoders)
  {
    dec.number(enc.number(p.lat)) == Some(p.lat) && dec.number(enc.number(p.lon)) == Some(p.lon)
  }

  /** Every number and date `p` holds reads back from its written text as itself. */
  predicate ReadsBack(p: Waypoint, enc: Encoders, dec: Decoders)
  {
    CoordinatesReadBack(p, enc, dec) &&
    (p.elevation.Some? ==> dec.number(enc.number(p.elevation.value)) == Some(p.elevation.value)) &&
    (p.date.Some? ==> dec.date(enc.date(p.date.value)) == Some(p.date.value))
  }

  predicate AllReadBack(ps: seq<Waypoint>, enc: Encoders, dec: Decoders)
  {
    forall i :: 0 <= i < |ps| ==> ReadsBack(ps[i], enc, dec)
  }

  predicate SegmentsReadBack(segments: seq<TrackSegment>, enc: Encoders, dec: Decoders)
  {
    forall i :: 0 <= i < |segments| ==> AllReadBack(segments[i].points, enc, dec)
  }

  predicate RoutesReadBack(rs: seq<Route>, enc: Encoders, dec: Decoders)
  {
    forall i :: 0 <= i < |rs| ==> AllReadBack(rs[i].points, enc, dec)
  }

  predicate TracksReadBack(ts: seq<Track>, enc: Encoders, dec: Decoders)
  {
    forall i :: 0 <= i < |ts| ==> SegmentsReadBack(ts[i].segments, enc, dec)
  }

  /** Every number and date in the list the writer writes (waypoints, else routes, else tracks) reads back. */
  predicate DocumentReadsBack(g: GPX, enc: Encoders, dec: Decoders)
  {
    if g.waypoints.Some? then AllReadBack(g.waypoints.value, enc, dec)
    else if g.routes.Some? then RoutesReadBack(g.routes.value, enc, dec)
    else if g.tracks.Some? then TracksReadBack(g.tracks.value, enc, dec)
    else true
  }

  /**
   * The point the start tag of written `p` opens: `init?(lat:lon:)` on the written coordinates, which is the
   * bare point itself when they read back, and may be another point in range (a rounded one) or none otherwise.
   */
  function Opened(p: Waypoint, enc: Encoders, dec: Decoders): (r: Option<Waypoint>)
    ensures CoordinatesReadBack(p, enc, dec) ==> r == Some(Bare(p))
    ensures r.Some? ==> r.value == Bare(r.value)
  {
    NewWaypoint(enc.number(p.lat), enc.number(p.lon), dec.number)
  }

  /**
   * The point the parser rebuilds in the opened point `o` from the child lines of written `p`: the coordinates
   * of `o`, elevation and date as the decoders make them of their text (absent when it does not decode), and the
   * texts of `p`. When `o` is the bare point of `p` and every number and date reads back, it is `p` itself.
   */
  function Reread(o: Waypoint, p: Waypoint, enc: Encoders, dec: Decoders): (r: Waypoint)
    ensures r.lat == o.lat && r.lon == o.lon
    ensures r.name == p.name && r.comment == p.comment && r.description == p.description
    ensures p.elevation.None? ==> r.elevation.None?
    ensures p.date.None? ==> r.date.None?
    ensures o == Bare(p) && ReadsBack(p, enc, dec) ==> r == p
  {
    o.(elevation := Decoded(p.elevation, enc.number, dec.number), date := Decoded(p.date, enc.date, dec.date),
       name := p.name, comment := p.comment, description := p.description)
  }

  /** Markup `a` takes the parser from `c` to `mid` and markup `b` from `mid` to `end`: together they go from `c` to `end`. */
  lemma Then(c: ParseContext, a: seq<Markup>, mid: ParseContext, b: seq<Markup>, end: ParseContext, dec: Decoders)
    requires Replay(c, a, dec) == mid && Replay(mid, b, dec) == end
    ensures Replay(c, a + b, dec) == end
  {
    ReplayConcat(c, a, b, dec);
  }

  /**
   * Reading back the elevation line of a point sets the open point's elevation to what the number decoder
   * makes of the written text; when that text does not decode, the elevation stays unset.
   */
  lemma ElevationRun(c: ParseContext, q: Waypoint, tab: string, elevation: Option<real>, enc: Encoders, dec: Decoders)
    requires c.currentString.None? && c.currentPoint == Some(q) && q.elevation.None?
    ensures Replay(c, OptionalLeaf(tab, Ele, Formatted(elevation, enc.number)), dec)
         == c.(currentPoint := Some(q.(elevation := Decoded(elevation, enc.number, dec.number))))
  {
    OptionalLeafRun(c, tab, Ele, Formatted(elevation, enc.number), dec);
    KeyOfRaw(Ele);
  }

  /**
   * Reading back the time line of a point sets the open point's date to what the date decoder makes of the
   * written text; when that text does not decode, the date stays unset.
   */
  lemma TimeRun(c: ParseContext, q: Waypoint, tab: string, date: Option<Date>, enc: Encoders, dec: Decoders)
    requires c.currentString.None? && c.currentPoint == Some(q) && q.date.None?
    ensures Replay(c, OptionalLeaf(tab, Time, Formatted(date, enc.date)), dec)
         == c.(currentPoint := Some(q.(date := Decoded(date, enc.date, dec.date))))
  {
    OptionalLeafRun(c, tab, Time, Formatted(date, enc.date), dec);
    KeyOfRaw(Time);
  }

  /** Reading back a name, cmt or desc line sets that text on the open point. */
  lemma PointTextRun(c: ParseContext, q: Waypoint, tab: string, key: TextKey, text: Option<string>, dec: Decoders)
    requires c.currentString.None? && c.currentPoint == Some(q)
    ensures Replay(c, OptionalLeaf(tab, key, text), dec)
         == c.(currentPoint := Some(if text.None? then q else WithPointText(q, key, text.value)))
  {
    OptionalLeafRun(c, tab, key, text, dec);
    KeyOfRaw(key);
  }

  /** The name, cmt and desc lines of a point set those texts on the open point, which has none yet. */
  lemma PointTextsRun(c: ParseContext, q: Waypoint, tab: string, dec: Decoders,
                      name: Option<string>, comment: Option<string>, description: Option<string>)
    requires c.currentString.None? && c.currentPoint == Some(q)
    requires q.name.None? && q.comment.None? && q.description.None?
    ensures Replay(c, OptionalLeaf(tab, Name, name) + OptionalLeaf(tab, Cmt, comment) + OptionalLeaf(tab, Desc, description), dec)
         == c.(currentPoint := Some(q.(name := name, comment := comment, description := description)))
  {
    var n := OptionalLeaf(tab, Name, name);
    var m := OptionalLeaf(tab, Cmt, comment);
    var d := OptionalLeaf(tab, Desc, description);
    var q1 := q.(name := name);
    var q2 := q1.(comment := comment);
    PointTextRun(c, q, tab, Name, name, dec);
    PointTextRun(c.(currentPoint := Some(q1)), q1, tab, Cmt, comment, dec);
    Then(c, n, c.(currentPoint := Some(q1)), m, c.(currentPoint := Some(q2)), dec);
    PointTextRun(c.(currentPoint := Some(q2)), q2, tab, Desc, description, dec);
    Then(c, n + m, c.(currentPoint := Some(q2)), d, c.(currentPoint := Some(q2.(description := description))), dec);
  }

  /** Reading back the ele and time lines of a point sets what the decoders make of their text on the open point. */
  lemma PointNumbersRun(c: ParseContext, o: Waypoint, p: Waypoint, tab: string, enc: Encoders, dec: Decoders)
    requires c.currentString.None? && c.currentPoint == Some(o) && o.elevation.None? && o.date.None?
    ensures Replay(c, OptionalLeaf(tab, Ele, Formatted(p.elevation, enc.number))
                      + OptionalLeaf(tab, Time, Formatted(p.date, enc.date)), dec)
         == c.(currentPoint := Some(o.(elevation := Decoded(p.elevation, enc.number, dec.number),
                                       date := Decoded(p.date, enc.date, dec.date))))
  {
    var q1 := o.(elevation := Decoded(p.elevation, enc.number, dec.number));
    ElevationRun(c, o, tab, p.elevation, enc, dec);
    TimeRun(c.(currentPoint := Some(q1)), q1, tab, p.date, enc, dec);
    Then(c, OptionalLeaf(tab, Ele, Formatted(p.elevation, enc.number)), c.(currentPoint := Some(q1)),
         OptionalLeaf(tab, Time, Formatted(p.date, enc.date)),
         c.(currentPoint := Some(q1.(date := Decoded(p.date, enc.date, dec.date)))), dec);
  }

  /** Five pieces one after the other, grouped as the first two and the last three. */
  lemma Regroup<T>(a: seq<T>, b: seq<T>, c: seq<T>, d: seq<T>, e: seq<T>)
    ensures a + b + c + d + e == (a + b) + (c + d + e)
  {
  }

  /** Reading back the children of a point turns the point the start tag opened into the reread point. */
  lemma PointChildrenRun(c: ParseContext, o: Waypoint, p: Waypoint, tab: string, enc: Encoders, dec: Decoders)
    requires c.currentString.None? && c.currentPoint == Some(o) && o == Bare(o)
    ensures Replay(c, PointChildren(p, tab, enc), dec) == c.(currentPoint := Some(Reread(o, p, enc, dec)))
  {
    var numbers := OptionalLeaf(tab + "\t", Ele, Formatted(p.elevation, enc.number))
                   + OptionalLeaf(tab + "\t", Time, Formatted(p.date, enc.date));
    var texts := OptionalLeaf(tab + "\t", Name, p.name) + OptionalLeaf(tab + "\t", Cmt, p.comment)
                 + OptionalLeaf(tab + "\t", Desc, p.description);
    var q := o.(elevation := Decoded(p.elevation, enc.number, dec.number), date := Decoded(p.date, enc.date, dec.date));
    PointNumbersRun(c, o, p, tab + "\t", enc, dec);
    PointTextsRun(c.(currentPoint := Some(q)), q, tab + "\t", dec, p.name, p.comment, p.description);
    Regroup(OptionalLeaf(tab + "\t", Ele, Formatted(p.elevation, enc.number)),
            OptionalLeaf(tab + "\t", Time, Formatted(p.date, enc.date)),
            OptionalLeaf(tab + "\t", Name, p.name), OptionalLeaf(tab + "\t", Cmt, p.comment),
            OptionalLeaf(tab + "\t", Desc, p.description));
    Then(c, numbers, c.(currentPoint := Some(q)), texts, c.(currentPoint := Some(Reread(o, p, enc, dec))), dec);
  }

  /** The attributes of a point's start tag hold its encoded coordinates. */
  lemma PointAttributesMap(p: Waypoint, enc: Encoders)
    ensures var attributes := AttributeMap(PointAttributes(p, enc));
      "lat" in attributes && "lon" in attributes &&
      attributes["lat"] == enc.number(p.lat) && attributes["lon"] == enc.number(p.lon)
  {
    var attributes := PointAttributes(p, enc);
    assert attributes[..1] == [("lat", enc.number(p.lat))];
    assert attributes[..1][..0] == [];
    assert "lat" != "lon";
  }

  /**
   * The start tag of a written point opens the point `init?(lat:lon:)` makes of its written coordinates, when
   * that is a point in range; with coordinates that read back, this is the bare point.
   */
  lemma PointStart(c: ParseContext, p: Waypoint, key: PointKey, enc: Encoders, dec: Decoders)
    requires Opened(p, enc, dec).Some?
    ensures Step(c, ToEvent(Open(RawValue(key), PointAttributes(p, enc))), dec) == c.(currentPoint := Opened(p, enc, dec))
  {
    KeyOfRaw(key);
    PointAttributesMap(p, enc);
  }

  /** When the written coordinates do not read back as a point in range, the point's start tag is ignored. */
  lemma PointStartRejected(c: ParseContext, p: Waypoint, key: PointKey, enc: Encoders, dec: Decoders)
    requires Opened(p, enc, dec).None?
    ensures Step(c, ToEvent(Open(RawValue(key), PointAttributes(p, enc))), dec) == c
  {
    KeyOfRaw(key);
    PointAttributesMap(p, enc);
  }

  /** Reading a point element back is closing its element with the reread point open. */
  lemma PointRun(c: ParseContext, p: Waypoint, key: PointKey, enc: Encoders, dec: Decoders)
    requires Opened(p, enc, dec).Some? && c.currentString.None?
    ensures Replay(c, PointElement(p, key, enc), dec)
         == OnEndElement(c.(currentPoint := Some(Reread(Opened(p, enc, dec).value, p, enc, dec))), RawValue(key), dec)
  {
    var tab := Indentation(key);
    var o := Opened(p, enc, dec).value;
    var opening := [Chars(tab), Open(RawValue(key), PointAttributes(p, enc)), Chars("\n")];
    var closing := [Chars(tab), Close(RawValue(key)), Chars("\n")];
    ReplayConcat(c, opening + PointChildren(p, tab, enc), closing, dec);
    ReplayConcat(c, opening, PointChildren(p, tab, enc), dec);
    ReplayTriple(c, Chars(tab), Open(RawValue(key), PointAttributes(p, enc)), Chars("\n"), dec);
    PointStart(c, p, key, enc, dec);
    var started := c.(currentPoint := Some(o));
    PointChildrenRun(started, o, p, tab, enc, dec);
    var filled := c.(currentPoint := Some(Reread(o, p, enc, dec)));
    ReplayTriple(filled, Chars(tab), Close(RawValue(key)), Chars("\n"), dec);
  }

  // ---------------------------------------------------------------------------------------------
  // Point lists

  /** Nothing is open and no text is buffered. */
  predicate Idle(c: ParseContext)
  {
    c.currentTrack.None? && c.currentTrackSegment.None? && c.currentPoint.None? &&
    c.currentRoute.None? && c.currentString.None?
  }

  /** A non-empty list is its first elements followed by its last one. */
  lemma SplitLast<T>(xs: seq<T>)
    requires xs != []
    ensures xs == xs[..|xs| - 1] + [xs[|xs| - 1]]
  {
  }

  /** A list all of whose numbers and dates read back: so do its first points and its last point. */
  lemma AllReadBackSplit(ps: seq<Waypoint>, enc: Encoders, dec: Decoders)
    requires AllReadBack(ps, enc, dec) && ps != []
    ensures AllReadBack(ps[..|ps| - 1], enc, dec) && ReadsBack(ps[|ps| - 1], enc, dec)
  {
    var init := ps[..|ps| - 1];
    forall i | 0 <= i < |init|
      ensures ReadsBack(init[i], enc, dec)
    {
      assert init[i] == ps[i];
    }
  }

  lemma RoutesReadBackSplit(rs: seq<Route>, enc: Encoders, dec: Decoders)
    requires RoutesReadBack(rs, enc, dec) && rs != []
    ensures RoutesReadBack(rs[..|rs| - 1], enc, dec) && AllReadBack(rs[|rs| - 1].points, enc, dec)
  {
    var init := rs[..|rs| - 1];
    forall i | 0 <= i < |init|
      ensures AllReadBack(init[i].points, enc, dec)
    {
      assert init[i] == rs[i];
    }
  }

  lemma SegmentsReadBackSplit(segments: seq<TrackSegment>, enc: Encoders, dec: Decoders)
    requires SegmentsReadBack(segments, enc, dec) && segments != []
    ensures SegmentsReadBack(segments[..|segments| - 1], enc, dec) && AllReadBack(segments[|segments| - 1].points, enc, dec)
  {
    var init := segments[..|segments| - 1];
    forall i | 0 <= i < |init|
      ensures AllReadBack(init[i].points, enc, dec)
    {
      assert init[i] == segments[i];
    }
  }

  lemma TracksReadBackSplit(ts: seq<Track>, enc: Encoders, dec: Decoders)
    requires TracksReadBack(ts, enc, dec) && ts != []
    ensures TracksReadBack(ts[..|ts| - 1], enc, dec) && SegmentsReadBack(ts[|ts| - 1].segments, enc, dec)
  {
    var init := ts[..|ts| - 1];
    forall i | 0 <= i < |init|
      ensures SegmentsReadBack(init[i].segments, enc, dec)
    {
      assert init[i] == ts[i];
    }
  }

  /** Reading back one waypoint appends it to the found waypoints. */
  lemma WaypointRun(c: ParseContext, p: Waypoint, enc: Encoders, dec: Decoders)
    requires ReadsBack(p, enc, dec) && c.currentString.None? && c.currentPoint.None?
    ensures Replay(c, PointElement(p, Wpt, enc), dec) == c.(foundWaypoints := c.foundWaypoints + [p])
  {
    PointRun(c, p, Wpt, enc, dec);
    WaypointEnd(c.(currentPoint := Some(p)), dec);
  }

  /** Reading back a list of waypoints appends them, in order, to the found waypoints. */
  lemma {:induction false} WaypointsRun(c: ParseContext, ws: seq<Waypoint>, enc: Encoders, dec: Decoders)
    requires AllReadBack(ws, enc, dec) && c.currentString.None? && c.currentPoint.None?
    ensures Replay(c, PointsMarkup(ws, Wpt, enc), dec) == c.(foundWaypoints := c.foundWaypoints + ws)
    decreases |ws|
  {
    if ws == [] {
      assert c.foundWaypoints + ws == c.foundWaypoints;
    } else {
      var init, last := ws[..|ws| - 1], ws[|ws| - 1];
      AllReadBackSplit(ws, enc, dec);
      WaypointsRun(c, init, enc, dec);
      SplitLast(ws);
      WaypointsStep(c, ws, init, last, enc, dec);
    }
  }

  /** One more waypoint after the waypoints already read back into the found waypoints. */
  lemma WaypointsStep(c: ParseContext, ws: seq<Waypoint>, init: seq<Waypoint>, last: Waypoint, enc: Encoders, dec: Decoders)
    requires ws == init + [last] && ReadsBack(last, enc, dec) && c.currentString.None? && c.currentPoint.None?
    requires Replay(c, PointsMarkup(init, Wpt, enc), dec) == c.(foundWaypoints := c.foundWaypoints + init)
    ensures Replay(c, PointsMarkup(ws, Wpt, enc), dec) == c.(foundWaypoints := c.foundWaypoints + ws)
  {
    var mid := c.(foundWaypoints := c.foundWaypoints + init);
    WaypointRun(mid, last, enc, dec);
    assert ws[..|ws| - 1] == init;
    assert c.foundWaypoints + init + [last] == c.foundWaypoints + ws;
    Then(c, PointsMarkup(init, Wpt, enc), mid, PointElement(last, Wpt, enc), c.(foundWaypoints := c.foundWaypoints + ws), dec);
  }

  /** A text line read back with nothing open to receive it changes nothing. */
  lemma OrphanLeafRun(c: ParseContext, tab: string, key: LeafKey, value: Option<string>, dec: Decoders)
    requires Idle(c)
    ensures Replay(c, OptionalLeaf(tab, key, value), dec) == c
  {
    OptionalLeafRun(c, tab, key, value, dec);
    if value.Some? {
      var buffered := c.(currentString := value);
      if key == Ele {
        ElevationEnd(buffered, dec);
      } else if key == Time {
        TimeEnd(buffered, dec);
      } else {
        TextEnd(buffered, key, dec);
      }
    }
  }

  /** The child lines of a point whose start tag was ignored change nothing when nothing else is open. */
  lemma OrphanChildrenRun(c: ParseContext, p: Waypoint, tab: string, enc: Encoders, dec: Decoders)
    requires Idle(c)
    ensures Replay(c, PointChildren(p, tab, enc), dec) == c
  {
    var e := OptionalLeaf(tab + "\t", Ele, Formatted(p.elevation, enc.number));
    var t := OptionalLeaf(tab + "\t", Time, Formatted(p.date, enc.date));
    var n := OptionalLeaf(tab + "\t", Name, p.name);
    var m := OptionalLeaf(tab + "\t", Cmt, p.comment);
    var d := OptionalLeaf(tab + "\t", Desc, p.description);
    OrphanLeafRun(c, tab + "\t", Ele, Formatted(p.elevation, enc.number), dec);
    OrphanLeafRun(c, tab + "\t", Time, Formatted(p.date, enc.date), dec);
    OrphanLeafRun(c, tab + "\t", Name, p.name, dec);
    OrphanLeafRun(c, tab + "\t", Cmt, p.comment, dec);
    OrphanLeafRun(c, tab + "\t", Desc, p.description, dec);
    Then(c, e, c, t, c, dec);
    Then(c, e + t, c, n, c, dec);
    Then(c, e + t + n, c, m, c, dec);
    Then(c, e + t + n + m, c, d, c, dec);
  }

  /** What the parser keeps of one written point: the reread point when its start tag opens one, else nothing. */
  function Kept(p: Waypoint, enc: Encoders, dec: Decoders): (r: seq<Waypoint>)
    ensures |r| <= 1
    ensures r == [] <==> Opened(p, enc, dec).None?
    ensures ReadsBack(p, enc, dec) ==> r == [p]
  {
    match Opened(p, enc, dec)
    case None => []
    case Some(o) => [Reread(o, p, enc, dec)]
  }

  /** Reading back one waypoint, whatever its values, appends what the parser keeps of it to the found waypoints. */
  lemma WaypointReread(c: ParseContext, p: Waypoint, enc: Encoders, dec: Decoders)
    requires Idle(c)
    ensures Replay(c, PointElement(p, Wpt, enc), dec) == c.(foundWaypoints := c.foundWaypoints + Kept(p, enc, dec))
  {
    match Opened(p, enc, dec)
    case Some(o) =>
      PointRun(c, p, Wpt, enc, dec);
      WaypointEnd(c.(currentPoint := Some(Reread(o, p, enc, dec))), dec);
    case None =>
      var tab := Indentation(Wpt);
      var opening := [Chars(tab), Open(RawValue(Wpt), PointAttributes(p, enc)), Chars("\n")];
      var closing := [Chars(tab), Close(RawValue(Wpt)), Chars("\n")];
      ReplayConcat(c, opening + PointChildren(p, tab, enc), closing, dec);
      ReplayConcat(c, opening, PointChildren(p, tab, enc), dec);
      ReplayTriple(c, Chars(tab), Open(RawValue(Wpt), PointAttributes(p, enc)), Chars("\n"), dec);
      PointStartRejected(c, p, Wpt, enc, dec);
      OrphanChildrenRun(c, p, tab, enc, dec);
      ReplayTriple(c, Chars(tab), Close(RawValue(Wpt)), Chars("\n"), dec);
      WaypointEnd(c, dec);
      assert c.foundWaypoints + [] == c.foundWaypoints;
  }

  /**
   * What the parser keeps of written waypoints, in order: every point whose start tag opens one, reread,
   * and nothing of the others.
   */
  function KeptAll(ws: seq<Waypoint>, enc: Encoders, dec: Decoders): (r: seq<Waypoint>)
    ensures |r| <= |ws|
  {
    if ws == [] then [] else KeptAll(ws[..|ws| - 1], enc, dec) + Kept(ws[|ws| - 1], enc, dec)
  }

  /** When every number and date reads back, the parser keeps every waypoint as written. */
  lemma {:induction false} KeptAllReadBack(ws: seq<Waypoint>, enc: Encoders, dec: Decoders)
    requires AllReadBack(ws, enc, dec)
    ensures KeptAll(ws, enc, dec) == ws
    decreases |ws|
  {
    if ws != [] {
      AllReadBackSplit(ws, enc, dec);
      KeptAllReadBack(ws[..|ws| - 1], enc, dec);
      SplitLast(ws);
    }
  }

  /** Reading back a list of waypoints, whatever their values, appends what the parser keeps of them, in order. */
  lemma {:induction false} WaypointsReread(c: ParseContext, ws: seq<Waypoint>, enc: Encoders, dec: Decoders)
    requires Idle(c)
    ensures Replay(c, PointsMarkup(ws, Wpt, enc), dec) == c.(foundWaypoints := c.foundWaypoints + KeptAll(ws, enc, dec))
    decreases |ws|
  {
    if ws == [] {
      assert c.foundWaypoints + [] == c.foundWaypoints;
    } else {
      var init, last := ws[..|ws| - 1], ws[|ws| - 1];
      WaypointsReread(c, init, enc, dec);
      var mid := c.(foundWaypoints := c.foundWaypoints + KeptAll(init, enc, dec));
      WaypointReread(mid, last, enc, dec);
      assert c.foundWaypoints + KeptAll(init, enc, dec) + Kept(last, enc, dec) == c.foundWaypoints + KeptAll(ws, enc, dec);
      Then(c, PointsMarkup(init, Wpt, enc), mid, PointElement(last, Wpt, enc),
           c.(foundWaypoints := c.foundWaypoints + KeptAll(ws, enc, dec)), dec);
    }
  }

  /** Reading back one route point appends it to the open route. */
  lemma RoutePointRun(c: ParseContext, r: Route, p: Waypoint, enc: Encoders, dec: Decoders)
    requires ReadsBack(p, enc, dec) && c.currentString.None? && c.currentPoint.None? && c.currentRoute == Some(r)
    ensures Replay(c, PointElement(p, Rtept, enc), dec) == c.(currentRoute := Some(r.(points := r.points + [p])))
  {
    PointRun(c, p, Rtept, enc, dec);
    RoutePointEnd(c.(currentPoint := Some(p)), dec);
  }

  /** Reading back the points of a route appends them, in order, to the open route. */
  lemma {:induction false} RoutePointsRun(c: ParseContext, r: Route, ps: seq<Waypoint>, enc: Encoders, dec: Decoders)
    requires AllReadBack(ps, enc, dec) && c.currentString.None? && c.currentPoint.None? && c.currentRoute == Some(r)
    ensures Replay(c, PointsMarkup(ps, Rtept, enc), dec) == c.(currentRoute := Some(r.(points := r.points + ps)))
    decreases |ps|
  {
    if ps == [] {
      assert r.points + ps == r.points;
    } else {
      var init, last := ps[..|ps| - 1], ps[|ps| - 1];
      AllReadBackSplit(ps, enc, dec);
      RoutePointsRun(c, r, init, enc, dec);
      SplitLast(ps);
      RoutePointsStep(c, r, ps, init, last, enc, dec);
    }
  }

  /** One more route point after the points already read back into the open route. */
  lemma RoutePointsStep(c: ParseContext, r: Route, ps: seq<Waypoint>, init: seq<Waypoint>, last: Waypoint, enc: Encoders, dec: Decoders)
    requires ps == init + [last] && ReadsBack(last, enc, dec)
    requires c.currentString.None? && c.currentPoint.None? && c.currentRoute == Some(r)
    requires Replay(c, PointsMarkup(init, Rtept, enc), dec) == c.(currentRoute := Some(r.(points := r.points + init)))
    ensures Replay(c, PointsMarkup(ps, Rtept, enc), dec) == c.(currentRoute := Some(r.(points := r.points + ps)))
  {
    var r1 := r.(points := r.points + init);
    var mid := c.(currentRoute := Some(r1));
    RoutePointRun(mid, r1, last, enc, dec);
    assert ps[..|ps| - 1] == init;
    assert r.points + init + [last] == r.points + ps;
    Then(c, PointsMarkup(init, Rtept, enc), mid, PointElement(last, Rtept, enc),
         c.(currentRoute := Some(r.(points := r.points + ps))), dec);
  }

  /** Reading back one track point appends it to the open segment. */
  lemma TrackPointRun(c: ParseContext, s: TrackSegment, p: Waypoint, enc: Encoders, dec: Decoders)
    requires ReadsBack(p, enc, dec) && c.currentString.None? && c.currentPoint.None? && c.currentTrackSegment == Some(s)
    ensures Replay(c, PointElement(p, Trkpt, enc), dec) == c.(currentTrackSegment := Some(s.(points := s.points + [p])))
  {
    PointRun(c, p, Trkpt, enc, dec);
    TrackPointEnd(c.(currentPoint := Some(p)), dec);
  }

  /** Reading back the points of a segment appends them, in order, to the open segment. */
  lemma {:induction false} SegmentPointsRun(c: ParseContext, s: TrackSegment, ps: seq<Waypoint>, enc: Encoders, dec: Decoders)
    requires AllReadBack(ps, enc, dec) && c.currentString.None? && c.currentPoint.None? && c.currentTrackSegment == Some(s)
    ensures Replay(c, PointsMarkup(ps, Trkpt, enc), dec) == c.(currentTrackSegment := Some(s.(points := s.points + ps)))
    decreases |ps|
  {
    if ps == [] {
      assert s.points + ps == s.points;
    } else {
      var init, last := ps[..|ps| - 1], ps[|ps| - 1];
      AllReadBackSplit(ps, enc, dec);
      SegmentPointsRun(c, s, init, enc, dec);
      SplitLast(ps);
      SegmentPointsStep(c, s, ps, init, last, enc, dec);
    }
  }

  /** One more track point after the points already read back into the open segment. */
  lemma SegmentPointsStep(c: ParseContext, s: TrackSegment, ps: seq<Waypoint>, init: seq<Waypoint>, last: Waypoint,
                          enc: Encoders, dec: Decoders)
    requires ps == init + [last] && ReadsBack(last, enc, dec)
    requires c.currentString.None? && c.currentPoint.None? && c.currentTrackSegment == Some(s)
    requires Replay(c, PointsMarkup(init, Trkpt, enc), dec) == c.(currentTrackSegment := Some(s.(points := s.points + init)))
    ensures Replay(c, PointsMarkup(ps, Trkpt, enc), dec) == c.(currentTrackSegment := Some(s.(points := s.points + ps)))
  {
    var s1 := s.(points := s.points + init);
    var mid := c.(currentTrackSegment := Some(s1));
    TrackPointRun(mid, s1, last, enc, dec);
    assert ps[..|ps| - 1] == init;
    assert s.points + init + [last] == s.points + ps;
    Then(c, PointsMarkup(init, Trkpt, enc), mid, PointElement(last, Trkpt, enc),
         c.(currentTrackSegment := Some(s.(points := s.points + ps))), dec);
  }

  // ---------------------------------------------------------------------------------------------
  // Routes

  /** The start line of an element that opens an entity, and the line break after it. */
  lemma OpeningRun(c: ParseContext, tab: string, key: ParserKey, dec: Decoders)
    requires c.currentString.None? && (key == Trk || key == Trkseg || key == Rte)
    ensures Replay(c, [Chars(tab), Open(RawValue(key), []), Chars("\n")], dec)
         == OnStartElement(c, RawValue(key), map[], dec)
  {
    ReplayTriple(c, Chars(tab), Open(RawValue(key), []), Chars("\n"), dec);
    KeyOfRaw(key);
  }

  /** The end line of an element, and the line break after it. */
  lemma ClosingRun(c: ParseContext, tab: string, key: ParserKey, dec: Decoders)
    requires c.currentString.None?
    ensures Replay(c, [Chars(tab), Close(RawValue(key)), Chars("\n")], dec) == OnEndElement(c, RawValue(key), dec)
  {
    ReplayTriple(c, Chars(tab), Close(RawValue(key)), Chars("\n"), dec);
  }

  /** With no point and no track open, a name, cmt or desc line sets that text on the open route. */
  lemma RouteTextRun(c: ParseContext, r: Route, tab: string, key: TextKey, text: Option<string>, dec: Decoders)
    requires c.currentString.None? && c.currentPoint.None? && c.currentTrack.None? && c.currentRoute == Some(r)
    ensures Replay(c, OptionalLeaf(tab, key, text), dec)
         == c.(currentRoute := Some(if text.None? then r else WithRouteText(r, key, text.value)))
  {
    OptionalLeafRun(c, tab, key, text, dec);
    KeyOfRaw(key);
  }

  /** The name, cmt and desc lines of a route header set those texts on the open route, which has none yet. */
  lemma RouteTextsRun(c: ParseContext, r: Route, tab: string, dec: Decoders,
                      name: Option<string>, comment: Option<string>, description: Option<string>)
    requires c.currentString.None? && c.currentPoint.None? && c.currentTrack.None? && c.currentRoute == Some(r)
    requires r.name.None? && r.comment.None? && r.description.None?
    ensures Replay(c, OptionalLeaf(tab, Name, name) + OptionalLeaf(tab, Cmt, comment) + OptionalLeaf(tab, Desc, description), dec)
         == c.(currentRoute := Some(r.(name := name, comment := comment, description := description)))
  {
    var n := OptionalLeaf(tab, Name, name);
    var m := OptionalLeaf(tab, Cmt, comment);
    var d := OptionalLeaf(tab, Desc, description);
    var r1 := r.(name := name);
    var r2 := r1.(comment := comment);
    RouteTextRun(c, r, tab, Name, name, dec);
    RouteTextRun(c.(currentRoute := Some(r1)), r1, tab, Cmt, comment, dec);
    Then(c, n, c.(currentRoute := Some(r1)), m, c.(currentRoute := Some(r2)), dec);
    RouteTextRun(c.(currentRoute := Some(r2)), r2, tab, Desc, description, dec);
    Then(c, n + m, c.(currentRoute := Some(r2)), d, c.(currentRoute := Some(r2.(description := description))), dec);
  }

  /** Reading back a route header opens a route with the written name, cmt and desc and no points. */
  lemma RouteHeaderRun(c: ParseContext, r: Route, dec: Decoders)
    requires Idle(c)
    ensures Replay(c, RouteHeader(r), dec)
         == c.(currentRoute := Some(Route([], r.name, r.comment, r.description)))
  {
    var opening := [Chars("\t"), Open(RawValue(Rte), []), Chars("\n")];
    var texts := OptionalLeaf("\t\t", Name, r.name) + OptionalLeaf("\t\t", Cmt, r.comment)
                 + OptionalLeaf("\t\t", Desc, r.description);
    var c1 := c.(currentRoute := Some(NewRoute()));
    OpeningRun(c, "\t", Rte, dec);
    KeyOfRaw(Rte);
    RouteTextsRun(c1, NewRoute(), "\t\t", dec, r.name, r.comment, r.description);
    assert RouteHeader(r) == opening + texts;
    Then(c, opening, c1, texts, c.(currentRoute := Some(Route([], r.name, r.comment, r.description))), dec);
  }

  /** Reading back a route appends exactly that route to the found routes. */
  lemma RouteRun(c: ParseContext, r: Route, enc: Encoders, dec: Decoders)
    requires AllReadBack(r.points, enc, dec) && Idle(c)
    ensures Replay(c, RouteMarkup(r, enc), dec) == c.(foundRoutes := c.foundRoutes + [r])
  {
    var header := Route([], r.name, r.comment, r.description);
    var c1 := c.(currentRoute := Some(header));
    RouteHeaderRun(c, r, dec);
    RoutePointsRun(c1, header, r.points, enc, dec);
    assert header.(points := header.points + r.points) == r;
    var c2 := c.(currentRoute := Some(r));
    Then(c, RouteHeader(r), c1, PointsMarkup(r.points, Rtept, enc), c2, dec);
    ClosingRun(c2, "\t", Rte, dec);
    KeyOfRaw(Rte);
    Then(c, RouteHeader(r) + PointsMarkup(r.points, Rtept, enc), c2, RouteHeaderEnd(),
         c.(foundRoutes := c.foundRoutes + [r]), dec);
  }

  /** Reading back a list of routes appends them, in order, to the found routes. */
  lemma {:induction false} RoutesRun(c: ParseContext, rs: seq<Route>, enc: Encoders, dec: Decoders)
    requires RoutesReadBack(rs, enc, dec) && Idle(c)
    ensures Replay(c, RoutesMarkup(rs, enc), dec) == c.(foundRoutes := c.foundRoutes + rs)
    decreases |rs|
  {
    if rs == [] {
      assert c.foundRoutes + rs == c.foundRoutes;
    } else {
      var init, last := rs[..|rs| - 1], rs[|rs| - 1];
      RoutesReadBackSplit(rs, enc, dec);
      RoutesRun(c, init, enc, dec);
      SplitLast(rs);
      RoutesStep(c, rs, init, last, enc, dec);
    }
  }

  /** One more route after the routes already read back into the found routes. */
  lemma RoutesStep(c: ParseContext, rs: seq<Route>, init: seq<Route>, last: Route, enc: Encoders, dec: Decoders)
    requires rs == init + [last] && AllReadBack(last.points, enc, dec) && Idle(c)
    requires Replay(c, RoutesMarkup(init, enc), dec) == c.(foundRoutes := c.foundRoutes + init)
    ensures Replay(c, RoutesMarkup(rs, enc), dec) == c.(foundRoutes := c.foundRoutes + rs)
  {
    var mid := c.(foundRoutes := c.foundRoutes + init);
    RouteRun(mid, last, enc, dec);
    assert rs[..|rs| - 1] == init;
    assert c.foundRoutes + init + [last] == c.foundRoutes + rs;
    Then(c, RoutesMarkup(init, enc), mid, RouteMarkup(last, enc), c.(foundRoutes := c.foundRoutes + rs), dec);
  }

  // ---------------------------------------------------------------------------------------------
  // Tracks

  /** Reading back a segment appends exactly that segment to the open track. */
  lemma SegmentRun(c: ParseContext, t: Track, s: TrackSegment, enc: Encoders, dec: Decoders)
    requires AllReadBack(s.points, enc, dec) && c.currentString.None? && c.currentPoint.None? && c.currentTrackSegment.None?
    requires c.currentTrack == Some(t)
    ensures Replay(c, SegmentMarkup(s, enc), dec) == c.(currentTrack := Some(t.(segments := t.segments + [s])))
  {
    var c1 := c.(currentTrackSegment := Some(NewTrackSegment()));
    OpeningRun(c, "\t\t", Trkseg, dec);
    KeyOfRaw(Trkseg);
    SegmentPointsRun(c1, NewTrackSegment(), s.points, enc, dec);
    assert NewTrackSegment().(points := [] + s.points) == s;
    var c2 := c.(currentTrackSegment := Some(s));
    Then(c, TrackSegmentHeader(), c1, PointsMarkup(s.points, Trkpt, enc), c2, dec);
    ClosingRun(c2, "\t\t", Trkseg, dec);
    Then(c, TrackSegmentHeader() + PointsMarkup(s.points, Trkpt, enc), c2, TrackSegmentHeaderEnd(),
         c.(currentTrack := Some(t.(segments := t.segments + [s]))), dec);
  }

  /** Reading back the segments of a track appends them, in order, to the open track. */
  lemma {:induction false} SegmentsRun(c: ParseContext, t: Track, segments: seq<TrackSegment>, enc: Encoders, dec: Decoders)
    requires SegmentsReadBack(segments, enc, dec)
    requires c.currentString.None? && c.currentPoint.None? && c.currentTrackSegment.None? && c.currentTrack == Some(t)
    ensures Replay(c, SegmentsMarkup(segments, enc), dec) == c.(currentTrack := Some(t.(segments := t.segments + segments)))
    decreases |segments|
  {
    if segments == [] {
      assert t.segments + segments == t.segments;
    } else {
      var init, last := segments[..|segments| - 1], segments[|segments| - 1];
      SegmentsReadBackSplit(segments, enc, dec);
      SegmentsRun(c, t, init, enc, dec);
      SplitLast(segments);
      SegmentsStep(c, t, segments, init, last, enc, dec);
    }
  }

  /** One more segment after the segments already read back into the open track. */
  lemma SegmentsStep(c: ParseContext, t: Track, segments: seq<TrackSegment>, init: seq<TrackSegment>, last: TrackSegment,
                     enc: Encoders, dec: Decoders)
    requires segments == init + [last] && AllReadBack(last.points, enc, dec)
    requires c.currentString.None? && c.currentPoint.None? && c.currentTrackSegment.None? && c.currentTrack == Some(t)
    requires Replay(c, SegmentsMarkup(init, enc), dec) == c.(currentTrack := Some(t.(segments := t.segments + init)))
    ensures Replay(c, SegmentsMarkup(segments, enc), dec) == c.(currentTrack := Some(t.(segments := t.segments + segments)))
  {
    var t1 := t.(segments := t.segments + init);
    var mid := c.(currentTrack := Some(t1));
    SegmentRun(mid, t1, last, enc, dec);
    assert segments[..|segments| - 1] == init;
    assert t.segments + init + [last] == t.segments + segments;
    Then(c, SegmentsMarkup(init, enc), mid, SegmentMarkup(last, enc),
         c.(currentTrack := Some(t.(segments := t.segments + segments))), dec);
  }

  /** With no point open, a name, cmt or desc line sets that text on the open track. */
  lemma TrackTextRun(c: ParseContext, t: Track, tab: string, key: TextKey, text: string, dec: Decoders)
    requires c.currentString.None? && c.currentPoint.None? && c.currentTrack == Some(t)
    ensures Replay(c, Leaf(tab, key, text), dec) == c.(currentTrack := Some(WithTrackText(t, key, text)))
  {
    LeafRun(c, tab, key, text, dec);
    KeyOfRaw(key);
  }

  lemma OptionalTrackTextRun(c: ParseContext, t: Track, tab: string, key: TextKey, text: Option<string>, dec: Decoders)
    requires c.currentString.None? && c.currentPoint.None? && c.currentTrack == Some(t)
    ensures Replay(c, OptionalLeaf(tab, key, text), dec)
         == c.(currentTrack := Some(if text.None? then t else WithTrackText(t, key, text.value)))
  {
    if text.Some? {
      TrackTextRun(c, t, tab, key, text.value, dec);
    }
  }

  /** The name, cmt and desc lines of a track header set those texts on the open track, which has no cmt or desc yet. */
  lemma TrackTextsRun(c: ParseContext, t: Track, tab: string, dec: Decoders,
                      name: string, comment: Option<string>, description: Option<string>)
    requires c.currentString.None? && c.currentPoint.None? && c.currentTrack == Some(t)
    requires t.comment.None? && t.description.None?
    ensures Replay(c, Leaf(tab, Name, name) + OptionalLeaf(tab, Cmt, comment) + OptionalLeaf(tab, Desc, description), dec)
         == c.(currentTrack := Some(t.(name := name, comment := comment, description := description)))
  {
    var n := Leaf(tab, Name, name);
    var m := OptionalLeaf(tab, Cmt, comment);
    var d := OptionalLeaf(tab, Desc, description);
    var t1 := t.(name := name);
    var t2 := t1.(comment := comment);
    TrackTextRun(c, t, tab, Name, name, dec);
    OptionalTrackTextRun(c.(currentTrack := Some(t1)), t1, tab, Cmt, comment, dec);
    Then(c, n, c.(currentTrack := Some(t1)), m, c.(currentTrack := Some(t2)), dec);
    OptionalTrackTextRun(c.(currentTrack := Some(t2)), t2, tab, Desc, description, dec);
    Then(c, n + m, c.(currentTrack := Some(t2)), d, c.(currentTrack := Some(t2.(description := description))), dec);
  }

  /** Reading back a track header opens a track with the written name, cmt and desc and no segments. */
  lemma TrackHeaderRun(c: ParseContext, t: Track, dec: Decoders)
    requires Idle(c)
    ensures Replay(c, TrackHeader(t), dec)
         == c.(currentTrack := Some(Track(t.name, t.comment, t.description, [])))
  {
    var opening := [Chars("\t"), Open(RawValue(Trk), []), Chars("\n")];
    var texts := Leaf("\t\t", Name, t.name) + OptionalLeaf("\t\t", Cmt, t.comment)
                 + OptionalLeaf("\t\t", Desc, t.description);
    var c1 := c.(currentTrack := Some(NewTrack()));
    OpeningRun(c, "\t", Trk, dec);
    KeyOfRaw(Trk);
    TrackTextsRun(c1, NewTrack(), "\t\t", dec, t.name, t.comment, t.description);
    assert TrackHeader(t) == opening + texts;
    Then(c, opening, c1, texts, c.(currentTrack := Some(Track(t.name, t.comment, t.description, []))), dec);
  }

  /** Reading back a track appends exactly that track to the found tracks. */
  lemma TrackRun(c: ParseContext, t: Track, enc: Encoders, dec: Decoders)
    requires SegmentsReadBack(t.segments, enc, dec) && Idle(c)
    ensures Replay(c, TrackMarkup(t, enc), dec) == c.(foundTracks := c.foundTracks + [t])
  {
    var header := Track(t.name, t.comment, t.description, []);
    var c1 := c.(currentTrack := Some(header));
    TrackHeaderRun(c, t, dec);
    SegmentsRun(c1, header, t.segments, enc, dec);
    assert header.(segments := header.segments + t.segments) == t;
    var c2 := c.(currentTrack := Some(t));
    Then(c, TrackHeader(t), c1, SegmentsMarkup(t.segments, enc), c2, dec);
    ClosingRun(c2, "\t", Trk, dec);
    KeyOfRaw(Trk);
    Then(c, TrackHeader(t) + SegmentsMarkup(t.segments, enc), c2, TrackHeaderEnd(),
         c.(foundTracks := c.foundTracks + [t]), dec);
  }

  /** Reading back a list of tracks appends them, in order, to the found tracks. */
  lemma {:induction false} TracksRun(c: ParseContext, ts: seq<Track>, enc: Encoders, dec: Decoders)
    requires TracksReadBack(ts, enc, dec) && Idle(c)
    ensures Replay(c, TracksMarkup(ts, enc), dec) == c.(foundTracks := c.foundTracks + ts)
    decreases |ts|
  {
    if ts == [] {
      assert c.foundTracks + ts == c.foundTracks;
    } else {
      var init, last := ts[..|ts| - 1], ts[|ts| - 1];
      TracksReadBackSplit(ts, enc, dec);
      TracksRun(c, init, enc, dec);
      SplitLast(ts);
      TracksStep(c, ts, init, last, enc, dec);
    }
  }

  /** One more track after the tracks already read back into the found tracks. */
  lemma TracksStep(c: ParseContext, ts: seq<Track>, init: seq<Track>, last: Track, enc: Encoders, dec: Decoders)
    requires ts == init + [last] && SegmentsReadBack(last.segments, enc, dec) && Idle(c)
    requires Replay(c, TracksMarkup(init, enc), dec) == c.(foundTracks := c.foundTracks + init)
    ensures Replay(c, TracksMarkup(ts, enc), dec) == c.(foundTracks := c.foundTracks + ts)
  {
    var mid := c.(foundTracks := c.foundTracks + init);
    TrackRun(mid, last, enc, dec);
    assert ts[..|ts| - 1] == init;
    assert c.foundTracks + init + [last] == c.foundTracks + ts;
    Then(c, TracksMarkup(init, enc), mid, TrackMarkup(last, enc), c.(foundTracks := c.foundTracks + ts), dec);
  }

  // ---------------------------------------------------------------------------------------------
  // The whole document

  /** The attributes of the root tag as a tokenizer reports them: version, creator when present, schema location. */
  function RootAttributes(g: GPX): map<string, string>
  {
    var base := map["version" := g.version, "xsi:schemaLocation" := SchemaLocation];
    if g.creator.Some? then base["creator" := g.creator.value] else base
  }

  /**
   * The events a tokenizer reports for `Document(g, enc)`: the XML declaration reports none, the root tag
   * opens with its attributes and its line break, the body reports one event per markup item, the root closes.
   */
  function DocumentEvents(g: GPX, enc: Encoders): seq<Event>
  {
    [ElementStarted(RawValue(Gpx), RootAttributes(g)), CharactersFound("\n")]
    + ToEvents(Body(g, enc))
    + [ElementEnded(RawValue(Gpx))]
  }

  /** What reading a written document back finds: the one list `write` wrote, nothing open. */
  function ReadBack(g: GPX): ParseContext
  {
    if g.waypoints.Some? then EmptyContext.(foundWaypoints := g.waypoints.value)
    else if g.routes.Some? then EmptyContext.(foundRoutes := g.routes.value)
    else if g.tracks.Some? then EmptyContext.(foundTracks := g.tracks.value)
    else EmptyContext
  }

  /** A tokenizer may split text anywhere: two character events act as one carrying both texts. */
  lemma CharactersMerge(c: ParseContext, a: string, b: string, dec: Decoders)
    ensures Run(c, [CharactersFound(a), CharactersFound(b)], dec) == Step(c, CharactersFound(a + b), dec)
  {
    var c1 := Step(c, CharactersFound(a), dec);
    var c2 := Step(c1, CharactersFound(b), dec);
    assert [CharactersFound(a), CharactersFound(b)][1..] == [CharactersFound(b)];
    assert [CharactersFound(b)][1..] == [];
    assert Run(c1, [CharactersFound(b)], dec) == Run(c2, [], dec) == c2;
    match c.currentString {
      case None =>
      case Some(s) => assert s + a + b == s + (a + b);
    }
  }

  /**
   * Wherever a tokenizer splits a run of character data in an event stream, the parser ends in the
   * same state as when it reports the run in one piece.
   */
  lemma CharactersSplit(c: ParseContext, before: seq<Event>, a: string, b: string, after: seq<Event>, dec: Decoders)
    ensures Run(c, before + [CharactersFound(a), CharactersFound(b)] + after, dec)
         == Run(c, before + [CharactersFound(a + b)] + after, dec)
  {
    var mid := Run(c, before, dec);
    RunConcat(c, before + [CharactersFound(a), CharactersFound(b)], after, dec);
    RunConcat(c, before, [CharactersFound(a), CharactersFound(b)], dec);
    RunConcat(c, before + [CharactersFound(a + b)], after, dec);
    RunSnoc(c, before, CharactersFound(a + b), dec);
    CharactersMerge(mid, a, b, dec);
  }

  /** An empty run of text changes nothing: with a buffer open it appends nothing, and without one it is ignored. */
  lemma EmptyCharactersIgnored(c: ParseContext, dec: Decoders)
    ensures Step(c, CharactersFound(""), dec) == c
  {
    if c.currentString.Some? {
      assert c.currentString.value + "" == c.currentString.value;
    }
  }

  /**
   * Wherever an event stream reports an empty run of text, such as the empty value of `<name></name>` that a
   * tokenizer does not report at all, the parser ends in the same state as without that event.
   */
  lemma EmptyCharactersDropped(c: ParseContext, before: seq<Event>, after: seq<Event>, dec: Decoders)
    ensures Run(c, before + [CharactersFound("")] + after, dec) == Run(c, before + after, dec)
  {
    RunConcat(c, before + [CharactersFound("")], after, dec);
    RunSnoc(c, before, CharactersFound(""), dec);
    EmptyCharactersIgnored(Run(c, before, dec), dec);
    RunConcat(c, before, after, dec);
  }

  /** The root element is not one the parser knows: its start and end change nothing. */
  lemma RootIgnored(c: ParseContext, attributes: map<string, string>, dec: Decoders)
    ensures Step(c, ElementStarted(RawValue(Gpx), attributes), dec) == c
    ensures Step(c, ElementEnded(RawValue(Gpx)), dec) == c
  {
    assert ParserKeyOf(RawValue(Gpx)) == None;
  }

  /** Reading back the body of a document, from a fresh parser, finds exactly what was written. */
  lemma BodyRun(g: GPX, enc: Encoders, dec: Decoders)
    requires DocumentReadsBack(g, enc, dec)
    ensures Replay(EmptyContext, Body(g, enc), dec) == ReadBack(g)
  {
    if g.waypoints.Some? {
      WaypointsRun(EmptyContext, g.waypoints.value, enc, dec);
      assert [] + g.waypoints.value == g.waypoints.value;
    } else if g.routes.Some? {
      RoutesRun(EmptyContext, g.routes.value, enc, dec);
      assert [] + g.routes.value == g.routes.value;
    } else if g.tracks.Some? {
      TracksRun(EmptyContext, g.tracks.value, enc, dec);
      assert [] + g.tracks.value == g.tracks.value;
    } else {
    }
  }

  /**
   * Write, then parse: a fresh parser that reads back the events of a written document finds exactly the
   * waypoints written, or else the routes, or else the tracks, in order and field for field, and ends with
   * nothing left open, provided the number and date formats read back what they wrote.
   */
  lemma WriteThenParse(g: GPX, enc: Encoders, dec: Decoders)
    requires DocumentReadsBack(g, enc, dec)
    ensures Run(EmptyContext, DocumentEvents(g, enc), dec) == ReadBack(g)
  {
    var opening := [ElementStarted(RawValue(Gpx), RootAttributes(g)), CharactersFound("\n")];
    var body := ToEvents(Body(g, enc));
    var closing := [ElementEnded(RawValue(Gpx))];
    RootIgnored(EmptyContext, RootAttributes(g), dec);
    assert opening[1..] == [CharactersFound("\n")];
    assert [CharactersFound("\n")][1..] == [];
    assert Run(EmptyContext, [CharactersFound("\n")], dec) == Run(EmptyContext, [], dec) == EmptyContext;
    assert Run(EmptyContext, opening, dec) == EmptyContext;
    BodyRun(g, enc, dec);
    RunConcat(EmptyContext, opening, body, dec);
    RootIgnored(ReadBack(g), map[], dec);
    RunSnoc(EmptyContext, opening + body, ElementEnded(RawValue(Gpx)), dec);
  }

  /**
   * The write-then-parse scenario on the parser object: a new GPXParser fed the events of a written document
   * starts, ends in the done state, and holds exactly what was written.
   */
  method ParseWritten(g: GPX, enc: Encoders, dec: Decoders) returns (started: bool, finished: ParserState, found: ParseContext)
    requires DocumentReadsBack(g, enc, dec)
    ensures started && finished == Done
    ensures found == ReadBack(g)
  {
    var parser := new GPXParser(dec);
    started := parser.Parse(DocumentEvents(g, enc));
    finished := parser.state;
    WriteThenParse(g, enc, dec);
    found := parser.Context();
  }
}
