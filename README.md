# GPXToolKit core in Dafny

This project models the core of GPXToolKit, a Swift library that reads and writes GPX files. It covers three parts:

- **The data model.** A waypoint (`GPXWaypoint`) has a latitude, a longitude and optional elevation, date, name, comment and description. A track (`GPXTrack`) has a name and segments of points. A route (`GPXRoute`) has points and an optional name, comment and description. A document (`GPX`) holds one optional list of waypoints, routes and tracks each. The element names come from `GPXKey`.
- **The reader (`GPXParser`).** An XML tokenizer calls the parser back for each start tag, end tag and run of text. The parser keeps one "current" slot per open entity and a text buffer. Whenever an entity is finished, the parser appends it to the entity it belongs to, or to one of three found lists.
- **The writer (`GPX.write`).** It writes the XML declaration, then the root `gpx` tag with its attributes. Next come the waypoints; if there are none, the routes; if there are none of those either, the tracks. Each point, route and track is written the way its `write…` helper writes it. The root tag is closed last.

Files:

- `wrappers.dfy`: `Option` and `Result`.
- `keys.dfy`: module `Keys`, the element names.
- `waypoint.dfy`, `track.dfy`, `route.dfy`: the entities, as values.
- `parser.dfy`: module `Parser`. It holds the pure transitions `OnStartElement`, `OnEndElement` and `OnCharacters`, and their fold `Run` over an event sequence. It also holds the class `GPXParser`, whose fields are the Swift parser's fields. Its handler methods update those fields in place and are proved to agree with the transitions.
- `writer.dfy`: module `Writer`. It describes the written text as a sequence of markup items: opening tag, closing tag, and text. `Document` is the whole text. The method `Write` builds it piece by piece, the way `write(to:completion:)` does, and is proved to produce exactly `Document`. The written markup is proved balanced. The text of each piece is proved to be the text the source builds: a point element line by line, the track and route headers, the `trkseg` lines, the `trk` and `rte` closing lines, the root tag and the frame of the document.
- `roundtrip.dfy`: module `RoundTrip`. A tokenizer reports a list of events for a written document. This module proves what the parser finds when it receives that list. Point by point, the start tag opens the point `init?(lat:lon:)` makes of the written coordinates (`Opened`). That is the written point's own coordinates when they read back, and may be other coordinates in range, such as rounded ones. The parser then keeps that point with the written texts and with the elevation and date the decoders make of their written text (`Reread`). When the written coordinates do not make a point in range, the start tag is ignored. A waypoint list with any values reads back as `KeptAll`: the kept points, in order. When every number and date of the document reads back as itself (`DocumentReadsBack`), the parser finds exactly the waypoints, routes or tracks that were written, in order, field for field.

Numbers and dates are converted to and from text by `Double(_:)`, `"\(value)"` and `ISO8601DateFormatter`. These conversions are parameters here: `Decoders` for reading and `Encoders` for writing. No conversion is assumed to invert the other for all values. The round trip asks only that the values the document actually holds read back (`ReadsBack` for one point, `DocumentReadsBack` for the whole list the writer writes).

## Model

| member | source | states |
|---|---|---|
| Keys.FromRawValue | GPXToolKit/GPXKeys.swift:11-17 | `GPXKey(rawValue:)` returns the case whose raw value is the string, and nothing for any other string |
| Waypoints.NewWaypoint | GPXToolKit/GPXWaypoint.swift:22-29 | `init?(lat:lon:)` succeeds iff both strings parse as numbers and the latitude lies in [-90, 90] and the longitude in [-180, 180]; the new point has exactly those coordinates and no other field set |
| Tracks.NewTrackSegment | GPXToolKit/GPXParser.swift:117-118 | a new segment has no points |
| Tracks.NewTrack | GPXToolKit/GPXTrack.swift:11-16 | a new track has the empty name, no comment, no description and no segments |
| Routes.NewRoute | GPXToolKit/GPXRoute.swift:11-17 | a new route has no points and no name, comment or description |
| Parser.ParserKeyOf | GPXToolKit/GPXParser.swift:21-26 | the parser's own key enum: a name is recognised iff it is the raw value of a `GPXKey` case other than `gpx` |
| Parser.OnStartElement | GPXToolKit/GPXParser.swift:110-129 | an unknown name changes nothing; a start tag never touches the found lists; the open point changes only to the point built from the `lat` and `lon` attributes, when both are present and valid |
| Parser.OnEndElement | GPXToolKit/GPXParser.swift:131-215 | an unknown name changes nothing; each found list keeps its old contents as a prefix and grows by at most one entity; an open point keeps its coordinates; the text buffer is never refilled |
| Parser.OnCharacters | GPXToolKit/GPXParser.swift:217-220 | text is appended to the buffer when one is open and dropped otherwise; no other field changes |
| Parser.OnEndElementAsWritten | GPXToolKit/GPXParser.swift:153-157 | with the route bound by copy, no end tag other than `rte` changes the open route |
| Parser.RoutePointLost | GPXToolKit/GPXParser.swift:153-157 | at the end of an `rtept` inside a route, the code as written consumes the point without adding it to the route; the corrected transition appends it |
| Parser.RouteNameLost | GPXToolKit/GPXParser.swift:178-189 | at the end of a route's `name`, the code as written consumes the text and leaves the route unnamed; the corrected transition names the route |
| Parser.KeyOfRaw | GPXToolKit/GPXParser.swift:21-26 | every element name the parser handles is recognised by its raw value |
| Parser.EntityStart | GPXToolKit/GPXParser.swift:115-125 | a `trk`, `trkseg` or `rte` start tag opens a new, empty entity of that kind whatever its attributes, and changes nothing else |
| Parser.PointStartCases | GPXToolKit/GPXParser.swift:119-123 | a `trkpt`, `rtept` or `wpt` start tag opens the point built from `lat` and `lon` when both are present and `init?(lat:lon:)` accepts them; otherwise it changes nothing |
| Parser.TextStart | GPXToolKit/GPXParser.swift:126-127 | an `ele`, `time`, `name`, `cmt` or `desc` start tag starts an empty buffer, replacing any open one, and changes nothing else |
| Parser.TrackEnd | GPXToolKit/GPXParser.swift:135-138 | `trk` end: an open track is appended to the found tracks and its slot cleared; with no open track nothing changes |
| Parser.SegmentEnd | GPXToolKit/GPXParser.swift:139-143 | `trkseg` end: with a track and a segment open the segment is appended to the track and its slot cleared; otherwise nothing changes |
| Parser.TrackPointEnd | GPXToolKit/GPXParser.swift:144-148 | `trkpt` end: with a segment and a point open the point is appended to the segment and its slot cleared; otherwise nothing changes |
| Parser.RouteEnd | GPXToolKit/GPXParser.swift:149-152 | `rte` end: an open route is appended to the found routes and its slot cleared; with no open route nothing changes |
| Parser.RoutePointEnd | GPXToolKit/GPXParser.swift:153-157 | `rtept` end: with a route and a point open the point is appended to the open route and its slot cleared; otherwise nothing changes |
| Parser.WaypointEnd | GPXToolKit/GPXParser.swift:158-161 | `wpt` end: an open point is appended to the found waypoints and its slot cleared; with no open point nothing changes |
| Parser.ElevationEnd | GPXToolKit/GPXParser.swift:162-169 | `ele` end always drops the buffer; it sets the open point's elevation only when a point is open and the buffer reads as a number, and changes nothing else otherwise |
| Parser.TimeEnd | GPXToolKit/GPXParser.swift:170-177 | `time` end always drops the buffer; it sets the open point's date only when the buffer reads as a date and a point is open, and changes nothing else otherwise |
| Parser.TextEnd | GPXToolKit/GPXParser.swift:178-213 | `name`, `cmt` or `desc` end: with no buffer nothing changes; otherwise the text goes to the open point, else the open track, else the open route, else nowhere, and the buffer is dropped |
| Parser.Step | GPXToolKit/GPXParser.swift:110-220 | one tokenizer callback (start tag, end tag or text) dispatched to its handler; its effect per element is stated by the lemmas above |
| Parser.Run | GPXToolKit/GPXParser.swift:110-220 | the callbacks of one parse handled in order; `RunConcat`, `RunSnoc`, `FoundListsOnlyGrow` and `CharactersSplit` state its properties |
| Parser.RunConcat | GPXToolKit/GPXParser.swift:110-220 | handling two event streams one after the other is the same as handling their concatenation |
| Parser.RunSnoc | GPXToolKit/GPXParser.swift:110-220 | handling one more event is one more transition |
| Parser.StepGrows | GPXToolKit/GPXParser.swift:131-161 | one event keeps every found list as a prefix and adds at most one entity in all |
| Parser.FoundListsOnlyGrow | GPXToolKit/GPXParser.swift:131-161 | over any event sequence, no found entity is ever removed or reordered, and at most one entity is found per event |
| Parser.GPXParser.constructor | GPXToolKit/GPXParser.swift:20-38 | a new parser is in the initial state, with nothing open, no buffer and nothing found |
| Parser.GPXParser.ParserDidEndDocument | GPXToolKit/GPXParser.swift:106-108 | the end of the document only moves the parser to the done state |
| Parser.GPXParser.StartElement | GPXToolKit/GPXParser.swift:110-129 | the in-place update leaves the fields equal to `OnStartElement` of the old fields |
| Parser.GPXParser.EndElement | GPXToolKit/GPXParser.swift:131-215 | the in-place update leaves the fields equal to `OnEndElement` of the old fields (with the route updated in place) |
| Parser.GPXParser.FoundCharacters | GPXToolKit/GPXParser.swift:217-220 | the in-place update appends the text to an open buffer and changes nothing else |
| Parser.GPXParser.Parse | GPXToolKit/GPXParser.swift:66-84 | a parser in the initial state starts, handles the events in order and ends in the done state with the fields `Run` gives; any other parser refuses and changes nothing |
| Writer.NewGPX | GPXToolKit/GPX.swift:35-38 | a new document has the given version, the toolkit as creator, and no lists |
| Writer.WritePoint | GPXToolKit/GPX.swift:201-234 | fails with `InternalError("Incorrect point key")` iff the name is not `wpt`, `rtept` or `trkpt`; otherwise the element opens and closes at the indentation of its kind (1, 2 or 3 tabs), carries both coordinates, and its markup is balanced |
| Writer.PointElementShape | GPXToolKit/GPX.swift:215-232 | a point's markup starts with its opening line, ends with its closing line and is balanced |
| Writer.PointOpeningText | GPXToolKit/GPX.swift:215 | the opening line of a point is the indentation, `<`, the name, ` lat="…" lon="…"`, `>` and a line break |
| Writer.LeafText | GPXToolKit/GPX.swift:217-230 | the text of a leaf element is indentation, opening tag, value, closing tag and a line break |
| Writer.PointChildren | GPXToolKit/GPX.swift:216-231 | the children of a point in the order the source writes them: ele, time, name, cmt, desc, each only when present, one tab deeper than the point (text stated by `PointChildrenText`) |
| Writer.PointChildrenText | GPXToolKit/GPX.swift:216-231 | the text of a point's children is one line per present field, ele, time, name, cmt, desc in that order, each indented one tab deeper than the point |
| Writer.PointElement | GPXToolKit/GPX.swift:214-232 | the element `writePoint` writes for a point name (text stated by `PointText`, shape by `PointElementShape`) |
| Writer.PointText | GPXToolKit/GPX.swift:214-232 | the whole text `writePoint` builds: the opening line with both coordinates, the child lines in source order, and the closing line at the indentation of the point's kind |
| Writer.PointsBalanced | GPXToolKit/GPX.swift:69-73 | the markup of any list of points is balanced |
| Writer.TrackHeaderShape | GPXToolKit/GPX.swift:135-146 | a track header always writes the name line, even for an empty name, and leaves exactly `trk` open |
| Writer.TrackHeader | GPXToolKit/GPX.swift:135-146 | the markup `writeTrackHeader` writes (text stated by `TrackHeaderText`) |
| Writer.TrackHeaderText | GPXToolKit/GPX.swift:135-146 | the text of a track header: the tab-indented `trk` line, the name line, then the cmt and desc lines of those present, two tabs deep |
| Writer.TrackHeaderEnd | GPXToolKit/GPX.swift:148-151 | the markup `writeTrackHeaderEnd` writes (stated by `TrackHeaderEndLine`) |
| Writer.TrackHeaderEndLine | GPXToolKit/GPX.swift:148-151 | the track's end line is a tab and `</trk>` and a line break, and it closes the open `trk` |
| Writer.TrackSegmentHeader | GPXToolKit/GPX.swift:153-156 | the markup `writeTrackSegmentHeader` writes (stated by `TrackSegmentHeaderLine`) |
| Writer.TrackSegmentHeaderLine | GPXToolKit/GPX.swift:153-156 | the segment's start line is two tabs, `<trkseg>` and a line break, and it leaves `trkseg` open |
| Writer.TrackSegmentHeaderEnd | GPXToolKit/GPX.swift:158-161 | the markup `writeTrackSegmentHeaderEnd` writes (stated by `TrackSegmentHeaderEndLine`) |
| Writer.TrackSegmentHeaderEndLine | GPXToolKit/GPX.swift:158-161 | the segment's end line is two tabs, `</trkseg>` and a line break, and it closes the open `trkseg` |
| Writer.RouteHeaderShape | GPXToolKit/GPX.swift:169-182 | a route header starts with the `rte` line, is that line alone when the route has no name, comment or description, and leaves exactly `rte` open |
| Writer.RouteHeader | GPXToolKit/GPX.swift:169-182 | the markup `writeRouteHeader` writes (text stated by `RouteHeaderText`) |
| Writer.RouteHeaderText | GPXToolKit/GPX.swift:169-182 | the text of a route header: the tab-indented `rte` line, then the name, cmt and desc lines of those present, two tabs deep |
| Writer.RouteHeaderEnd | GPXToolKit/GPX.swift:184-187 | the markup `writeRouteHeaderEnd` writes (stated by `RouteHeaderEndLine`) |
| Writer.RouteHeaderEndLine | GPXToolKit/GPX.swift:184-187 | the route's end line is a tab and `</rte>` and a line break, and it closes the open `rte` |
| Writer.GPXHeader | GPXToolKit/GPX.swift:119-126 | the root start tag `writeGPXHeader` writes: version line, creator line when there is a creator, schema-location line (stated by `GPXHeaderLines`) |
| Writer.GPXHeaderLines | GPXToolKit/GPX.swift:119-126 | the root tag opens with the version line and ends with the schema-location line; the creator line sits between them exactly when there is a creator |
| Writer.GPXHeaderEnd | GPXToolKit/GPX.swift:128-131 | the root end tag `</gpx>` with no line break after it (stated by `DocumentFrame`) |
| Writer.Body | GPXToolKit/GPX.swift:69-95 | the waypoints, else the routes, else the tracks, each written with its own helpers (balance stated by `BodyBalanced`, read-back by `BodyRun`) |
| Writer.Document | GPXToolKit/GPX.swift:66-97 | everything `write(to:completion:)` writes: the XML declaration `XMLHeader`, the root start tag, the body, the root end tag (stated by `DocumentFrame` and `Write`) |
| Writer.DocumentFrame | GPXToolKit/GPX.swift:66-97 | the document starts with the XML declaration and the version line and ends with `</gpx>` |
| Writer.SegmentsBalanced | GPXToolKit/GPX.swift:86-92 | the markup of any list of track segments is balanced |
| Writer.TrackBalanced | GPXToolKit/GPX.swift:84-94 | the markup of a track is balanced |
| Writer.RouteBalanced | GPXToolKit/GPX.swift:75-81 | the markup of a route is balanced |
| Writer.TracksBalanced | GPXToolKit/GPX.swift:83-95 | the markup of any list of tracks is balanced |
| Writer.RoutesBalanced | GPXToolKit/GPX.swift:74-82 | the markup of any list of routes is balanced |
| Writer.BodyBalanced | GPXToolKit/GPX.swift:69-95 | whatever the document holds, the body between the root tags is balanced |
| Writer.WritePoints | GPXToolKit/GPX.swift:70-72 | the loop over points writes exactly the text of the points' markup |
| Writer.WriteRoute | GPXToolKit/GPX.swift:75-81 | the closure for one route writes exactly the text of the route's markup |
| Writer.WriteSegment | GPXToolKit/GPX.swift:86-92 | the closure for one segment writes exactly the text of the segment's markup |
| Writer.WriteSegments | GPXToolKit/GPX.swift:86-92 | the loop over segments writes exactly the text of the segments' markup |
| Writer.WriteTrack | GPXToolKit/GPX.swift:84-94 | the closure for one track writes exactly the text of the track's markup |
| Writer.WriteRoutes | GPXToolKit/GPX.swift:74-82 | the `forEach` over routes writes exactly the text of the routes' markup, one route after the other |
| Writer.WriteTracks | GPXToolKit/GPX.swift:83-95 | the `forEach` over tracks writes exactly the text of the tracks' markup, one track after the other |
| Writer.Write | GPXToolKit/GPX.swift:65-97 | the whole write produces exactly `Document`: declaration, root tag, waypoints or else routes or else tracks, closing root tag |
| RoundTrip.LeafRun | GPXToolKit/GPXParser.swift:126-127 | reading back a written leaf element leaves its value in the buffer and then ends that element |
| RoundTrip.ElevationRun | GPXToolKit/GPXParser.swift:162-169 | reading back an elevation line sets the open point's elevation to what the number decoder makes of the written text, and leaves it unset when that text does not read as a number |
| RoundTrip.TimeRun | GPXToolKit/GPXParser.swift:170-177 | reading back a time line sets the open point's date to what the date decoder makes of the written text, and leaves it unset when that text does not read as a date |
| RoundTrip.PointTextRun | GPXToolKit/GPXParser.swift:178-213 | reading back a written name, comment or description line sets that field of the open point |
| RoundTrip.PointTextsRun | GPXToolKit/GPXParser.swift:178-213 | reading back the name, cmt and desc lines of a point sets exactly those texts on the open point |
| RoundTrip.PointNumbersRun | GPXToolKit/GPXParser.swift:162-177 | reading back a point's ele and time lines sets, on whatever point the start tag opened, what the decoders make of the written text |
| RoundTrip.Opened | GPXToolKit/GPXParser.swift:119-123 | the point a written start tag opens is `init?(lat:lon:)` on the written coordinates; it is the written point's bare point when the coordinates read back, and when it exists it has no field but its coordinates |
| RoundTrip.Reread | GPXToolKit/GPXParser.swift:162-177 | the point the parser rebuilds has the coordinates of the opened point and the written texts, has no elevation or date where none was written, and equals the written point when the opened point is its bare point and its numbers and dates read back |
| RoundTrip.PointStart | GPXToolKit/GPXParser.swift:119-123 | when the written coordinates make a point in range, possibly a rounded one, a written point's start tag opens exactly `Opened` of the point |
| RoundTrip.PointStartRejected | GPXToolKit/GPXParser.swift:119-122 | when the written coordinates do not make a point in range, the point's start tag is ignored |
| RoundTrip.PointChildrenRun | GPXToolKit/GPX.swift:216-231 | reading back a point's child lines turns any freshly opened point into `Reread` of it: the written texts, and elevation and date as decoded |
| RoundTrip.PointRun | GPXToolKit/GPXParser.swift:119-123 | when the written coordinates make a point in range, reading back a written point is ending its element with `Reread` of the opened point open |
| RoundTrip.OrphanChildrenRun | GPXToolKit/GPXParser.swift:162-213 | the child lines of a point whose start tag was ignored change nothing when no point, track or route is open to receive them |
| RoundTrip.Kept | GPXToolKit/GPXParser.swift:119-123 | what the parser keeps of one written point: nothing exactly when its start tag is ignored, else one point, the written point itself when its values read back |
| RoundTrip.WaypointReread | GPXToolKit/GPXParser.swift:158-161 | whatever its values, reading back one waypoint into an idle parser appends exactly `Kept` of it to the found waypoints |
| RoundTrip.KeptAllReadBack | GPXToolKit/GPXParser.swift:119-123 | when every number and date reads back, the parser keeps every written waypoint as written |
| RoundTrip.WaypointsReread | GPXToolKit/GPX.swift:69-73 | whatever their values, reading back written waypoints into an idle parser appends `KeptAll` of them, in order, to the found waypoints |
| RoundTrip.WaypointRun | GPXToolKit/GPXParser.swift:158-161 | when its numbers and dates read back, reading back one waypoint appends exactly it to the found waypoints |
| RoundTrip.RoutePointRun | GPXToolKit/GPXParser.swift:153-157 | when its numbers and dates read back, reading back one route point appends exactly it to the open route |
| RoundTrip.TrackPointRun | GPXToolKit/GPXParser.swift:144-148 | when its numbers and dates read back, reading back one track point appends exactly it to the open segment |
| RoundTrip.WaypointsRun | GPXToolKit/GPXParser.swift:158-161 | when every number and date of the points reads back, reading back written waypoints appends them, in order, to the found waypoints |
| RoundTrip.RoutePointsRun | GPXToolKit/GPXParser.swift:153-157 | when every number and date of the points reads back, reading back written route points appends them, in order, to the open route |
| RoundTrip.SegmentPointsRun | GPXToolKit/GPXParser.swift:144-148 | when every number and date of the points reads back, reading back written track points appends them, in order, to the open segment |
| RoundTrip.RouteHeaderRun | GPXToolKit/GPXParser.swift:124-125 | reading back a route header opens a route with the written name, comment and description and no points |
| RoundTrip.RouteTextsRun | GPXToolKit/GPXParser.swift:178-213 | with no point and no track open, reading back name, cmt and desc lines sets exactly those texts on the open route |
| RoundTrip.RouteRun | GPXToolKit/GPXParser.swift:149-152 | when the route's numbers and dates read back, reading back a written route appends exactly that route to the found routes |
| RoundTrip.RoutesRun | GPXToolKit/GPX.swift:74-82 | when the routes' numbers and dates read back, reading back written routes appends them, in order, to the found routes |
| RoundTrip.SegmentRun | GPXToolKit/GPXParser.swift:139-143 | when the segment's numbers and dates read back, reading back a written segment appends exactly that segment to the open track |
| RoundTrip.SegmentsRun | GPXToolKit/GPX.swift:86-92 | when the segments' numbers and dates read back, reading back written segments appends them, in order, to the open track |
| RoundTrip.TrackTextsRun | GPXToolKit/GPXParser.swift:178-213 | with no point open and a new track open, reading back the name line and the cmt and desc lines sets exactly those texts on the track |
| RoundTrip.TrackHeaderRun | GPXToolKit/GPXParser.swift:115-116 | reading back a track header opens a track with the written name, comment and description and no segments |
| RoundTrip.TrackRun | GPXToolKit/GPXParser.swift:135-138 | when the track's numbers and dates read back, reading back a written track appends exactly that track to the found tracks |
| RoundTrip.TracksRun | GPXToolKit/GPX.swift:83-95 | when the tracks' numbers and dates read back, reading back written tracks appends them, in order, to the found tracks |
| RoundTrip.CharactersMerge | GPXToolKit/GPXParser.swift:217-220 | two text events in a row act as one event carrying both texts |
| RoundTrip.CharactersSplit | GPXToolKit/GPXParser.swift:217-220 | splitting one text event into two anywhere in an event stream leaves the parser in the same state, so where a tokenizer splits text does not matter |
| RoundTrip.EmptyCharactersDropped | GPXToolKit/GPXParser.swift:217-220 | an empty text event anywhere in an event stream leaves the parser in the same state as without it, such as the one the model reports for `<name></name>` |
| RoundTrip.RootIgnored | GPXToolKit/GPXParser.swift:113 | the root `gpx` tag is not one the parser knows: its start and end change nothing |
| RoundTrip.BodyRun | GPXToolKit/GPX.swift:69-95 | when every number and date of the written list reads back, a fresh parser reading back the body finds exactly the written waypoints, or else routes, or else tracks |
| RoundTrip.WriteThenParse | Tests/GPXToolKitTests/GPXWriteTests.swift:13-60 | write then parse: when every number and date of the written list reads back, a fresh parser fed a written document finds exactly what was written and has nothing left open |
| RoundTrip.ParseWritten | Tests/GPXToolKitTests/GPXWriteTests.swift:176-237 | the same scenario on a `GPXParser` object: a new parser fed a written document whose numbers and dates read back starts parsing, ends in the done state, and holds exactly what was written |

## Left out

- The XML tokenizer (`XMLParser`) is not part of this model. Parsing works on a sequence of events. `DocumentEvents` gives the events a conforming tokenizer reports for a written document, except that it reports an empty text event for an empty value such as the default track name in `<name></name>`. `EmptyCharactersDropped` shows that such an event changes nothing, and `CharactersSplit` shows that how the tokenizer splits text does not matter.
- The writer does not escape `<`, `&` or `"` in names, comments, descriptions or the creator, and the tokenizer would unescape them. The round trip is stated for the event stream, with text reported as written.
- `init(contentsOf:)` and `init(data:)` wrap a tokenizer around a file or a buffer; the tokenizer is not part of this model. `init(contentsOf:)` also sets the date formatter to internet date-time in the current time zone, and `init(data:)` leaves the formatter at its defaults. The constructor takes the decoders as a parameter, so the date decoder that either initialiser configures is the caller's choice here; the model does not distinguish the two.
- Dispatch queues, completion callbacks, `abortParsing` and `parseErrorOccurred` are concurrency and reporting glue, so they are not modelled. The source never calls the parse completion on success: `parserDidEndDocument` only sets the state, and the found lists are never assembled into a `GPX`.
- File I/O is not modelled: `fileExists`, creating the file, `FileHandle`, the `WriteError` raised when a string cannot be encoded as UTF-8, and the write completion. `Write` returns the text instead of writing it to a file.
- `Double(_:)`, `"\(Double)"`, `ISO8601DateFormatter` and the time zone are parameters, because they are foreign formatting code. Dates are a `Date` in whole seconds, and numbers are `real`, so NaN and infinities are not modelled. Rounding is modelled only as a decoder that reads back another value than the one written.
- `GPXMetadata` is never written or read by the core, so it is not modelled.
- The entities are values. In the source, waypoints and tracks are classes, and the parser mutates the object held in a slot. The parser always clears a slot right after appending its entity, so no aliasing can be observed. The value model finds the same lists.
- GPXTrackSegment.swift is not part of this model. A segment is modelled as its list of points, as the parser and the writer use it. The model assumes that `GPXTrackSegment` is a class, so that appending a `trkpt` to the segment bound at GPXParser.swift:145-147 reaches `currentTrackSegment`. If it were a struct, as the memberwise `GPXTrackSegment(points:)` in the tests suggests, that branch would lose the point, just as the `rtept` branch loses it. `TrackPointEnd` and `OnEndElement` would then model the corrected behaviour rather than the code as written.
- The tests in Tests/GPXToolKitTests construct entities through initialisers that the core does not have, such as `GPXWaypoint(lat: 44, lon: 2)` and `GPXTrack(name:)`. `WriteThenParse` states their write-then-parse property, exactly, for any document whose numbers and dates read back (`DocumentReadsBack`). The tests compare coordinates with a tolerance (`accuracy: 0.000001`); that tolerance is not modelled. The older fixtures in GPXToolKitTests/ read files that are not part of this model.
- Fractions of a second: a Swift `Date` can hold them, and the internet date-time format the writer uses drops them, so such a date never reads back as itself. The model's `Date` counts whole seconds and cannot represent that loss.
- Numbers and dates that do not read back as themselves: the document-level lemmas (`BodyRun`, `WriteThenParse`, `ParseWritten`) are stated for documents whose values read back. For any other values, `PointRun` (with `Opened` and `Reread`) and `PointStartRejected` state what the parser keeps of each point, and `WaypointsReread` what it keeps of a waypoint list. No lemma does this for route points or track points. When a route point or track point is ignored, its name, cmt and desc lines are set on the open route or track instead; no lemma states that.
- Parser.GPXParser.EndElement: models the route branches with the route updated in place, which is the corrected behaviour. The code as written is `OnEndElementAsWritten`.

## Findings

| source | as written | input that shows it | evidently intended | confidence | as-written member | corrected member |
|---|---|---|---|---|---|---|
| GPXToolKit/GPXParser.swift:153-157, 178-213 | `GPXRoute` is a struct, so `guard let route = self.currentRoute` binds a copy. Appending a point, or setting the name, comment or description, changes only the copy, and `currentRoute` keeps its old value. Mutating a `let` copy does not even compile, and the smallest compiling edit (`guard var`) keeps the copy semantics. | `<rte><rtept lat="1" lon="2"></rtept></rte>`: the point is consumed and the route that is found has no points. `<rte><name>r</name></rte>`: the route that is found has no name. | the open route receives the point or the text, as tracks and segments do and as testSingleRouteWaypoint expects | not executed | Parser.OnEndElementAsWritten, Parser.RoutePointLost, Parser.RouteNameLost | Parser.OnEndElement, RoundTrip.RouteRun |
