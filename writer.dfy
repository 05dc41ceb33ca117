/**
 * The GPX serializer (`GPX.write(to:)` and its private writers in GPXToolKit/GPX.swift).
 *
 * Each private writer of the source builds one piece of text. Here each piece is a short sequence of
 * markup items (an opening tag with its attributes, a closing tag, or character data) and its text is
 * the rendering of those items, character for character the string the source builds. The XML
 * declaration and the root `gpx` tag, whose attributes are laid out one per line, are plain strings.
 */
module Writer {
  import opened Wrappers
  import opened Keys
  import opened Waypoints
  import opened Tracks
  import opened Routes

  /** The writer's failures. */
  datatype GPXError = WriteError(message: string) | InternalError(message: string)

  /** How the source turns values into text: interpolation of a `Double`, and the ISO 8601 date formatter. */
  datatype Encoders = Encoders(number: real -> string, date: Date -> string)

  /** `GPX`: the document. Each collection is independently optional; `metadata` is not part of this model. */
  datatype GPX = GPX(
    version: string,
    creator: Option<string>,
    waypoints: Option<seq<Waypoint>>,
    routes: Option<seq<Route>>,
    tracks: Option<seq<Track>>)

  const DefaultCreator: string := "GPXToolKit - http://www.xdappfactory.com"

  /** `init(version:)`: the given version, the toolkit as creator, and no collections. */
  function NewGPX(version: string): (g: GPX)
    ensures g.version == version && g.creator == Some(DefaultCreator)
    ensures g.waypoints == None && g.routes == None && g.tracks == None
  {
    GPX(version, Some(DefaultCreator), None, None, None)
  }

  // ---------------------------------------------------------------------------------------------
  // Markup and its rendering

  datatype Markup =
    | Open(tag: string, attributes: seq<(string, string)>)
    | Close(tag: string)
    | Chars(text: string)

  function RenderAttributes(attributes: seq<(string, string)>): string
  {
    if attributes == [] then ""
    else " " + attributes[0].0 + "=\"" + attributes[0].1 + "\"" + RenderAttributes(attributes[1..])
  }

  function Render(m: Markup): string
  {
    match m
    case Open(tag, attributes) => "<" + tag + RenderAttributes(attributes) + ">"
    case Close(tag) => "</" + tag + ">"
    case Chars(text) => text
  }

  function RenderAll(ms: seq<Markup>): string
  {
    if ms == [] then "" else Render(ms[0]) + RenderAll(ms[1..])
  }

  /** Rendering distributes over concatenation, so pieces may be written one after the other. */
  lemma {:induction false} RenderAllConcat(a: seq<Markup>, b: seq<Markup>)
    ensures RenderAll(a + b) == RenderAll(a) + RenderAll(b)
  {
    if a == [] {
      assert a + b == b;
    } else {
      assert (a + b)[0] == a[0];
      assert (a + b)[1..] == a[1..] + b;
      RenderAllConcat(a[1..], b);
    }
  }

  // ---------------------------------------------------------------------------------------------
  // Balanced tags

  /** The effect of one item on the stack of open tags, innermost last; nothing when a closing tag is out of place. */
  function Push(m: Markup, open: seq<string>): Option<seq<string>>
  {
    match m
    case Open(tag, _) => Some(open + [tag])
    case Close(tag) => if open != [] && open[|open| - 1] == tag then Some(open[..|open| - 1]) else None
    case Chars(_) => Some(open)
  }

  /** The tags still open after `ms`, given those open before it. */
  function Unclosed(ms: seq<Markup>, open: seq<string>): Option<seq<string>>
  {
    if ms == [] then Some(open)
    else match Push(ms[0], open)
      case None => None
      case Some(next) => Unclosed(ms[1..], next)
  }

  /** Every tag is closed, innermost first. */
  predicate Balanced(ms: seq<Markup>)
  {
    Unclosed(ms, []) == Some([])
  }

  lemma {:induction false} UnclosedConcat(a: seq<Markup>, b: seq<Markup>, open: seq<string>)
    ensures Unclosed(a + b, open) == (match Unclosed(a, open) case None => None case Some(s) => Unclosed(b, s))
  {
    if a == [] {
      assert a + b == b;
    } else {
      assert (a + b)[0] == a[0];
      assert (a + b)[1..] == a[1..] + b;
      match Push(a[0], open)
      case None =>
      case Some(next) => UnclosedConcat(a[1..], b, next);
    }
  }

  lemma UnclosedPair(m: Markup, n: Markup, open: seq<string>)
    ensures Unclosed([m, n], open) == (match Push(m, open) case None => None case Some(s) => Push(n, s))
  {
    assert [m, n][1..] == [n];
    assert [n][1..] == [];
    match Push(m, open) {
      case None =>
      case Some(next) =>
        match Push(n, next) {
          case None =>
          case Some(last) => assert Unclosed([n], next) == Unclosed([], last);
        }
    }
  }

  lemma UnclosedTriple(m: Markup, n: Markup, k: Markup, open: seq<string>)
    requires Push(m, open).Some? && Push(n, Push(m, open).value).Some?
    ensures Unclosed([m, n, k], open) == Push(k, Push(n, Push(m, open).value).value)
  {
    assert [m, n, k][1..] == [n, k];
    UnclosedPair(n, k, Push(m, open).value);
  }

  /** Tags pushed beneath an enclosing stack are handled the same way: the stack below is left alone. */
  lemma {:induction false} UnclosedBeneath(ms: seq<Markup>, below: seq<string>, open: seq<string>, rest: seq<string>)
    requires Unclosed(ms, open) == Some(rest)
    ensures Unclosed(ms, below + open) == Some(below + rest)
  {
    if ms != [] {
      var next := Push(ms[0], open).value;
      match ms[0] {
        case Open(tag, _) =>
          assert below + open + [tag] == below + next;
        case Close(tag) =>
          assert (below + open)[..|below + open| - 1] == below + next;
        case Chars(_) =>
      }
      UnclosedBeneath(ms[1..], below, next, rest);
    }
  }

  lemma BalancedConcat(a: seq<Markup>, b: seq<Markup>)
    requires Balanced(a) && Balanced(b)
    ensures Balanced(a + b)
  {
    UnclosedConcat(a, b, []);
  }

  /** Balanced content placed after markup that opens one tag leaves exactly that tag open. */
  lemma OpenedWith(opening: seq<Markup>, content: seq<Markup>, tag: string)
    requires Unclosed(opening, []) == Some([tag]) && Balanced(content)
    ensures Unclosed(opening + content, []) == Some([tag])
  {
    UnclosedConcat(opening, content, []);
    UnclosedBeneath(content, [tag], [], []);
    assert [tag] + [] == [tag];
  }

  /** Markup that leaves one tag open, followed by markup that closes it, is balanced. */
  lemma ClosedWith(prefix: seq<Markup>, closing: seq<Markup>, tag: string)
    requires Unclosed(prefix, []) == Some([tag]) && Unclosed(closing, [tag]) == Some([])
    ensures Balanced(prefix + closing)
  {
    UnclosedConcat(prefix, closing, []);
  }

  /** An indented opening line leaves its tag open. */
  lemma OpeningLine(tab: string, tag: string, attributes: seq<(string, string)>)
    ensures Unclosed([Chars(tab), Open(tag, attributes), Chars("\n")], []) == Some([tag])
  {
    UnclosedTriple(Chars(tab), Open(tag, attributes), Chars("\n"), []);
    assert [] + [tag] == [tag];
  }

  /** An indented closing line closes the tag left open. */
  lemma ClosingLine(tab: string, tag: string)
    ensures Unclosed([Chars(tab), Close(tag), Chars("\n")], [tag]) == Some([])
  {
    UnclosedTriple(Chars(tab), Close(tag), Chars("\n"), [tag]);
  }

  /** The text of an indented opening line without attributes. */
  lemma OpeningLineText(tab: string, tag: string)
    ensures RenderAll([Chars(tab), Open(tag, []), Chars("\n")]) == tab + "<" + tag + ">" + "\n"
  {
    RenderTriple(Chars(tab), Open(tag, []), Chars("\n"));
  }

  /** The text of an indented closing line. */
  lemma ClosingLineText(tab: string, tag: string)
    ensures RenderAll([Chars(tab), Close(tag), Chars("\n")]) == tab + "</" + tag + ">" + "\n"
  {
    RenderTriple(Chars(tab), Close(tag), Chars("\n"));
  }

  // ---------------------------------------------------------------------------------------------
  // The pieces the private writers emit

  /** A text element on its own line: `indent<key>value</key>` and a newline. */
  function Leaf(indent: string, key: GPXKey, value: string): seq<Markup>
  {
    [Chars(indent), Open(RawValue(key), []), Chars(value), Close(RawValue(key)), Chars("\n")]
  }

  /** A text element that is written only when its value is present. */
  function OptionalLeaf(indent: string, key: GPXKey, value: Option<string>): seq<Markup>
  {
    match value
    case None => []
    case Some(v) => Leaf(indent, key, v)
  }

  function Formatted<T>(value: Option<T>, format: T -> string): Option<string>
  {
    match value
    case None => None
    case Some(v) => Some(format(v))
  }

  lemma RenderCons(m: Markup, ms: seq<Markup>)
    ensures RenderAll([m] + ms) == Render(m) + RenderAll(ms)
  {
    assert ([m] + ms)[1..] == ms;
  }

  /** The text of a leaf is the line the source builds for it. */
  lemma LeafText(indent: string, key: GPXKey, value: string)
    ensures RenderAll(Leaf(indent, key, value))
         == indent + "<" + RawValue(key) + ">" + value + "</" + RawValue(key) + ">" + "\n"
  {
    var tag := RawValue(key);
    assert Leaf(indent, key, value)
        == [Chars(indent)] + ([Open(tag, [])] + ([Chars(value)] + ([Close(tag)] + [Chars("\n")])));
    RenderCons(Chars(indent), [Open(tag, [])] + ([Chars(value)] + ([Close(tag)] + [Chars("\n")])));
    RenderCons(Open(tag, []), [Chars(value)] + ([Close(tag)] + [Chars("\n")]));
    RenderCons(Chars(value), [Close(tag)] + [Chars("\n")]);
    RenderCons(Close(tag), [Chars("\n")]);
    RenderCons(Chars("\n"), []);
  }

  /** The line written for a text element: indentation, start tag, value, end tag, newline. */
  function TextLine(indent: string, tag: string, value: string): string
  {
    indent + "<" + tag + ">" + value + "</" + tag + ">" + "\n"
  }

  /** The line written for an optional text element: nothing when the value is absent. */
  function OptionalTextLine(indent: string, tag: string, value: Option<string>): string
  {
    if value.Some? then TextLine(indent, tag, value.value) else ""
  }

  lemma OptionalLeafText(indent: string, key: GPXKey, value: Option<string>)
    ensures RenderAll(OptionalLeaf(indent, key, value)) == OptionalTextLine(indent, RawValue(key), value)
  {
    if value.Some? {
      LeafText(indent, key, value.value);
    }
  }

  lemma LeafBalanced(indent: string, key: GPXKey, value: string)
    ensures Balanced(Leaf(indent, key, value))
  {
    var opening := [Chars(indent), Open(RawValue(key), [])];
    var closing := [Close(RawValue(key)), Chars("\n")];
    assert Leaf(indent, key, value) == opening + [Chars(value)] + closing;
    UnclosedPair(Chars(indent), Open(RawValue(key), []), []);
    assert [] + [RawValue(key)] == [RawValue(key)];
    UnclosedPair(Close(RawValue(key)), Chars("\n"), [RawValue(key)]);
    assert [Chars(value)][1..] == [];
    OpenedWith(opening, [Chars(value)], RawValue(key));
    ClosedWith(opening + [Chars(value)], closing, RawValue(key));
  }

  lemma OptionalLeafBalanced(indent: string, key: GPXKey, value: Option<string>)
    ensures Balanced(OptionalLeaf(indent, key, value))
  {
    if value.Some? {
      LeafBalanced(indent, key, value.value);
    }
  }

  /** The element names `writePoint` accepts. */
  type PointKey = k: GPXKey | k == Wpt || k == Rtept || k == Trkpt witness Wpt

  /** The children of a point element, in the order the source writes them: ele, time, name, cmt, desc. */
  function PointChildren(p: Waypoint, tab: string, enc: Encoders): seq<Markup>
  {
    OptionalLeaf(tab + "\t", Ele, Formatted(p.elevation, enc.number))
    + OptionalLeaf(tab + "\t", Time, Formatted(p.date, enc.date))
    + OptionalLeaf(tab + "\t", Name, p.name)
    + OptionalLeaf(tab + "\t", Cmt, p.comment)
    + OptionalLeaf(tab + "\t", Desc, p.description)
  }

  lemma PointChildrenBalanced(p: Waypoint, tab: string, enc: Encoders)
    ensures Balanced(PointChildren(p, tab, enc))
  {
    OptionalLeafBalanced(tab + "\t", Ele, Formatted(p.elevation, enc.number));
    OptionalLeafBalanced(tab + "\t", Time, Formatted(p.date, enc.date));
    OptionalLeafBalanced(tab + "\t", Name, p.name);
    OptionalLeafBalanced(tab + "\t", Cmt, p.comment);
    OptionalLeafBalanced(tab + "\t", Desc, p.description);
    var e := OptionalLeaf(tab + "\t", Ele, Formatted(p.elevation, enc.number));
    var t := OptionalLeaf(tab + "\t", Time, Formatted(p.date, enc.date));
    var n := OptionalLeaf(tab + "\t", Name, p.name);
    var c := OptionalLeaf(tab + "\t", Cmt, p.comment);
    var d := OptionalLeaf(tab + "\t", Desc, p.description);
    BalancedConcat(e, t);
    BalancedConcat(e + t, n);
    BalancedConcat(e + t + n, c);
    BalancedConcat(e + t + n + c, d);
  }

  /** The tab prefix of each point type: one for `wpt`, two for `rtept`, three for `trkpt`. */
  function Indentation(key: PointKey): string
  {
    match key
    case Wpt => "\t"
    case Rtept => "\t\t"
    case Trkpt => "\t\t\t"
  }

  function PointAttributes(p: Waypoint, enc: Encoders): seq<(string, string)>
  {
    [("lat", enc.number(p.lat)), ("lon", enc.number(p.lon))]
  }

  /** The point element `writePoint` writes for one of the three point names. */
  function PointElement(p: Waypoint, key: PointKey, enc: Encoders): seq<Markup>
  {
    var tab := Indentation(key);
    [Chars(tab), Open(RawValue(key), PointAttributes(p, enc)), Chars("\n")]
    + PointChildren(p, tab, enc)
    + [Chars(tab), Close(RawValue(key)), Chars("\n")]
  }

  lemma PointElementShape(p: Waypoint, key: PointKey, enc: Encoders)
    ensures var ms := PointElement(p, key, enc);
      |ms| >= 6 &&
      ms[..3] == [Chars(Indentation(key)), Open(RawValue(key), PointAttributes(p, enc)), Chars("\n")] &&
      ms[|ms| - 3..] == [Chars(Indentation(key)), Close(RawValue(key)), Chars("\n")] &&
      Balanced(ms)
  {
    var tab := Indentation(key);
    var opening := [Chars(tab), Open(RawValue(key), PointAttributes(p, enc)), Chars("\n")];
    var closing := [Chars(tab), Close(RawValue(key)), Chars("\n")];
    PointChildrenBalanced(p, tab, enc);
    OpeningLine(tab, RawValue(key), PointAttributes(p, enc));
    ClosingLine(tab, RawValue(key));
    OpenedWith(opening, PointChildren(p, tab, enc), RawValue(key));
    ClosedWith(opening + PointChildren(p, tab, enc), closing, RawValue(key));
  }

  /**
   * `writePoint(_:type:to:)`. Any element name other than the three point names fails with an internal
   * error before anything is written. Otherwise the element opens and closes with the same name at the
   * indentation of its kind (one tab for `wpt`, two for `rtept`, three for `trkpt`), carries the
   * coordinates as attributes, and its content is balanced.
   */
  function WritePoint(p: Waypoint, key: GPXKey, enc: Encoders): (r: Result<seq<Markup>, GPXError>)
    ensures r.Failure? <==> !(key == Wpt || key == Rtept || key == Trkpt)
    ensures r.Failure? ==> r.error == InternalError("Incorrect point key")
    ensures r.Success? ==>
      var tab := if key == Wpt then "\t" else if key == Rtept then "\t\t" else "\t\t\t";
      |r.value| >= 6 &&
      r.value[..3] == [Chars(tab), Open(RawValue(key), PointAttributes(p, enc)), Chars("\n")] &&
      r.value[|r.value| - 3..] == [Chars(tab), Close(RawValue(key)), Chars("\n")] &&
      Balanced(r.value)
  {
    if key == Wpt || key == Rtept || key == Trkpt then
      PointElementShape(p, key, enc);
      Success(PointElement(p, key, enc))
    else
      Failure(InternalError("Incorrect point key"))
  }

  lemma RenderTriple(a: Markup, b: Markup, c: Markup)
    ensures RenderAll([a, b, c]) == Render(a) + Render(b) + Render(c)
  {
    assert [a, b, c][1..] == [b, c];
    assert [b, c][1..] == [c];
    assert [c][1..] == [];
    assert RenderAll([c]) == Render(c) + "" == Render(c);
    assert RenderAll([b, c]) == Render(b) + Render(c);
    assert RenderAll([a, b, c]) == Render(a) + (Render(b) + Render(c));
  }

  lemma CoordinatesText(p: Waypoint, enc: Encoders)
    ensures RenderAttributes(PointAttributes(p, enc))
         == (" lat=\"" + enc.number(p.lat) + "\"") + (" lon=\"" + enc.number(p.lon) + "\"")
  {
    var attributes := PointAttributes(p, enc);
    assert attributes[1..] == [("lon", enc.number(p.lon))];
    assert attributes[1..][1..] == [];
    var lat := " lat=\"" + enc.number(p.lat) + "\"";
    var lon := " lon=\"" + enc.number(p.lon) + "\"";
    assert RenderAttributes(attributes[1..]) == lon + "" == lon;
    assert RenderAttributes(attributes) == lat + lon;
  }

  /** The opening line of a point is the one the source builds: indentation, name, and both coordinates. */
  lemma PointOpeningText(p: Waypoint, key: PointKey, enc: Encoders)
    ensures RenderAll(PointElement(p, key, enc)[..3])
         == Indentation(key)
            + ("<" + RawValue(key) + ((" lat=\"" + enc.number(p.lat) + "\"") + (" lon=\"" + enc.number(p.lon) + "\"")) + ">")
            + "\n"
  {
    PointElementShape(p, key, enc);
    RenderTriple(Chars(Indentation(key)), Open(RawValue(key), PointAttributes(p, enc)), Chars("\n"));
    CoordinatesText(p, enc);
  }

  /**
   * The whole text `writePoint` builds: the opening line with both coordinates, one line for each of
   * ele, time, name, cmt and desc that is present, in that order, one tab deeper, and the closing line.
   */
  lemma PointText(p: Waypoint, key: PointKey, enc: Encoders)
    ensures var tab := Indentation(key);
      RenderAll(PointElement(p, key, enc))
      == (tab + ("<" + RawValue(key) + ((" lat=\"" + enc.number(p.lat) + "\"") + (" lon=\"" + enc.number(p.lon) + "\"")) + ">") + "\n")
         + (OptionalTextLine(tab + "\t", RawValue(Ele), Formatted(p.elevation, enc.number))
            + OptionalTextLine(tab + "\t", RawValue(Time), Formatted(p.date, enc.date))
            + OptionalTextLine(tab + "\t", RawValue(Name), p.name)
            + OptionalTextLine(tab + "\t", RawValue(Cmt), p.comment)
            + OptionalTextLine(tab + "\t", RawValue(Desc), p.description))
         + (tab + "</" + RawValue(key) + ">" + "\n")
  {
    var tab := Indentation(key);
    var opening := [Chars(tab), Open(RawValue(key), PointAttributes(p, enc)), Chars("\n")];
    var closing := [Chars(tab), Close(RawValue(key)), Chars("\n")];
    PointElementShape(p, key, enc);
    PointOpeningText(p, key, enc);
    PointChildrenText(p, tab, enc);
    ClosingLineText(tab, RawValue(key));
    RenderAllConcat(opening, PointChildren(p, tab, enc));
    RenderAllConcat(opening + PointChildren(p, tab, enc), closing);
    assert PointElement(p, key, enc)[..3] == opening;
  }

  lemma PointChildrenText(p: Waypoint, tab: string, enc: Encoders)
    ensures RenderAll(PointChildren(p, tab, enc))
         == OptionalTextLine(tab + "\t", RawValue(Ele), Formatted(p.elevation, enc.number))
            + OptionalTextLine(tab + "\t", RawValue(Time), Formatted(p.date, enc.date))
            + OptionalTextLine(tab + "\t", RawValue(Name), p.name)
            + OptionalTextLine(tab + "\t", RawValue(Cmt), p.comment)
            + OptionalTextLine(tab + "\t", RawValue(Desc), p.description)
  {
    var e := OptionalLeaf(tab + "\t", Ele, Formatted(p.elevation, enc.number));
    var t := OptionalLeaf(tab + "\t", Time, Formatted(p.date, enc.date));
    var n := OptionalLeaf(tab + "\t", Name, p.name);
    var c := OptionalLeaf(tab + "\t", Cmt, p.comment);
    var d := OptionalLeaf(tab + "\t", Desc, p.description);
    OptionalLeafText(tab + "\t", Ele, Formatted(p.elevation, enc.number));
    OptionalLeafText(tab + "\t", Time, Formatted(p.date, enc.date));
    OptionalLeafText(tab + "\t", Name, p.name);
    OptionalLeafText(tab + "\t", Cmt, p.comment);
    OptionalLeafText(tab + "\t", Desc, p.description);
    RenderAllConcat(e, t);
    RenderAllConcat(e + t, n);
    RenderAllConcat(e + t + n, c);
    RenderAllConcat(e + t + n + c, d);
  }

  /** `forEach` over points: their elements one after the other. */
  function PointsMarkup(ps: seq<Waypoint>, key: PointKey, enc: Encoders): seq<Markup>
  {
    if ps == [] then [] else PointsMarkup(ps[..|ps| - 1], key, enc) + PointElement(ps[|ps| - 1], key, enc)
  }

  lemma {:induction false} PointsBalanced(ps: seq<Waypoint>, key: PointKey, enc: Encoders)
    ensures Balanced(PointsMarkup(ps, key, enc))
  {
    if ps != [] {
      PointsBalanced(ps[..|ps| - 1], key, enc);
      PointElementShape(ps[|ps| - 1], key, enc);
      BalancedConcat(PointsMarkup(ps[..|ps| - 1], key, enc), PointElement(ps[|ps| - 1], key, enc));
    }
  }

  /** `writeTrackHeader`: opens `trk`, then the name, cmt and desc lines. */
  function TrackHeader(t: Track): seq<Markup>
  {
    [Chars("\t"), Open(RawValue(Trk), []), Chars("\n")]
    + Leaf("\t\t", Name, t.name)
    + OptionalLeaf("\t\t", Cmt, t.comment)
    + OptionalLeaf("\t\t", Desc, t.description)
  }

  /** A track header always writes the name, even an empty one, and leaves `trk` open. */
  lemma TrackHeaderShape(t: Track)
    ensures var ms := TrackHeader(t);
      |ms| >= 8 && ms[3..8] == Leaf("\t\t", Name, t.name) && Unclosed(ms, []) == Some([RawValue(Trk)])
  {
    var opening := [Chars("\t"), Open(RawValue(Trk), []), Chars("\n")];
    var name := Leaf("\t\t", Name, t.name);
    var cmt := OptionalLeaf("\t\t", Cmt, t.comment);
    var desc := OptionalLeaf("\t\t", Desc, t.description);
    LeafBalanced("\t\t", Name, t.name);
    OptionalLeafBalanced("\t\t", Cmt, t.comment);
    OptionalLeafBalanced("\t\t", Desc, t.description);
    BalancedConcat(name, cmt);
    BalancedConcat(name + cmt, desc);
    OpeningLine("\t", RawValue(Trk), []);
    OpenedWith(opening, name + cmt + desc, RawValue(Trk));
    assert opening + name + cmt + desc == opening + (name + cmt + desc);
  }

  /** The text `writeTrackHeader` builds: the `trk` line, the name line, and the cmt and desc lines of those present. */
  lemma TrackHeaderText(t: Track)
    ensures RenderAll(TrackHeader(t))
         == "\t" + "<" + RawValue(Trk) + ">" + "\n"
            + TextLine("\t\t", RawValue(Name), t.name)
            + OptionalTextLine("\t\t", RawValue(Cmt), t.comment)
            + OptionalTextLine("\t\t", RawValue(Desc), t.description)
  {
    var opening := [Chars("\t"), Open(RawValue(Trk), []), Chars("\n")];
    var name := Leaf("\t\t", Name, t.name);
    var cmt := OptionalLeaf("\t\t", Cmt, t.comment);
    var desc := OptionalLeaf("\t\t", Desc, t.description);
    OpeningLineText("\t", RawValue(Trk));
    LeafText("\t\t", Name, t.name);
    OptionalLeafText("\t\t", Cmt, t.comment);
    OptionalLeafText("\t\t", Desc, t.description);
    RenderAllConcat(opening, name);
    RenderAllConcat(opening + name, cmt);
    RenderAllConcat(opening + name + cmt, desc);
  }

  /** `writeTrackHeaderEnd`. */
  function TrackHeaderEnd(): seq<Markup>
  {
    [Chars("\t"), Close(RawValue(Trk)), Chars("\n")]
  }

  /** `writeTrackHeaderEnd` writes the tab-indented end tag of `trk` on its own line, closing the open track. */
  lemma TrackHeaderEndLine()
    ensures RenderAll(TrackHeaderEnd()) == "\t</trk>\n"
    ensures Unclosed(TrackHeaderEnd(), ["trk"]) == Some([])
  {
    ClosingLineText("\t", RawValue(Trk));
    ClosingLine("\t", RawValue(Trk));
  }

  /** `writeTrackSegmentHeader`. */
  function TrackSegmentHeader(): seq<Markup>
  {
    [Chars("\t\t"), Open(RawValue(Trkseg), []), Chars("\n")]
  }

  /** `writeTrackSegmentHeader` writes the start tag of `trkseg`, two tabs deep, leaving it open. */
  lemma TrackSegmentHeaderLine()
    ensures RenderAll(TrackSegmentHeader()) == "\t\t<trkseg>\n"
    ensures Unclosed(TrackSegmentHeader(), []) == Some(["trkseg"])
  {
    OpeningLineText("\t\t", RawValue(Trkseg));
    OpeningLine("\t\t", RawValue(Trkseg), []);
  }

  /** `writeTrackSegmentHeaderEnd`. */
  function TrackSegmentHeaderEnd(): seq<Markup>
  {
    [Chars("\t\t"), Close(RawValue(Trkseg)), Chars("\n")]
  }

  /** `writeTrackSegmentHeaderEnd` writes the end tag of `trkseg`, two tabs deep, closing the open segment. */
  lemma TrackSegmentHeaderEndLine()
    ensures RenderAll(TrackSegmentHeaderEnd()) == "\t\t</trkseg>\n"
    ensures Unclosed(TrackSegmentHeaderEnd(), ["trkseg"]) == Some([])
  {
    ClosingLineText("\t\t", RawValue(Trkseg));
    ClosingLine("\t\t", RawValue(Trkseg));
  }

  /** `writeRouteHeader`: opens `rte`, then the name, cmt and desc lines of those present. */
  function RouteHeader(r: Route): seq<Markup>
  {
    [Chars("\t"), Open(RawValue(Rte), []), Chars("\n")]
    + OptionalLeaf("\t\t", Name, r.name)
    + OptionalLeaf("\t\t", Cmt, r.comment)
    + OptionalLeaf("\t\t", Desc, r.description)
  }

  /** A route header without name, cmt or desc is the opening line alone; it always leaves `rte` open. */
  lemma RouteHeaderShape(r: Route)
    ensures var ms := RouteHeader(r);
      |ms| >= 3 && ms[..3] == [Chars("\t"), Open(RawValue(Rte), []), Chars("\n")] &&
      (r.name == None && r.comment == None && r.description == None ==> |ms| == 3) &&
      Unclosed(ms, []) == Some([RawValue(Rte)])
  {
    var opening := [Chars("\t"), Open(RawValue(Rte), []), Chars("\n")];
    var name := OptionalLeaf("\t\t", Name, r.name);
    var cmt := OptionalLeaf("\t\t", Cmt, r.comment);
    var desc := OptionalLeaf("\t\t", Desc, r.description);
    OptionalLeafBalanced("\t\t", Name, r.name);
    OptionalLeafBalanced("\t\t", Cmt, r.comment);
    OptionalLeafBalanced("\t\t", Desc, r.description);
    BalancedConcat(name, cmt);
    BalancedConcat(name + cmt, desc);
    OpeningLine("\t", RawValue(Rte), []);
    OpenedWith(opening, name + cmt + desc, RawValue(Rte));
    assert opening + name + cmt + desc == opening + (name + cmt + desc);
  }

  /** The text `writeRouteHeader` builds: the `rte` line, then the name, cmt and desc lines of those present. */
  lemma RouteHeaderText(r: Route)
    ensures RenderAll(RouteHeader(r))
         == "\t" + "<" + RawValue(Rte) + ">" + "\n"
            + OptionalTextLine("\t\t", RawValue(Name), r.name)
            + OptionalTextLine("\t\t", RawValue(Cmt), r.comment)
            + OptionalTextLine("\t\t", RawValue(Desc), r.description)
  {
    var opening := [Chars("\t"), Open(RawValue(Rte), []), Chars("\n")];
    var name := OptionalLeaf("\t\t", Name, r.name);
    var cmt := OptionalLeaf("\t\t", Cmt, r.comment);
    var desc := OptionalLeaf("\t\t", Desc, r.description);
    OpeningLineText("\t", RawValue(Rte));
    OptionalLeafText("\t\t", Name, r.name);
    OptionalLeafText("\t\t", Cmt, r.comment);
    OptionalLeafText("\t\t", Desc, r.description);
    RenderAllConcat(opening, name);
    RenderAllConcat(opening + name, cmt);
    RenderAllConcat(opening + name + cmt, desc);
  }

  /** `writeRouteHeaderEnd`. */
  function RouteHeaderEnd(): seq<Markup>
  {
    [Chars("\t"), Close(RawValue(Rte)), Chars("\n")]
  }

  /** `writeRouteHeaderEnd` writes the tab-indented end tag of `rte` on its own line, closing the open route. */
  lemma RouteHeaderEndLine()
    ensures RenderAll(RouteHeaderEnd()) == "\t</rte>\n"
    ensures Unclosed(RouteHeaderEnd(), ["rte"]) == Some([])
  {
    ClosingLineText("\t", RawValue(Rte));
    ClosingLine("\t", RawValue(Rte));
  }

  /** One `trkseg` block: its header, one `trkpt` per point in order, its end. */
  function SegmentMarkup(s: TrackSegment, enc: Encoders): seq<Markup>
  {
    TrackSegmentHeader() + PointsMarkup(s.points, Trkpt, enc) + TrackSegmentHeaderEnd()
  }

  function SegmentsMarkup(segments: seq<TrackSegment>, enc: Encoders): seq<Markup>
  {
    if segments == [] then []
    else SegmentsMarkup(segments[..|segments| - 1], enc) + SegmentMarkup(segments[|segments| - 1], enc)
  }

  /** One `trk` element: its header, one `trkseg` block per segment in order, its end. */
  function TrackMarkup(t: Track, enc: Encoders): seq<Markup>
  {
    TrackHeader(t) + SegmentsMarkup(t.segments, enc) + TrackHeaderEnd()
  }

  function TracksMarkup(ts: seq<Track>, enc: Encoders): seq<Markup>
  {
    if ts == [] then [] else TracksMarkup(ts[..|ts| - 1], enc) + TrackMarkup(ts[|ts| - 1], enc)
  }

  /** One `rte` element: its header, one `rtept` per point in order, its end. */
  function RouteMarkup(r: Route, enc: Encoders): seq<Markup>
  {
    RouteHeader(r) + PointsMarkup(r.points, Rtept, enc) + RouteHeaderEnd()
  }

  function RoutesMarkup(rs: seq<Route>, enc: Encoders): seq<Markup>
  {
    if rs == [] then [] else RoutesMarkup(rs[..|rs| - 1], enc) + RouteMarkup(rs[|rs| - 1], enc)
  }

  /**
   * The body of the document: the waypoints if they are present (even when empty), else the routes if
   * present, else the tracks. At most one collection is ever written.
   */
  function Body(g: GPX, enc: Encoders): seq<Markup>
  {
    if g.waypoints.Some? then PointsMarkup(g.waypoints.value, Wpt, enc)
    else if g.routes.Some? then RoutesMarkup(g.routes.value, enc)
    else if g.tracks.Some? then TracksMarkup(g.tracks.value, enc)
    else []
  }

  // ---------------------------------------------------------------------------------------------
  // The document text

  const XMLHeader: string := "<?xml version=\"1.0\" encoding=\"UTF-8\"?>\n"

  const SchemaLocation: string := "http://www.topografix.com/GPX/1/1 http://www.topografix.com/GPX/1/1/gpx.xsd"

  function VersionLine(version: string): string
  {
    "<" + RawValue(Gpx) + " version=\"" + version + "\"\n"
  }

  function CreatorLine(creator: string): string
  {
    "\tcreator=\"" + creator + "\"\n"
  }

  function SchemaLine(): string
  {
    "\txsi:schemaLocation=\"" + SchemaLocation + "\">\n"
  }

  /** `writeGPXHeader`: the opening root tag, one attribute per line. */
  function GPXHeader(version: string, creator: Option<string>): string
  {
    VersionLine(version) + (if creator.Some? then CreatorLine(creator.value) else "") + SchemaLine()
  }

  /**
   * The root tag opens with the version; the creator attribute has a line of its own exactly when there
   * is a creator; the schema location always ends the tag.
   */
  lemma GPXHeaderLines(version: string, creator: Option<string>)
    ensures var s := GPXHeader(version, creator);
      |s| >= |VersionLine(version)| + |SchemaLine()| &&
      s[..|VersionLine(version)|] == VersionLine(version) &&
      s[|s| - |SchemaLine()|..] == SchemaLine() &&
      (creator.None? ==> |s| == |VersionLine(version)| + |SchemaLine()|) &&
      (creator.Some? ==> s[|VersionLine(version)|..|s| - |SchemaLine()|] == CreatorLine(creator.value))
  {
    Pieces(VersionLine(version), if creator.Some? then CreatorLine(creator.value) else "", SchemaLine());
  }

  /** A string made of three pieces can be cut back into them. */
  lemma Pieces(a: string, b: string, c: string)
    ensures var s := a + b + c;
      s[..|a|] == a && s[|s| - |c|..] == c && s[|a|..|s| - |c|] == b
  {
  }

  /** `writeGPXHeaderEnd`: the closing root tag, with no newline after it. */
  function GPXHeaderEnd(): string
  {
    "</" + RawValue(Gpx) + ">"
  }

  /** Everything `write(to:completion:)` writes, in order. */
  function Document(g: GPX, enc: Encoders): string
  {
    XMLHeader + GPXHeader(g.version, g.creator) + RenderAll(Body(g, enc)) + GPXHeaderEnd()
  }

  /** The document starts with the XML declaration followed by the root tag and its version, and ends with the closing root tag. */
  lemma DocumentFrame(g: GPX, enc: Encoders)
    ensures var text := Document(g, enc);
      |text| >= |XMLHeader| + |VersionLine(g.version)| + 6 &&
      text[..|XMLHeader|] == XMLHeader &&
      text[|XMLHeader|..|XMLHeader| + |VersionLine(g.version)|] == VersionLine(g.version) &&
      text[|text| - 6..] == "</gpx>"
  {
    GPXHeaderLines(g.version, g.creator);
    assert GPXHeaderEnd() == "</gpx>";
    Framed(XMLHeader, GPXHeader(g.version, g.creator), RenderAll(Body(g, enc)), GPXHeaderEnd(), VersionLine(g.version));
  }

  /** Text between a fixed prolog and a fixed epilog keeps its own beginning. */
  lemma Framed(prolog: string, header: string, body: string, epilog: string, line: string)
    requires |line| <= |header| && header[..|line|] == line
    ensures var text := prolog + header + body + epilog;
      |text| >= |prolog| + |line| + |epilog| &&
      text[..|prolog|] == prolog &&
      text[|prolog|..|prolog| + |line|] == line &&
      text[|text| - |epilog|..] == epilog
  {
    var text := prolog + header + body + epilog;
    assert text == prolog + (header + body + epilog);
    assert text[|prolog|..] == header + body + epilog;
    assert (header + body + epilog)[..|line|] == line;
  }

  /** Every point list, route list, track list and segment list is written as balanced markup. */
  lemma {:induction false} SegmentsBalanced(segments: seq<TrackSegment>, enc: Encoders)
    ensures Balanced(SegmentsMarkup(segments, enc))
  {
    if segments != [] {
      var s := segments[|segments| - 1];
      SegmentsBalanced(segments[..|segments| - 1], enc);
      PointsBalanced(s.points, Trkpt, enc);
      OpeningLine("\t\t", RawValue(Trkseg), []);
      OpenedWith(TrackSegmentHeader(), PointsMarkup(s.points, Trkpt, enc), RawValue(Trkseg));
      ClosingLine("\t\t", RawValue(Trkseg));
      ClosedWith(TrackSegmentHeader() + PointsMarkup(s.points, Trkpt, enc), TrackSegmentHeaderEnd(), RawValue(Trkseg));
      BalancedConcat(SegmentsMarkup(segments[..|segments| - 1], enc), SegmentMarkup(s, enc));
    }
  }

  lemma TrackBalanced(t: Track, enc: Encoders)
    ensures Balanced(TrackMarkup(t, enc))
  {
    TrackHeaderShape(t);
    SegmentsBalanced(t.segments, enc);
    OpenedWith(TrackHeader(t), SegmentsMarkup(t.segments, enc), RawValue(Trk));
    ClosingLine("\t", RawValue(Trk));
    ClosedWith(TrackHeader(t) + SegmentsMarkup(t.segments, enc), TrackHeaderEnd(), RawValue(Trk));
  }

  lemma RouteBalanced(r: Route, enc: Encoders)
    ensures Balanced(RouteMarkup(r, enc))
  {
    RouteHeaderShape(r);
    PointsBalanced(r.points, Rtept, enc);
    OpenedWith(RouteHeader(r), PointsMarkup(r.points, Rtept, enc), RawValue(Rte));
    ClosingLine("\t", RawValue(Rte));
    ClosedWith(RouteHeader(r) + PointsMarkup(r.points, Rtept, enc), RouteHeaderEnd(), RawValue(Rte));
  }

  lemma {:induction false} TracksBalanced(ts: seq<Track>, enc: Encoders)
    ensures Balanced(TracksMarkup(ts, enc))
  {
    if ts != [] {
      TracksBalanced(ts[..|ts| - 1], enc);
      TrackBalanced(ts[|ts| - 1], enc);
      BalancedConcat(TracksMarkup(ts[..|ts| - 1], enc), TrackMarkup(ts[|ts| - 1], enc));
    }
  }

  lemma {:induction false} RoutesBalanced(rs: seq<Route>, enc: Encoders)
    ensures Balanced(RoutesMarkup(rs, enc))
  {
    if rs != [] {
      RoutesBalanced(rs[..|rs| - 1], enc);
      RouteBalanced(rs[|rs| - 1], enc);
      BalancedConcat(RoutesMarkup(rs[..|rs| - 1], enc), RouteMarkup(rs[|rs| - 1], enc));
    }
  }

  /** Whatever the document holds, the body between the root tags is balanced. */
  lemma BodyBalanced(g: GPX, enc: Encoders)
    ensures Balanced(Body(g, enc))
  {
    if g.waypoints.Some? {
      PointsBalanced(g.waypoints.value, Wpt, enc);
    } else if g.routes.Some? {
      RoutesBalanced(g.routes.value, enc);
    } else if g.tracks.Some? {
      TracksBalanced(g.tracks.value, enc);
    }
  }

  // ---------------------------------------------------------------------------------------------
  // Writing

  lemma PointsStep(ps: seq<Waypoint>, i: int, key: PointKey, enc: Encoders)
    requires 0 <= i < |ps|
    ensures PointsMarkup(ps[..i + 1], key, enc) == PointsMarkup(ps[..i], key, enc) + PointElement(ps[i], key, enc)
  {
    assert ps[..i + 1][..i] == ps[..i];
  }

  lemma SegmentsStep(segments: seq<TrackSegment>, i: int, enc: Encoders)
    requires 0 <= i < |segments|
    ensures SegmentsMarkup(segments[..i + 1], enc) == SegmentsMarkup(segments[..i], enc) + SegmentMarkup(segments[i], enc)
  {
    assert segments[..i + 1][..i] == segments[..i];
  }

  lemma TracksStep(ts: seq<Track>, i: int, enc: Encoders)
    requires 0 <= i < |ts|
    ensures TracksMarkup(ts[..i + 1], enc) == TracksMarkup(ts[..i], enc) + TrackMarkup(ts[i], enc)
  {
    assert ts[..i + 1][..i] == ts[..i];
  }

  lemma RoutesStep(rs: seq<Route>, i: int, enc: Encoders)
    requires 0 <= i < |rs|
    ensures RoutesMarkup(rs[..i + 1], enc) == RoutesMarkup(rs[..i], enc) + RouteMarkup(rs[i], enc)
  {
    assert rs[..i + 1][..i] == rs[..i];
  }

  /** One point after the other, each through `writePoint`; the text of the point list. */
  method WritePoints(points: seq<Waypoint>, key: PointKey, enc: Encoders) returns (text: string)
    ensures text == RenderAll(PointsMarkup(points, key, enc))
  {
    text := "";
    var i := 0;
    while i < |points|
      invariant 0 <= i <= |points|
      invariant text == RenderAll(PointsMarkup(points[..i], key, enc))
    {
      var point := WritePoint(points[i], key, enc).value;
      PointsStep(points, i, key, enc);
      RenderAllConcat(PointsMarkup(points[..i], key, enc), point);
      text := text + RenderAll(point);
      i := i + 1;
    }
    assert points[..i] == points;
  }

  /** The closure `write(to:completion:)` runs for each route. */
  method WriteRoute(route: Route, enc: Encoders) returns (text: string)
    ensures text == RenderAll(RouteMarkup(route, enc))
  {
    text := RenderAll(RouteHeader(route));
    var points := WritePoints(route.points, Rtept, enc);
    text := text + points;
    text := text + RenderAll(RouteHeaderEnd());
    RenderAllConcat(RouteHeader(route), PointsMarkup(route.points, Rtept, enc));
    RenderAllConcat(RouteHeader(route) + PointsMarkup(route.points, Rtept, enc), RouteHeaderEnd());
  }

  /** The closure run for each segment of a track. */
  method WriteSegment(segment: TrackSegment, enc: Encoders) returns (text: string)
    ensures text == RenderAll(SegmentMarkup(segment, enc))
  {
    text := RenderAll(TrackSegmentHeader());
    var points := WritePoints(segment.points, Trkpt, enc);
    text := text + points;
    text := text + RenderAll(TrackSegmentHeaderEnd());
    RenderAllConcat(TrackSegmentHeader(), PointsMarkup(segment.points, Trkpt, enc));
    RenderAllConcat(TrackSegmentHeader() + PointsMarkup(segment.points, Trkpt, enc), TrackSegmentHeaderEnd());
  }

  /** The inner `forEach` over the segments of a track. */
  method WriteSegments(segments: seq<TrackSegment>, enc: Encoders) returns (text: string)
    ensures text == RenderAll(SegmentsMarkup(segments, enc))
  {
    text := "";
    var j := 0;
    while j < |segments|
      invariant 0 <= j <= |segments|
      invariant text == RenderAll(SegmentsMarkup(segments[..j], enc))
    {
      var segment := WriteSegment(segments[j], enc);
      SegmentsStep(segments, j, enc);
      RenderAllConcat(SegmentsMarkup(segments[..j], enc), SegmentMarkup(segments[j], enc));
      text := text + segment;
      j := j + 1;
    }
    assert segments[..j] == segments;
  }

  /** The closure run for each track. */
  method WriteTrack(track: Track, enc: Encoders) returns (text: string)
    ensures text == RenderAll(TrackMarkup(track, enc))
  {
    text := RenderAll(TrackHeader(track));
    var segments := WriteSegments(track.segments, enc);
    text := text + segments;
    text := text + RenderAll(TrackHeaderEnd());
    RenderAllConcat(TrackHeader(track), SegmentsMarkup(track.segments, enc));
    RenderAllConcat(TrackHeader(track) + SegmentsMarkup(track.segments, enc), TrackHeaderEnd());
  }

  /**
   * `write(to:completion:)`, from the XML declaration to the closing root tag, with the file replaced
   * by the text written so far. It writes exactly the document: in particular `writePoint` never
   * fails here, because the writer only ever asks it for `wpt`, `rtept` and `trkpt`.
   */
  method Write(g: GPX, enc: Encoders) returns (text: string)
    ensures text == Document(g, enc)
  {
    text := XMLHeader;
    text := text + GPXHeader(g.version, g.creator);
    var body := "";
    if g.waypoints.Some? {
      body := WritePoints(g.waypoints.value, Wpt, enc);
    } else if g.routes.Some? {
      body := WriteRoutes(g.routes.value, enc);
    } else if g.tracks.Some? {
      body := WriteTracks(g.tracks.value, enc);
    }
    text := text + body;
    text := text + GPXHeaderEnd();
  }

  /** `routes.forEach`: each route through the route closure, one after the other. */
  method WriteRoutes(routes: seq<Route>, enc: Encoders) returns (text: string)
    ensures text == RenderAll(RoutesMarkup(routes, enc))
  {
    text := "";
    var i := 0;
    while i < |routes|
      invariant 0 <= i <= |routes|
      invariant text == RenderAll(RoutesMarkup(routes[..i], enc))
    {
      var route := WriteRoute(routes[i], enc);
      RoutesStep(routes, i, enc);
      RenderAllConcat(RoutesMarkup(routes[..i], enc), RouteMarkup(routes[i], enc));
      text := text + route;
      i := i + 1;
    }
    assert routes[..i] == routes;
  }

  /** `tracks.forEach`: each track through the track closure, one after the other. */
  method WriteTracks(tracks: seq<Track>, enc: Encoders) returns (text: string)
    ensures text == RenderAll(TracksMarkup(tracks, enc))
  {
    text := "";
    var i := 0;
    while i < |tracks|
      invariant 0 <= i <= |tracks|
      invariant text == RenderAll(TracksMarkup(tracks[..i], enc))
    {
      var track := WriteTrack(tracks[i], enc);
      TracksStep(tracks, i, enc);
      RenderAllConcat(TracksMarkup(tracks[..i], enc), TrackMarkup(tracks[i], enc));
      text := text + track;
      i := i + 1;
    }
    assert tracks[..i] == tracks;
  }
}
