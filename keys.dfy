/** The closed vocabulary of GPX element names (GPXToolKit/GPXKeys.swift). */
module Keys {
  import opened Wrappers

  /** One case per element name the toolkit reads or writes. */
  datatype GPXKey = Gpx | Trk | Trkpt | Trkseg | Wpt | Rte | Rtept | Ele | Time | Desc | Cmt | Name

  /** The raw value of a case: Swift derives it from the case identifier. */
  function RawValue(k: GPXKey): string
  {
    match k
    case Gpx => "gpx"
    case Trk => "trk"
    case Trkpt => "trkpt"
    case Trkseg => "trkseg"
    case Wpt => "wpt"
    case Rte => "rte"
    case Rtept => "rtept"
    case Ele => "ele"
    case Time => "time"
    case Desc => "desc"
    case Cmt => "cmt"
    case Name => "name"
  }

  /** `GPXKey(rawValue:)`: the case whose raw value is `s`, and nothing for any other string. */
  function FromRawValue(s: string): (r: Option<GPXKey>)
    ensures r.Some? ==> RawValue(r.value) == s
    ensures r.None? ==> forall k :: RawValue(k) != s
  {
    if s == "gpx" then Some(Gpx)
    else if s == "trk" then Some(Trk)
    else if s == "trkpt" then Some(Trkpt)
    else if s == "trkseg" then Some(Trkseg)
    else if s == "wpt" then Some(Wpt)
    else if s == "rte" then Some(Rte)
    else if s == "rtept" then Some(Rtept)
    else if s == "ele" then Some(Ele)
    else if s == "time" then Some(Time)
    else if s == "desc" then Some(Desc)
    else if s == "cmt" then Some(Cmt)
    else if s == "name" then Some(Name)
    else None
  }

  /** Distinct cases have distinct raw values, so reading a name back is unambiguous. */
  lemma RawValueInjective(j: GPXKey, k: GPXKey)
    ensures RawValue(j) == RawValue(k) ==> j == k
  {
  }

  /** `GPXKey(rawValue: k.rawValue) == k` for every case. */
  lemma RawValueRoundTrip(k: GPXKey)
    ensures FromRawValue(RawValue(k)) == Some(k)
  {
  }
}
