/**
 * What the proxy handlers exchange with the outside world: response bodies,
 * the replies of the third-party services, the failures a fetch can end in,
 * observation records, and station time zones.
 *
 * Bodies are represented by the value the JSON decoder reads from them: a
 * `DayJson` body is a JSON object whose "observations" member is (or is not)
 * an array, a `WeekJson` body is the array of arrays that json.Marshal writes
 * for the rest-of-the-week history, and so on. A body of any other shape is
 * one the decoder in question rejects. Each element of an observations list
 * is an `Observation` holding every member the handlers read; elements that
 * are not objects, or lack one of those members, are not represented.
 * `Raw` bodies are passed through without being decoded (RSS XML, the
 * sunrise-sunset JSON, error texts).
 */
module Upstream {

  import opened Wrappers

  /** One observation record of the weather-station observations and history endpoints. */
  datatype Observation = Observation(
    epoch: int,                  // Unix seconds
    qcStatus: int,
    tz: string,                  // station time-zone name
    lat: real,
    lon: real,
    obsTimeLocal: int,           // the parsed "obsTimeLocal" stamp, as the browser's Date reads it
    units: map<string, real>,    // the nested unit block ("imperial" or "metric")
    fields: map<string, real>    // numeric members at the top level of the record
  )

  /** The fourteen daily extremes of the /wutoday summary. */
  datatype Extreme =
    | TempHigh | TempLow | WindspeedHigh | WindspeedLow | WindgustHigh | WindgustLow
    | DewptHigh | DewptLow | PressureMax | PressureMin | HumidityHigh | HumidityLow
    | UvHigh | SolarRadiationHigh

  /** The JSON member an extreme is stored and reported under. */
  function ExtremeName(e: Extreme): string {
    match e
    case TempHigh => "tempHigh"
    case TempLow => "tempLow"
    case WindspeedHigh => "windspeedHigh"
    case WindspeedLow => "windspeedLow"
    case WindgustHigh => "windgustHigh"
    case WindgustLow => "windgustLow"
    case DewptHigh => "dewptHigh"
    case DewptLow => "dewptLow"
    case PressureMax => "pressureMax"
    case PressureMin => "pressureMin"
    case HumidityHigh => "humidityHigh"
    case HumidityLow => "humidityLow"
    case UvHigh => "uvHigh"
    case SolarRadiationHigh => "solarRadiationHigh"
  }

  /** The daily summary envelope that the /wutoday endpoint synthesises. */
  datatype Envelope = Envelope(
    stationID: string,
    tz: string,
    epoch: int,
    qcStatus: int,
    lat: real,
    lon: real,
    extremes: map<Extreme, real>
  )

  datatype Body =
    | Raw(text: string)
    | DayJson(observations: Option<seq<Observation>>)
    | WeekJson(days: seq<seq<Observation>>)
    | WeeklyJson(weeklyData: seq<seq<Observation>>)
    | TodayJson(dailyHistory: Envelope, allObservations: seq<Observation>)
    | AstroJson(phaseAngle: Option<string>)
    | MoonJson(phase: string, angle: string)

  /** The reply of one upstream HTTP call: a transport error, or a status with a body that may fail to read. */
  datatype Reply = NetworkError | Response(status: int, body: Option<Body>)

  /** Why a fetch failed. `Panic` stands for a Go run-time panic (failed type assertion, index out of range). */
  datatype Failure =
    | InvalidFeed
    | Transport
    | BadStatus(status: int)
    | ReadFailed
    | BadJson
    | NotASlice
    | BadTimezone
    | BadAngle
    | Panic

  /** A single call's view of the third-party services, keyed by what each request URL encodes. */
  datatype Services = Services(
    wuToday: Reply,                  // 1-day observations, imperial units
    wuTodayMetric: Reply,            // 1-day observations, metric units
    wuHistory: int -> Reply,         // one day of history, by local date (days since 1970-01-01)
    astronomy: (real, real) -> Reply, // moon position for a latitude and longitude, at this call's date and time
    sunriseSunset: (real, real) -> Reply,
    rss: string -> Reply,            // by feed URL
    zones: map<string, int>          // the time-zone database: name to UTC offset in seconds
  )

  const SecondsPerDay: int := 86400

  /** The body of a successful (status 200, readable) reply; otherwise the failure, in the order the handlers test them. */
  function Body200(reply: Reply): (r: Result<Body, Failure>)
    ensures r.Ok? <==> reply.Response? && reply.status == 200 && reply.body.Some?
    ensures r.Ok? ==> r.value == reply.body.value
    ensures reply.NetworkError? ==> r == Err(Transport)
  {
    match reply
    case NetworkError => Err(Transport)
    case Response(status, body) =>
      if status != 200 then Err(BadStatus(status))
      else if body.None? then Err(ReadFailed)
      else Ok(body.value)
  }

  /** Bodies that are JSON objects (as opposed to arrays or non-JSON text). */
  predicate IsJsonObject(b: Body) {
    b.DayJson? || b.WeeklyJson? || b.TodayJson? || b.AstroJson? || b.MoonJson?
  }

  /**
   * json.Unmarshal of a body into a map, then its "observations" member as an
   * array: a decoding error unless the body is a JSON object; None when the
   * member is missing or not an array.
   */
  function DecodeDay(b: Body): (r: Result<Option<seq<Observation>>, Failure>)
    ensures r.Err? <==> !IsJsonObject(b)
    ensures r.Err? ==> r.error == BadJson
    ensures r.Ok? && r.value.Some? <==> b.DayJson? && b.observations.Some?
  {
    if !IsJsonObject(b) then Err(BadJson)
    else if b.DayJson? then Ok(b.observations)
    else Ok(None)
  }

  /** Local calendar day (days since the epoch) of instant `t` in a zone `offset` seconds east of UTC. */
  function LocalDay(t: int, offset: int): int {
    (t + offset) / SecondsPerDay
  }

  /** The first local midnight strictly after instant `t`, as time.Date(y, m, d+1, 0, 0, 0, 0, loc) computes it. */
  function NextMidnight(t: int, offset: int): (m: int)
    ensures t < m <= t + SecondsPerDay
    ensures (m + offset) % SecondsPerDay == 0
    ensures LocalDay(m, offset) == LocalDay(t, offset) + 1
  {
    (LocalDay(t, offset) + 1) * SecondsPerDay - offset
  }
}
