/** What the two AVWX weather routes (app/api/avwx/taf/route.ts for TAF and
    app/api/route-weather/route.ts for METAR) have in common: the `points`
    parameter, the nearest-station search, the fallback decision tree, the
    per-point enroute results and the `GET` handler. The two routes differ in
    the product they ask for and in whether a direct report's `station` is
    overwritten; `Product` says which. Every AVWX request is an oracle from the
    request to the JSON it resolves to or the exception it throws (`fetchAvwxJson`
    throws on a non-OK status). */
module AvwxWeather {
  import opened Wrappers
  import opened Js
  import opened JsText
  import opened Http

  datatype Product = Taf | Metar

  function ProductName(product: Product): string {
    match product
    case Taf => "TAF"
    case Metar => "METAR"
  }

  /** `/station/<icao>`, `/<product>/<icao>` and `/station/near/<lat>,<lon>`. */
  datatype AvwxRequest = StationInfo(icao: string) | Report(icao: string) | NearStation(lat: Value, lon: Value)

  type AvwxFetch = AvwxRequest -> Result<Value>

  datatype CoordinatePoint = CoordinatePoint(lat: Value, lon: Value)

  /** `calculateRoutePoints(depLat, depLon, arrLat, arrLon, n)`, left uninterpreted. */
  type RoutePlanner = (Value, Value, Value, Value, int) -> seq<CoordinatePoint>

  /** `Math.min(5, Math.max(1, n))` */
  function ClampPoints(n: int): int {
    if n < 1 then 1 else if n > 5 then 5 else n
  }

  /** The number of enroute points asked for: 3 unless `points` is given and
      starts with an integer, which is then clamped into 1..5. */
  function NumPointsOf(pointsParam: Option<string>): int {
    if pointsParam.Some? && pointsParam.value != "" && ParseInt(pointsParam.value).Some? then
      ClampPoints(ParseInt(pointsParam.value).value)
    else 3
  }

  /** The `let numPoints` of `GET`, reassigned while the parameter is parsed. */
  method ParseNumPoints(pointsParam: Option<string>) returns (numPoints: int)
    ensures numPoints == NumPointsOf(pointsParam)
  {
    numPoints := 3;
    if pointsParam.Some? && pointsParam.value != "" {
      var parsed := ParseInt(pointsParam.value);
      if parsed.Some? {
        numPoints := ClampPoints(parsed.value);
      }
    }
  }

  /** The count is always within 1..5; a missing, empty or unparsable parameter
      gives 3, and a parsed value inside 1..5 is kept. */
  lemma NumPointsSpec(pointsParam: Option<string>)
    ensures 1 <= NumPointsOf(pointsParam) <= 5
    ensures pointsParam.None? || pointsParam.value == "" || ParseInt(pointsParam.value).None? ==>
      NumPointsOf(pointsParam) == 3
    ensures pointsParam.Some? && ParseInt(pointsParam.value).Some? && 1 <= ParseInt(pointsParam.value).value <= 5 ==>
      NumPointsOf(pointsParam) == ParseInt(pointsParam.value).value
  {
  }

  /** The text of an integer parameter is read, then clamped. */
  lemma NumPointsOfInteger(n: int)
    ensures NumPointsOf(Some(IntToString(n))) == ClampPoints(n)
    ensures n < 1 ==> NumPointsOf(Some(IntToString(n))) == 1
    ensures n > 5 ==> NumPointsOf(Some(IntToString(n))) == 5
  {
    ParseIntOfIntToString(n);
  }

  /** `searchParams.get(key)?.toUpperCase() || ''`: the station code is in
      upper case, and empty exactly when the parameter is absent or empty. */
  function StationParam(query: Query, key: string): (icao: string)
    ensures key !in query ==> icao == ""
    ensures key in query ==> icao == ToUpper(query[key])
    ensures icao == "" <==> key !in query || query[key] == ""
  {
    if key in query then ToUpper(query[key]) else ""
  }

  /** Upper-casing the station code again changes nothing. */
  lemma StationParamIsUpper(query: Query, key: string)
    ensures ToUpper(StationParam(query, key)) == StationParam(query, key)
  {
    if key in query {
      ToUpperIdempotent(query[key]);
    }
  }

  /** `station?.latitude && station?.longitude` */
  predicate HasCoordinates(station: Value) {
    Truthy(Field(station, "latitude")) && Truthy(Field(station, "longitude"))
  }

  /** `getNearestStation(lat, lon)`: the ICAO code of the first station the
      search lists, or none. Its own failures, including a null first entry,
      are caught and give none. */
  function NearestStation(lat: Value, lon: Value, fetch: AvwxFetch): (r: Option<Value>)
    ensures r.Some? ==> Truthy(r.value)
    ensures fetch(NearStation(lat, lon)).Err? ==> r.None?
  {
    match fetch(NearStation(lat, lon))
    case Err(_) => None
    case Ok(stations) =>
      if stations.Arr? && |stations.elems| > 0 && !Nullish(stations.elems[0]) then
        var icao := Field(Field(stations.elems[0], "station"), "icao");
        if Truthy(icao) then Some(icao) else None
      else None
  }

  /** `{ ...report, ...overrides }` */
  function Spread(report: Value, overrides: map<string, Value>): (r: Value)
    ensures forall key | key in overrides :: Field(r, key) == overrides[key]
    ensures forall key | key !in overrides :: Field(r, key) == Field(report, key)
  {
    Obj((if report.Obj? then report.fields else map[]) + overrides)
  }

  /** The start of the notes saying that no report is available. */
  function Unavailable(product: Product): string {
    match product
    case Taf => "No TAF available for "
    case Metar => "No METAR available for "
  }

  /** The result when no nearby station reports. */
  function NoReport(product: Product, icao: string): Value {
    Obj(map[
      "raw" := Str(Unavailable(product) + icao + " or nearby stations"),
      "station" := Str(icao),
      "isFallback" := Bool(true)])
  }

  /** The prefix of the text reporting a failure of the fallback path. */
  function FailurePrefix(product: Product, icao: string): string {
    Unavailable(product) + icao + ". Error: "
  }

  /** The result when the fallback path throws. */
  function FailedReport(product: Product, icao: string, e: Exception): (r: Value)
    ensures Field(r, "station") == Str(icao) && Field(r, "isFallback") == Bool(true)
    ensures Field(r, "raw") == Str(FailurePrefix(product, icao) + MessageOr(e, "Unknown error"))
  {
    Obj(map[
      "raw" := Str(FailurePrefix(product, icao) + MessageOr(e, "Unknown error")),
      "station" := Str(icao),
      "isFallback" := Bool(true)])
  }

  /** The direct report has a truthy `raw`. */
  predicate DirectAvailable(icao: string, fetch: AvwxFetch) {
    fetch(Report(icao)).Ok? && Truthy(Field(fetch(Report(icao)).value, "raw"))
  }

  /** The fields the direct report gets: TAF also overwrites `station`. */
  function DirectOverrides(product: Product, icao: string): map<string, Value> {
    match product
    case Taf => map["isFallback" := Bool(false), "station" := Str(icao)]
    case Metar => map["isFallback" := Bool(false)]
  }

  /** `fetchTafWithNearestFallback` / `fetchMetarWithNearestFallback`: the
      direct report, otherwise that of the station nearest to `icao`;
      `stationInfo` is fetched again when falsy. Nothing it does throws. */
  function WithNearestFallback(product: Product, icao: string, stationInfo: Value, fetch: AvwxFetch): Value {
    if DirectAvailable(icao, fetch) then Spread(fetch(Report(icao)).value, DirectOverrides(product, icao))
    else NearestFallback(product, icao, stationInfo, fetch)
  }

  /** The inner `try` of the fallback. */
  function NearestFallback(product: Product, icao: string, stationInfo: Value, fetch: AvwxFetch): Value {
    var info := if Truthy(stationInfo) then Ok(stationInfo) else fetch(StationInfo(icao));
    match info
    case Err(e) => FailedReport(product, icao, e)
    case Ok(info) =>
      if !HasCoordinates(info) then FailedReport(product, icao, Throw("No coordinates for " + icao))
      else
        match NearestStation(Field(info, "latitude"), Field(info, "longitude"), fetch)
        case None => NoReport(product, icao)
        case Some(nearest) =>
          match fetch(Report(ValueToString(nearest)))
          case Err(e) => FailedReport(product, icao, e)
          case Ok(report) =>
            if Truthy(Field(report, "raw")) then
              Spread(report, map["isFallback" := Bool(true), "fallbackFor" := Str(icao), "station" := nearest])
            else
              FailedReport(product, icao,
                Throw("No " + ProductName(product) + " for nearest station " + ValueToString(nearest)))
  }

  /** Every result of the fallback tree is one of four kinds: the direct report
      (not a fallback), a nearby station's report (a fallback for `icao`, naming
      the station used), the "no nearby stations" note, or a failure note; the
      last two name `icao` as the station. */
  lemma FallbackOutcomes(product: Product, icao: string, stationInfo: Value, fetch: AvwxFetch)
    ensures var r := WithNearestFallback(product, icao, stationInfo, fetch);
      || (DirectAvailable(icao, fetch) && Field(r, "isFallback") == Bool(false))
      || (!DirectAvailable(icao, fetch) && Field(r, "isFallback") == Bool(true)
          && Field(r, "fallbackFor") == Str(icao) && Truthy(Field(r, "station")) && Truthy(Field(r, "raw")))
      || (!DirectAvailable(icao, fetch) && r == NoReport(product, icao))
      || (!DirectAvailable(icao, fetch) && Field(r, "isFallback") == Bool(true) && Field(r, "station") == Str(icao)
          && exists m: string :: Field(r, "raw") == Str(FailurePrefix(product, icao) + m))
  {
    var r := WithNearestFallback(product, icao, stationInfo, fetch);
    if !DirectAvailable(icao, fetch) {
      NearestFallbackOutcomes(product, icao, stationInfo, fetch);
      if exists e :: r == FailedReport(product, icao, e) {
        var e :| r == FailedReport(product, icao, e);
        FailureNote(product, icao, e);
      }
    }
  }

  /** A failure note is a fallback for `icao`, names `icao` as the station and
      explains the failure after a fixed prefix. */
  lemma FailureNote(product: Product, icao: string, e: Exception)
    ensures var r := FailedReport(product, icao, e);
      && Field(r, "isFallback") == Bool(true) && Field(r, "station") == Str(icao)
      && exists m: string :: Field(r, "raw") == Str(FailurePrefix(product, icao) + m)
  {
    var m := MessageOr(e, "Unknown error");
    assert Field(FailedReport(product, icao, e), "raw") == Str(FailurePrefix(product, icao) + m);
  }

  /** A nearby station's report is marked as a fallback for `icao` and names
      that station; its `raw` is the station's own. */
  lemma FallbackReport(report: Value, icao: string, nearest: Value)
    ensures var r := Spread(report, map["isFallback" := Bool(true), "fallbackFor" := Str(icao), "station" := nearest]);
      && Field(r, "isFallback") == Bool(true) && Field(r, "fallbackFor") == Str(icao)
      && Field(r, "station") == nearest && Field(r, "raw") == Field(report, "raw")
  {
    var overrides := map["isFallback" := Bool(true), "fallbackFor" := Str(icao), "station" := nearest];
    assert "raw" !in overrides;
  }

  /** The inner `try` ends in a nearby station's report, the "no nearby
      stations" note or the failure note of some exception. */
  lemma NearestFallbackOutcomes(product: Product, icao: string, stationInfo: Value, fetch: AvwxFetch)
    ensures var r := NearestFallback(product, icao, stationInfo, fetch);
      || (Field(r, "isFallback") == Bool(true) && Field(r, "fallbackFor") == Str(icao)
          && Truthy(Field(r, "station")) && Truthy(Field(r, "raw")))
      || r == NoReport(product, icao)
      || exists e :: r == FailedReport(product, icao, e)
  {
    var r := NearestFallback(product, icao, stationInfo, fetch);
    var info := if Truthy(stationInfo) then Ok(stationInfo) else fetch(StationInfo(icao));
    if info.Err? {
      assert r == FailedReport(product, icao, info.error);
    } else if !HasCoordinates(info.value) {
      assert r == FailedReport(product, icao, Throw("No coordinates for " + icao));
    } else {
      var nearest := NearestStation(Field(info.value, "latitude"), Field(info.value, "longitude"), fetch);
      if nearest.Some? {
        var report := fetch(Report(ValueToString(nearest.value)));
        if report.Err? {
          assert r == FailedReport(product, icao, report.error);
        } else if Truthy(Field(report.value, "raw")) {
          FallbackReport(report.value, icao, nearest.value);
        } else {
          assert r == FailedReport(product, icao,
            Throw("No " + ProductName(product) + " for nearest station " + ValueToString(nearest.value)));
        }
      }
    }
  }


  /** One entry of `route_weather` for a point whose nearest station answered
      with a report: TAF keeps `raw` and `forecast`, METAR only `raw`. */
  function ReportEntry(product: Product, point: CoordinatePoint, station: Value, report: Value): Value {
    match product
    case Taf =>
      Obj(map["lat" := point.lat, "lon" := point.lon, "station" := station,
        "taf" := Obj(map["raw" := Field(report, "raw"), "forecast" := Field(report, "forecast")])])
    case Metar =>
      Obj(map["lat" := point.lat, "lon" := point.lon, "station" := station, "metar" := Field(report, "raw")])
  }

  /** The body of the loop of `fetchEnrouteWeather` for one point. */
  function EnrouteResult(product: Product, point: CoordinatePoint, fetch: AvwxFetch): Value {
    match NearestStation(point.lat, point.lon, fetch)
    case None => Obj(map["lat" := point.lat, "lon" := point.lon, "error" := Str("No nearby reporting station")])
    case Some(station) =>
      match fetch(Report(ValueToString(station)))
      case Err(e) =>
        Obj(map["lat" := point.lat, "lon" := point.lon,
          "error" := Str("Weather fetch error: " + MessageOr(e, "Unknown error"))])
      case Ok(report) =>
        if Truthy(Field(report, "raw")) then ReportEntry(product, point, station, report)
        else Obj(map["lat" := point.lat, "lon" := point.lon, "station" := station,
          "error" := Str("No " + ProductName(product) + " available for station")])
  }

  /** What every entry of `route_weather` satisfies: it carries its point's
      coordinates, and either names a station or explains in `error` why there
      is no report; an entry has a report exactly when it has no `error`. */
  predicate EntryShape(product: Product, point: CoordinatePoint, r: Value) {
    && Field(r, "lat") == point.lat && Field(r, "lon") == point.lon
    && (Truthy(Field(r, "error")) || Truthy(Field(r, "station")))
    && (Field(r, "error") == Undefined <==> Field(r, ReportKey(product)) != Undefined)
  }

  /** Every point's entry has that shape, whatever the station lookup and the
      report fetch return. */
  lemma EnrouteResultSpec(product: Product, point: CoordinatePoint, fetch: AvwxFetch)
    ensures EntryShape(product, point, EnrouteResult(product, point, fetch))
  {
    var nearest := NearestStation(point.lat, point.lon, fetch);
    if nearest.None? {
      NoStationEntry(product, point, fetch);
    } else {
      var report := fetch(Report(ValueToString(nearest.value)));
      if report.Err? {
        FailedFetchEntry(product, point, fetch);
      } else if Truthy(Field(report.value, "raw")) {
        ReportedEntry(product, point, fetch);
      } else {
        EmptyReportEntry(product, point, fetch);
      }
    }
  }

  /** No station near the point: an `error` and no station. */
  lemma NoStationEntry(product: Product, point: CoordinatePoint, fetch: AvwxFetch)
    requires NearestStation(point.lat, point.lon, fetch).None?
    ensures EntryShape(product, point, EnrouteResult(product, point, fetch))
    ensures Field(EnrouteResult(product, point, fetch), "station") == Undefined
  {
    ReportKeyIsNotAField(product);
  }

  /** The report request threw: an `error` naming the failure. */
  lemma FailedFetchEntry(product: Product, point: CoordinatePoint, fetch: AvwxFetch)
    requires var nearest := NearestStation(point.lat, point.lon, fetch);
      nearest.Some? && fetch(Report(ValueToString(nearest.value))).Err?
    ensures EntryShape(product, point, EnrouteResult(product, point, fetch))
  {
    ReportKeyIsNotAField(product);
  }

  /** The station answered without a `raw` report: the station and an `error`. */
  lemma EmptyReportEntry(product: Product, point: CoordinatePoint, fetch: AvwxFetch)
    requires var nearest := NearestStation(point.lat, point.lon, fetch);
      && nearest.Some? && fetch(Report(ValueToString(nearest.value))).Ok?
      && !Truthy(Field(fetch(Report(ValueToString(nearest.value))).value, "raw"))
    ensures EntryShape(product, point, EnrouteResult(product, point, fetch))
    ensures Field(EnrouteResult(product, point, fetch), "station") == NearestStation(point.lat, point.lon, fetch).value
  {
    ReportKeyIsNotAField(product);
  }

  /** The station answered with a report: the station, the report and no `error`. */
  lemma ReportedEntry(product: Product, point: CoordinatePoint, fetch: AvwxFetch)
    requires var nearest := NearestStation(point.lat, point.lon, fetch);
      && nearest.Some? && fetch(Report(ValueToString(nearest.value))).Ok?
      && Truthy(Field(fetch(Report(ValueToString(nearest.value))).value, "raw"))
    ensures EntryShape(product, point, EnrouteResult(product, point, fetch))
    ensures Field(EnrouteResult(product, point, fetch), "station") == NearestStation(point.lat, point.lon, fetch).value
  {
    var station := NearestStation(point.lat, point.lon, fetch).value;
    ReportEntryFields(product, point, station, fetch(Report(ValueToString(station))).value);
  }

  /** The report key is none of the other keys of a point's entry. */
  lemma ReportKeyIsNotAField(product: Product)
    ensures var key := ReportKey(product);
      key != "lat" && key != "lon" && key != "station" && key != "error"
  {
  }

  /** A point with a report carries its coordinates, its station and the
      report under the product's key, and no error. */
  lemma ReportEntryFields(product: Product, point: CoordinatePoint, station: Value, report: Value)
    requires Truthy(Field(report, "raw"))
    ensures var r := ReportEntry(product, point, station, report);
      && Field(r, "lat") == point.lat && Field(r, "lon") == point.lon && Field(r, "station") == station
      && Field(r, "error") == Undefined && Field(r, ReportKey(product)) != Undefined
  {
  }

  /** The key under which a point's report is stored. */
  function ReportKey(product: Product): string {
    match product
    case Taf => "taf"
    case Metar => "metar"
  }

  /** `fetchEnrouteWeather(points)`: one result per point, in order. */
  method FetchEnrouteWeather(product: Product, points: seq<CoordinatePoint>, fetch: AvwxFetch)
    returns (results: seq<Value>)
    ensures |results| == |points|
    ensures forall i | 0 <= i < |points| :: results[i] == EnrouteResult(product, points[i], fetch)
  {
    results := [];
    for k := 0 to |points|
      invariant |results| == k
      invariant forall i | 0 <= i < k :: results[i] == EnrouteResult(product, points[i], fetch)
    {
      results := results + [EnrouteResult(product, points[k], fetch)];
    }
  }

  function ErrorBody(message: string): Value {
    Obj(map["error" := Str(message)])
  }

  /** The enroute points: computed only when both stations have coordinates. */
  function EnroutePoints(depStation: Value, arrStation: Value, numPoints: int, plan: RoutePlanner): (r: seq<CoordinatePoint>)
    ensures !HasCoordinates(depStation) || !HasCoordinates(arrStation) ==> r == []
  {
    if HasCoordinates(depStation) && HasCoordinates(arrStation) then
      plan(Field(depStation, "latitude"), Field(depStation, "longitude"),
        Field(arrStation, "latitude"), Field(arrStation, "longitude"), numPoints)
    else []
  }

  /** `GET(request)`. The two station lookups run together; when both fail the
      departure's exception is the one reported. */
  method HandleGet(product: Product, query: Query, fetch: AvwxFetch, plan: RoutePlanner)
    returns (reply: Reply<Value>)
    ensures var dep := StationParam(query, "dep"); var arr := StationParam(query, "arr");
      dep == "" || arr == "" ==> reply == Reply(400, ErrorBody("Missing dep or arr parameter"))
    ensures var dep := StationParam(query, "dep"); var arr := StationParam(query, "arr");
      dep != "" && arr != "" && fetch(StationInfo(dep)).Err? ==>
        reply == Reply(500, ErrorBody("Failed to fetch weather: " + MessageOr(fetch(StationInfo(dep)).error, "Unknown error")))
    ensures var dep := StationParam(query, "dep"); var arr := StationParam(query, "arr");
      dep != "" && arr != "" && fetch(StationInfo(dep)).Ok? && fetch(StationInfo(arr)).Err? ==>
        reply == Reply(500, ErrorBody("Failed to fetch weather: " + MessageOr(fetch(StationInfo(arr)).error, "Unknown error")))
    ensures var dep := StationParam(query, "dep"); var arr := StationParam(query, "arr");
      dep != "" && arr != "" && fetch(StationInfo(dep)).Ok? && fetch(StationInfo(arr)).Ok? ==>
        var depStation := fetch(StationInfo(dep)).value;
        var arrStation := fetch(StationInfo(arr)).value;
        var points := EnroutePoints(depStation, arrStation, NumPointsOf(Param(query, "points")), plan);
        && reply.status == 200
        && Field(Field(reply.body, "departure_arrival_weather"), arr) == WithNearestFallback(product, arr, arrStation, fetch)
        && (dep != arr ==>
              Field(Field(reply.body, "departure_arrival_weather"), dep) == WithNearestFallback(product, dep, depStation, fetch))
        && Field(reply.body, "route_weather").Arr?
        && |Field(reply.body, "route_weather").elems| == |points|
        && forall i | 0 <= i < |points| ::
             Field(reply.body, "route_weather").elems[i] == EnrouteResult(product, points[i], fetch)
  {
    var dep := StationParam(query, "dep");
    var arr := StationParam(query, "arr");
    var numPoints := ParseNumPoints(Param(query, "points"));
    if dep == "" || arr == "" {
      return Reply(400, ErrorBody("Missing dep or arr parameter"));
    }
    var depInfo := fetch(StationInfo(dep));
    var arrInfo := fetch(StationInfo(arr));
    if depInfo.Err? {
      return Reply(500, ErrorBody("Failed to fetch weather: " + MessageOr(depInfo.error, "Unknown error")));
    }
    if arrInfo.Err? {
      return Reply(500, ErrorBody("Failed to fetch weather: " + MessageOr(arrInfo.error, "Unknown error")));
    }
    var enroutePoints := EnroutePoints(depInfo.value, arrInfo.value, numPoints, plan);
    var depReport := WithNearestFallback(product, dep, depInfo.value, fetch);
    var arrReport := WithNearestFallback(product, arr, arrInfo.value, fetch);
    var enrouteWeather := FetchEnrouteWeather(product, enroutePoints, fetch);
    reply := Reply(200, Obj(map[
      "departure_arrival_weather" := Obj(map[dep := depReport][arr := arrReport]),
      "route_weather" := Arr(enrouteWeather)]));
  }
}
