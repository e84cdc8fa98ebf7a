/** The METAR weather route (app/api/route-weather/route.ts), as the METAR
    instance of the shared AVWX route logic. */
module MetarRoute {
  import opened Wrappers
  import opened Js
  import opened JsText
  import opened Http
  import opened AvwxWeather

  /** `fetchMetarWithNearestFallback(icao, stationInfo)` */
  function MetarWithNearestFallback(icao: string, stationInfo: Value, fetch: AvwxFetch): Value {
    WithNearestFallback(Metar, icao, stationInfo, fetch)
  }

  /** A direct METAR with `raw` is returned whole and not as a fallback; unlike
      the TAF route, its own `station` field is kept. */
  lemma DirectMetarKeepsStation(icao: string, stationInfo: Value, fetch: AvwxFetch, key: string)
    requires fetch(Report(icao)).Ok? && Truthy(Field(fetch(Report(icao)).value, "raw"))
    ensures var r := MetarWithNearestFallback(icao, stationInfo, fetch);
      && Field(r, "isFallback") == Bool(false)
      && (key != "isFallback" ==> Field(r, key) == Field(fetch(Report(icao)).value, key))
  {
  }

  /** Without a direct METAR and without a nearby station the answer is the
      "or nearby stations" note for the requested code. */
  lemma NoNearbyMetar(icao: string, stationInfo: Value, fetch: AvwxFetch)
    requires !DirectAvailable(icao, fetch)
    requires Truthy(stationInfo) && HasCoordinates(stationInfo)
    requires NearestStation(Field(stationInfo, "latitude"), Field(stationInfo, "longitude"), fetch).None?
    ensures MetarWithNearestFallback(icao, stationInfo, fetch) == Obj(map[
      "raw" := Str("No METAR available for " + icao + " or nearby stations"),
      "station" := Str(icao),
      "isFallback" := Bool(true)])
  {
    assert MetarWithNearestFallback(icao, stationInfo, fetch) == NoReport(Metar, icao);
  }

  /** A nearby station's METAR with `raw` is returned as a fallback for the
      requested code, naming the nearby station. */
  lemma NearestMetarUsed(icao: string, stationInfo: Value, fetch: AvwxFetch, nearest: Value)
    requires !DirectAvailable(icao, fetch)
    requires Truthy(stationInfo) && HasCoordinates(stationInfo)
    requires NearestStation(Field(stationInfo, "latitude"), Field(stationInfo, "longitude"), fetch) == Some(nearest)
    requires DirectAvailable(ValueToString(nearest), fetch)
    ensures var r := MetarWithNearestFallback(icao, stationInfo, fetch);
      && Field(r, "isFallback") == Bool(true) && Field(r, "fallbackFor") == Str(icao)
      && Field(r, "station") == nearest
      && Field(r, "raw") == Field(fetch(Report(ValueToString(nearest))).value, "raw")
  {
  }

  /** Station information without coordinates, or a failing lookup of it,
      makes the fallback fail with a note naming the requested code. */
  lemma FallbackFailuresReported(icao: string, stationInfo: Value, fetch: AvwxFetch)
    requires !DirectAvailable(icao, fetch)
    requires Truthy(stationInfo) && !HasCoordinates(stationInfo)
    ensures var r := MetarWithNearestFallback(icao, stationInfo, fetch);
      && Field(r, "station") == Str(icao) && Field(r, "isFallback") == Bool(true)
      && Field(r, "raw") == Str("No METAR available for " + icao + ". Error: " + "No coordinates for " + icao)
    ensures fetch(StationInfo(icao)).Err? && fetch(StationInfo(icao)).error.Error? ==>
      var r := MetarWithNearestFallback(icao, Null, fetch);
      && Field(r, "station") == Str(icao) && Field(r, "isFallback") == Bool(true)
      && Field(r, "raw") == Str("No METAR available for " + icao + ". Error: " + fetch(StationInfo(icao)).error.message)
  {
    var e := Throw("No coordinates for " + icao);
    assert MetarWithNearestFallback(icao, stationInfo, fetch) == FailedReport(Metar, icao, e);
    if fetch(StationInfo(icao)).Err? {
      assert MetarWithNearestFallback(icao, Null, fetch) == FailedReport(Metar, icao, fetch(StationInfo(icao)).error);
    }
  }

  /** A point's METAR entry holds the report's `raw` text under `metar`. */
  lemma EnrouteMetarEntry(point: CoordinatePoint, fetch: AvwxFetch, station: Value)
    requires NearestStation(point.lat, point.lon, fetch) == Some(station)
    requires DirectAvailable(ValueToString(station), fetch)
    ensures var r := EnrouteResult(Metar, point, fetch);
      && Field(r, "station") == station && Field(r, "error") == Undefined
      && Field(r, "metar") == Field(fetch(Report(ValueToString(station))).value, "raw")
  {
  }

  /** `GET(request)` of the METAR route: a 400 without both stations, a 500
      with the message of a failed station lookup (the departure's first), and
      otherwise the departure and arrival reports, with their nearest-station
      fallback, and one `route_weather` entry per enroute point. */
  method HandleGet(query: Query, fetch: AvwxFetch, plan: RoutePlanner) returns (reply: Reply<Value>)
    ensures var dep := StationParam(query, "dep"); var arr := StationParam(query, "arr");
      dep == "" || arr == "" ==> reply == Reply(400, ErrorBody("Missing dep or arr parameter"))
    ensures var dep := StationParam(query, "dep"); var arr := StationParam(query, "arr");
      dep != "" && arr != "" && fetch(StationInfo(dep)).Err? ==>
        reply == Reply(500, ErrorBody("Failed to fetch weather: " + MessageOr(fetch(StationInfo(dep)).error, "Unknown error")))
    ensures var dep := StationParam(query, "dep"); var arr := StationParam(query, "arr");
      dep != "" && arr != "" && fetch(StationInfo(dep)).Ok? && fetch(StationInfo(arr)).Err? ==>
        reply == Reply(500, ErrorBody("Failed to fetch weather: " + MessageOr(fetch(StationInfo(arr)).error, "Unknown error")))
    ensures var dep := StationParam(query, "dep"); var arr := StationParam(query, "arr");
      dep != "" && arr != "" && fetch(StationInfo(dep)).Ok? && fetch(StationInfo(arr)).Ok? ==>
        var depStation := fetch(StationInfo(dep)).value;
        var arrStation := fetch(StationInfo(arr)).value;
        var points := EnroutePoints(depStation, arrStation, NumPointsOf(Param(query, "points")), plan);
        && reply.status == 200
        && Field(Field(reply.body, "departure_arrival_weather"), arr) == WithNearestFallback(Metar, arr, arrStation, fetch)
        && (dep != arr ==>
              Field(Field(reply.body, "departure_arrival_weather"), dep) == WithNearestFallback(Metar, dep, depStation, fetch))
        && Field(reply.body, "route_weather").Arr?
        && |Field(reply.body, "route_weather").elems| == |points|
        && forall i | 0 <= i < |points| ::
             Field(reply.body, "route_weather").elems[i] == EnrouteResult(Metar, points[i], fetch)
  {
    reply := AvwxWeather.HandleGet(Metar, query, fetch, plan);
  }
}
