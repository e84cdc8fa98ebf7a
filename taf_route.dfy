/** The TAF weather route (app/api/avwx/taf/route.ts), as the TAF instance of
    the shared AVWX route logic. */
module TafRoute {
  import opened Wrappers
  import opened Js
  import opened JsText
  import opened Http
  import opened AvwxWeather

  /** `fetchTafWithNearestFallback(icao, stationInfo)` */
  function TafWithNearestFallback(icao: string, stationInfo: Value, fetch: AvwxFetch): Value {
    WithNearestFallback(Taf, icao, stationInfo, fetch)
  }

  /** A direct TAF with `raw` is returned whole, not as a fallback, and with
      `station` set to the requested code. */
  lemma DirectTafWins(icao: string, stationInfo: Value, fetch: AvwxFetch, key: string)
    requires fetch(Report(icao)).Ok? && Truthy(Field(fetch(Report(icao)).value, "raw"))
    ensures var r := TafWithNearestFallback(icao, stationInfo, fetch);
      && Field(r, "isFallback") == Bool(false) && Field(r, "station") == Str(icao)
      && (key != "isFallback" && key != "station" ==> Field(r, key) == Field(fetch(Report(icao)).value, key))
  {
  }

  /** Without a direct TAF and without a nearby station the answer is the
      "or nearby stations" note for the requested code. */
  lemma NoNearbyTaf(icao: string, stationInfo: Value, fetch: AvwxFetch)
    requires !DirectAvailable(icao, fetch)
    requires Truthy(stationInfo) && HasCoordinates(stationInfo)
    requires NearestStation(Field(stationInfo, "latitude"), Field(stationInfo, "longitude"), fetch).None?
    ensures TafWithNearestFallback(icao, stationInfo, fetch) == Obj(map[
      "raw" := Str("No TAF available for " + icao + " or nearby stations"),
      "station" := Str(icao),
      "isFallback" := Bool(true)])
  {
    assert TafWithNearestFallback(icao, stationInfo, fetch) == NoReport(Taf, icao);
  }

  /** A nearby station's TAF with `raw` is returned as a fallback for the
      requested code, naming the nearby station. */
  lemma NearestTafUsed(icao: string, stationInfo: Value, fetch: AvwxFetch, nearest: Value)
    requires !DirectAvailable(icao, fetch)
    requires Truthy(stationInfo) && HasCoordinates(stationInfo)
    requires NearestStation(Field(stationInfo, "latitude"), Field(stationInfo, "longitude"), fetch) == Some(nearest)
    requires DirectAvailable(ValueToString(nearest), fetch)
    ensures var r := TafWithNearestFallback(icao, stationInfo, fetch);
      && Field(r, "isFallback") == Bool(true) && Field(r, "fallbackFor") == Str(icao)
      && Field(r, "station") == nearest
      && Field(r, "raw") == Field(fetch(Report(ValueToString(nearest))).value, "raw")
  {
  }

  /** Station information without coordinates makes the fallback fail with a
      note naming the requested code and the reason. */
  lemma MissingCoordinatesReported(icao: string, stationInfo: Value, fetch: AvwxFetch)
    requires !DirectAvailable(icao, fetch)
    requires Truthy(stationInfo) && !HasCoordinates(stationInfo)
    ensures var r := TafWithNearestFallback(icao, stationInfo, fetch);
      && Field(r, "station") == Str(icao) && Field(r, "isFallback") == Bool(true)
      && Field(r, "raw") == Str("No TAF available for " + icao + ". Error: " + "No coordinates for " + icao)
  {
    var e := Throw("No coordinates for " + icao);
    assert TafWithNearestFallback(icao, stationInfo, fetch) == FailedReport(Taf, icao, e);
    var prefix := "No TAF available for " + icao + ". Error: ";
    assert FailurePrefix(Taf, icao) == prefix;
    assert prefix + ("No coordinates for " + icao) == prefix + "No coordinates for " + icao;
  }

  /** A failing lookup of the station information is reported the same way,
      with the exception's message. */
  lemma StationLookupFailureReported(icao: string, fetch: AvwxFetch)
    requires !DirectAvailable(icao, fetch)
    requires fetch(StationInfo(icao)).Err? && fetch(StationInfo(icao)).error.Error?
    ensures var r := TafWithNearestFallback(icao, Null, fetch);
      && Field(r, "station") == Str(icao) && Field(r, "isFallback") == Bool(true)
      && Field(r, "raw") == Str("No TAF available for " + icao + ". Error: " + fetch(StationInfo(icao)).error.message)
  {
    var e := fetch(StationInfo(icao)).error;
    assert TafWithNearestFallback(icao, Null, fetch) == FailedReport(Taf, icao, e);
  }

  /** A point's TAF entry keeps the report's `raw` and `forecast` and names the station. */
  lemma EnrouteTafEntry(point: CoordinatePoint, fetch: AvwxFetch, station: Value)
    requires NearestStation(point.lat, point.lon, fetch) == Some(station)
    requires DirectAvailable(ValueToString(station), fetch)
    ensures var r := EnrouteResult(Taf, point, fetch); var report := fetch(Report(ValueToString(station))).value;
      && Field(r, "station") == station && Field(r, "error") == Undefined
      && Field(Field(r, "taf"), "raw") == Field(report, "raw")
      && Field(Field(r, "taf"), "forecast") == Field(report, "forecast")
  {
  }
}
