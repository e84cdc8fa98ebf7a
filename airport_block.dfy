/** The airport weather panel (components/Airport/airportBlock.tsx): the station
    expand flags, the station headings and the rendering of TAF forecast
    periods with their field defaults and flight-rules colours. */
module AirportBlock {
  import opened Wrappers
  import opened Js
  import opened JsArray
  import opened JsText
  import ExpandToggle

  /** `value || fallback`: a truthy fallback makes the value truthy. */
  function OrElse(value: Value, fallback: Value): (r: Value)
    ensures Truthy(value) ==> r == value
    ensures !Truthy(value) ==> r == fallback
    ensures Truthy(r) <==> Truthy(value) || Truthy(fallback)
    ensures r == value || r == fallback
  {
    if Truthy(value) then value else fallback
  }

  /** `value ?? fallback`: unlike `||`, falsy values such as 0 and "" are kept,
      and the value is nullish only when both are. */
  function NullishOr(value: Value, fallback: Value): (r: Value)
    ensures !Nullish(value) ==> r == value
    ensures Nullish(value) ==> r == fallback
    ensures Nullish(r) <==> Nullish(value) && Nullish(fallback)
    ensures r == value || r == fallback
  {
    if Nullish(value) then fallback else value
  }

  /** The colour of the flight-rules chip. */
  datatype RulesColor = Success | Info | Warning | ErrorColor | Default

  function FlightRulesColor(flightRules: Value): RulesColor {
    if flightRules == Str("VFR") then Success
    else if flightRules == Str("MVFR") then Info
    else if flightRules == Str("IFR") then Warning
    else if flightRules == Str("LIFR") then ErrorColor
    else Default
  }

  /** The four flight-rules categories get four different colours, and anything
      else (including the 'Unknown' default) the neutral one. */
  lemma FlightRulesColorSpec(flightRules: Value)
    ensures FlightRulesColor(flightRules) != Default <==>
      flightRules in {Str("VFR"), Str("MVFR"), Str("IFR"), Str("LIFR")}
    ensures forall a: Value, b: Value | FlightRulesColor(a) != Default && FlightRulesColor(a) == FlightRulesColor(b) :: a == b
  {
  }

  /** One cloud chip: `${cloud.type || 'Cloud'} at ${cloud.altitude || '???'}ft`. */
  function CloudChip(cloud: Value): (r: Result<string>)
    ensures r.Err? <==> Nullish(cloud)
  {
    var kind :- Get(cloud, "type");
    Ok(ValueToString(OrElse(kind, Str("Cloud"))) + " at "
      + ValueToString(OrElse(Field(cloud, "altitude"), Str("???"))) + "ft")
  }

  /** A cloud without a type or an altitude shows both defaults; a string type
      and altitude are shown as they are. */
  lemma CloudChipText(cloud: Value)
    requires !Nullish(cloud)
    ensures !Truthy(Field(cloud, "type")) && !Truthy(Field(cloud, "altitude")) ==>
      CloudChip(cloud) == Ok("Cloud at ???ft")
    ensures (Field(cloud, "type").Str? && Field(cloud, "altitude").Str?
      && Field(cloud, "type").s != "" && Field(cloud, "altitude").s != "") ==>
      CloudChip(cloud) == Ok(Field(cloud, "type").s + " at " + Field(cloud, "altitude").s + "ft")
  {
    assert "Cloud" + " at " + "???" + "ft" == "Cloud at ???ft";
  }

  /** One weather chip: `wx.value || 'Weather'`. */
  function WeatherChip(wx: Value): (r: Result<Value>)
    ensures r.Err? <==> Nullish(wx)
    ensures r.Ok? ==> Truthy(r.value)
    ensures !Nullish(wx) && !Truthy(Field(wx, "value")) ==> r == Ok(Str("Weather"))
  {
    var value :- Get(wx, "value");
    Ok(OrElse(value, Str("Weather")))
  }

  /** The chips of a list rendered only when `list.length > 0`: an empty or
      length-less value renders nothing; a non-empty string, or an object whose
      own `length` is a positive number, has no `map`. */
  function Chips<U>(list: Value, chip: Value -> Result<U>): (r: Result<seq<U>>)
    ensures list.Arr? ==> (r.Ok? <==> forall i | 0 <= i < |list.elems| :: chip(list.elems[i]).Ok?)
    ensures list.Arr? && r.Ok? ==> |r.value| == |list.elems|
    ensures !list.Arr? && r.Ok? ==> r.value == []
    ensures list == Str("") || !(list.Str? || list.Obj? || list.Arr?) ==> r == Ok([])
  {
    match list
    case Arr(elems) => MapJs(chip, elems)
    case Str(s) => if s == "" then Ok([]) else Err(TypeError("list.map is not a function"))
    case Obj(fields) =>
      if "length" in fields && fields["length"].Num? && fields["length"].n > 0 then
        Err(TypeError("list.map is not a function"))
      else Ok([])
    case _ => Ok([])
  }

  /** The block rendered for one forecast period. */
  datatype PeriodBlock = PeriodBlock(
    startTime: Value,
    endTime: Value,
    windDirection: Value,
    windSpeed: Value,
    windGust: Option<Value>,
    visibility: Value,
    flightRules: Value,
    rulesColor: RulesColor,
    clouds: seq<string>,
    weather: seq<Value>,
    summary: Value)

  /** The fields of a period, each read with optional chaining (`period?.a?.b`)
      so that a missing level reads as undefined. */
  function RenderPeriod(period: Value): (r: Result<PeriodBlock>)
    ensures r.Ok? ==>
      && Truthy(r.value.startTime) && Truthy(r.value.endTime) && Truthy(r.value.visibility)
      && Truthy(r.value.flightRules) && Truthy(r.value.summary)
    ensures r.Ok? ==> !Nullish(r.value.windDirection) && !Nullish(r.value.windSpeed)
  {
    var flightRules := OrElse(Field(period, "flight_rules"), Str("Unknown"));
    var gust := Field(Field(period, "wind_gust"), "value");
    var clouds :- Chips(OrElse(Field(period, "clouds"), Arr([])), CloudChip);
    var weather :- Chips(OrElse(Field(period, "wx_codes"), Arr([])), WeatherChip);
    Ok(PeriodBlock(
      OrElse(Field(Field(period, "start_time"), "repr"), Str("Unknown start")),
      OrElse(Field(Field(period, "end_time"), "repr"), Str("Unknown end")),
      NullishOr(Field(Field(period, "wind_direction"), "value"), Str("---")),
      NullishOr(Field(Field(period, "wind_speed"), "value"), Str("---")),
      if Truthy(gust) then Some(gust) else None,
      OrElse(Field(Field(period, "visibility"), "repr"), Str("Unknown")),
      flightRules,
      FlightRulesColor(flightRules),
      clouds,
      weather,
      OrElse(Field(period, "summary"), Str("No summary available"))))
  }

  datatype ForecastView = NoForecast(message: string) | Periods(blocks: seq<PeriodBlock>)

  /** `renderTafForecast(forecast)` */
  function RenderTafForecast(forecast: Value): (r: Result<ForecastView>)
    ensures !forecast.Arr? ==> r == Ok(NoForecast("No forecast data available"))
    ensures forecast.Arr? ==> (r.Ok? <==> forall i | 0 <= i < |forecast.elems| :: RenderPeriod(forecast.elems[i]).Ok?)
    ensures forecast.Arr? && r.Ok? ==>
      && r.value.Periods? && |r.value.blocks| == |forecast.elems|
      && forall i | 0 <= i < |forecast.elems| :: r.value.blocks[i] == RenderPeriod(forecast.elems[i]).value
  {
    if !Truthy(forecast) || !forecast.Arr? then Ok(NoForecast("No forecast data available"))
    else
      var blocks :- MapJs(RenderPeriod, forecast.elems);
      Ok(Periods(blocks))
  }

  /** A period without any of its fields shows every default. */
  lemma EmptyPeriodDefaults(period: Value)
    requires period == Null || period == Obj(map[])
    ensures RenderPeriod(period) == Ok(PeriodBlock(Str("Unknown start"), Str("Unknown end"), Str("---"), Str("---"),
      None, Str("Unknown"), Str("Unknown"), Default, [], [], Str("No summary available")))
  {
  }

  /** Wind direction and speed keep a reported 0, where `||` would have
      replaced it; the text fields replace falsy values such as "" by their defaults. */
  lemma ZeroWindKept(period: Value)
    requires RenderPeriod(period).Ok?
    requires Field(Field(period, "wind_direction"), "value") == Num(0)
    requires Field(Field(period, "start_time"), "repr") == Str("")
    ensures RenderPeriod(period).value.windDirection == Num(0)
    ensures RenderPeriod(period).value.startTime == Str("Unknown start")
  {
  }

  /** The heading of a station's report: the key, followed for a fallback
      report by the station actually used (the report's own `station`, or the
      key when it has none). */
  function StationHeading(station: string, report: Value): (heading: string)
    ensures |heading| >= |station| && heading[..|station|] == station
    ensures !Truthy(Field(report, "isFallback")) ==> heading == station
  {
    if Truthy(Field(report, "isFallback")) then
      station + " (using nearest: " + ValueToString(OrElse(Field(report, "station"), Str(station))) + ")"
    else station
  }

  /** A fallback heading names the nearest station after the key. */
  lemma FallbackHeadingNamesStation(station: string, nearest: string)
    requires nearest != ""
    ensures StationHeading(station, Obj(map["isFallback" := Bool(true), "station" := Str(nearest)]))
      == station + " (using nearest: " + nearest + ")"
    ensures StationHeading(station, Obj(map["isFallback" := Bool(true)]))
      == station + " (using nearest: " + station + ")"
  {
  }

  /** The report text: `report?.raw || 'No TAF data available'` (or METAR). */
  function ReportText(report: Value, fallback: string): (text: Value)
    ensures fallback != "" ==> Truthy(text)
  {
    OrElse(Field(report, "raw"), Str(fallback))
  }

  class AirportBlockState {
    var loading: bool
    var expandedStations: map<string, bool>

    constructor ()
      ensures !loading && expandedStations == map[]
    {
      loading := false;
      expandedStations := map[];
    }

    /** `toggleExpand(station)` */
    method ToggleExpand(station: string)
      modifies this
      ensures expandedStations == ExpandToggle.Toggled(old(expandedStations), station)
      ensures loading == old(loading)
    {
      expandedStations := ExpandToggle.Toggled(expandedStations, station);
    }
  }
}
