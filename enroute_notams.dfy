/** The enroute correlator (lib/hooks/enroute/getEnrouteNotams.ts): build a
    corridor around the departure-arrival line, keep the airspaces of a catalog
    that intersect it, and select NOTAMs by airspace identifier and by position. */
module EnrouteNotams {
  import opened Wrappers
  import opened Js
  import opened JsArray
  import opened Turf

  /** Ten nautical miles, the corridor half-width in meters. */
  const CorridorMeters: int := 18520

  /** NOTAM coordinates arrive as degrees times ten million. */
  const CoordinateScale: int := 10000000

  // ---------------------------------------------------------------------------
  // Step 1: the corridor

  function RouteCorridor(turf: Oracle, dep: Position, arr: Position): Value {
    turf.buffer(LineString(dep, arr), CorridorMeters)
  }

  // ---------------------------------------------------------------------------
  // Step 2: airspaces along the route

  /** `Array.isArray(data?.items) ? data.items : []` */
  function CatalogItems(airspacesData: Value): seq<Value> {
    Elements(Field(airspacesData, "items"))
  }

  predicate HasGeometry(airspace: Value) {
    Truthy(Field(airspace, "geometry"))
  }

  /** What the airspace filter keeps: a record with a geometry whose feature
      intersects the corridor. */
  predicate AlongRoute(turf: Oracle, corridor: Value, airspace: Value) {
    HasGeometry(airspace) && turf.booleanIntersects(corridor, Feature(Field(airspace, "geometry")))
  }

  function AlongRouteTest(turf: Oracle, corridor: Value): Value -> bool {
    a => AlongRoute(turf, corridor, a)
  }

  /** The filter callback as written; reading `.geometry` of a null record throws. */
  function AlongRouteCallback(turf: Oracle, corridor: Value, airspace: Value): Result<bool> {
    var geometry :- Get(airspace, "geometry");
    Ok(Truthy(geometry) && turf.booleanIntersects(corridor, Feature(geometry)))
  }

  function AlongRouteFilterCallback(turf: Oracle, corridor: Value): Value -> Result<bool> {
    a => AlongRouteCallback(turf, corridor, a)
  }

  lemma AlongRouteCallbackSpec(turf: Oracle, corridor: Value, airspace: Value)
    ensures AlongRouteCallback(turf, corridor, airspace).Err? <==> Nullish(airspace)
    ensures AlongRouteCallback(turf, corridor, airspace) == Ok(true) <==> AlongRoute(turf, corridor, airspace)
  {
  }

  /** `getAirspacesAlongRoute(airspacesData, corridor)` */
  function GetAirspacesAlongRoute(turf: Oracle, airspacesData: Value, corridor: Value): (r: Result<seq<Value>>)
    ensures !Field(airspacesData, "items").Arr? ==> r == Ok([])
  {
    FilterJs(AlongRouteFilterCallback(turf, corridor), CatalogItems(airspacesData))
  }

  /** The selected airspaces are exactly the catalog items that have a geometry
      intersecting the corridor, in catalog order; the call throws only when an
      item is null or undefined. */
  lemma AirspacesAlongRouteSpec(turf: Oracle, airspacesData: Value, corridor: Value)
    ensures var items := CatalogItems(airspacesData);
      var r := GetAirspacesAlongRoute(turf, airspacesData, corridor);
      && (r.Ok? <==> forall i | 0 <= i < |items| :: !Nullish(items[i]))
      && (r.Ok? ==> r.value == Filter(AlongRouteTest(turf, corridor), items))
      && (r.Ok? ==> SubsequenceOf(r.value, items))
      && (r.Ok? ==> forall i | 0 <= i < |items| :: AlongRoute(turf, corridor, items[i]) ==> items[i] in r.value)
      && (r.Ok? ==> forall i | 0 <= i < |r.value| :: r.value[i] in items && AlongRoute(turf, corridor, r.value[i]))
  {
    var items := CatalogItems(airspacesData);
    var callback := AlongRouteFilterCallback(turf, corridor);
    var keep := AlongRouteTest(turf, corridor);
    forall i | 0 <= i < |items|
      ensures callback(items[i]).Err? == Nullish(items[i])
      ensures callback(items[i]).Ok? ==> callback(items[i]).value == keep(items[i])
    {
      AlongRouteCallbackSpec(turf, corridor, items[i]);
    }
    FilterJsAgrees(callback, keep, items);
    FilterIsSubsequence(keep, items);
  }

  /** Every selected airspace is an object that carries a geometry. */
  lemma SelectedAirspacesHaveGeometry(turf: Oracle, airspacesData: Value, corridor: Value)
    ensures var r := GetAirspacesAlongRoute(turf, airspacesData, corridor);
      r.Ok? ==> forall i | 0 <= i < |r.value| :: r.value[i].Obj? && HasGeometry(r.value[i])
  {
    AirspacesAlongRouteSpec(turf, airspacesData, corridor);
  }

  // ---------------------------------------------------------------------------
  // Step 3a: NOTAMs by airspace identifier

  /** `a => a.id` */
  function IdOf(airspace: Value): Result<Value> {
    Get(airspace, "id")
  }

  /** The identifiers of the relevant airspaces, as the callback reads them. */
  function RelevantIds(airspaces: seq<Value>): (ids: seq<Value>)
    ensures |ids| == |airspaces|
  {
    seq(|airspaces|, i requires 0 <= i < |airspaces| => Field(airspaces[i], "id"))
  }

  /** A NOTAM's airspace entry names an airspace by itself (a string) or by its `id`. */
  function NormalisedId(entry: Value): Value {
    if entry.Str? then entry else Field(entry, "id")
  }

  predicate MatchesId(ids: seq<Value>, entry: Value) {
    !Nullish(entry) && InIdSet(ids, NormalisedId(entry))
  }

  function AirspaceEntries(notam: Value): seq<Value> {
    Elements(Field(notam, "airspaces"))
  }

  /** What the identifier filter keeps. */
  predicate SelectedById(ids: seq<Value>, notam: Value) {
    exists i | 0 <= i < |AirspaceEntries(notam)| :: MatchesId(ids, AirspaceEntries(notam)[i])
  }

  /** The NOTAM can be read, and scanning its entries does not meet a null entry
      before a matching one (reading `.id` of null throws). */
  ghost predicate ReadableById(ids: seq<Value>, notam: Value) {
    !Nullish(notam) && !FailsBeforeHit(Nullish, MatchesIdTest(ids), AirspaceEntries(notam))
  }

  /** `typeof as === "string" ? as : as.id`, then `relevantIds.has(asId)` */
  function EntryCallback(ids: seq<Value>, entry: Value): Result<bool> {
    var id :- if entry.Str? then Ok(entry) else Get(entry, "id");
    Ok(InIdSet(ids, id))
  }

  function EntryFilterCallback(ids: seq<Value>): Value -> Result<bool> {
    e => EntryCallback(ids, e)
  }

  function MatchesIdTest(ids: seq<Value>): Value -> bool {
    e => MatchesId(ids, e)
  }

  function SelectedByIdTest(ids: seq<Value>): Value -> bool {
    n => SelectedById(ids, n)
  }

  function ByIdFilterCallback(ids: seq<Value>): Value -> Result<bool> {
    n => ByIdCallback(ids, n)
  }

  /** The NOTAM filter callback as written. */
  function ByIdCallback(ids: seq<Value>, notam: Value): Result<bool> {
    var airspaces :- Get(notam, "airspaces");
    if !airspaces.Arr? || |airspaces.elems| == 0 then Ok(false)
    else SomeJs(EntryFilterCallback(ids), airspaces.elems)
  }

  /** `filterRelevantNotams(notams, relevantAirspaces)` */
  function FilterRelevantNotams(notams: Value, relevantAirspaces: seq<Value>): (r: Result<seq<Value>>)
    ensures !notams.Arr? ==> r == Ok([])
  {
    if !notams.Arr? then Ok([])
    else
      var ids :- MapJs(IdOf, relevantAirspaces);
      FilterJs(ByIdFilterCallback(ids), notams.elems)
  }

  lemma EntryCallbackSpec(ids: seq<Value>, entry: Value)
    ensures EntryCallback(ids, entry).Err? <==> Nullish(entry)
    ensures EntryCallback(ids, entry) == Ok(true) <==> MatchesId(ids, entry)
  {
  }

  /** The callback agrees with `SelectedById` whenever it does not throw. */
  lemma ByIdCallbackSpec(ids: seq<Value>, notam: Value)
    ensures ByIdCallback(ids, notam).Ok? <==> ReadableById(ids, notam)
    ensures ByIdCallback(ids, notam).Ok? ==> ByIdCallback(ids, notam).value == SelectedById(ids, notam)
  {
    var entries := AirspaceEntries(notam);
    if !Nullish(notam) && entries != [] {
      var callback := EntryFilterCallback(ids);
      forall i | 0 <= i < |entries|
        ensures callback(entries[i]).Err? == Nullish(entries[i])
        ensures (callback(entries[i]) == Ok(true)) == MatchesId(ids, entries[i])
      {
        EntryCallbackSpec(ids, entries[i]);
      }
      SomeJsAgrees(callback, Nullish, MatchesIdTest(ids), entries);
    }
  }

  /** Selection by identifier: a NOTAM is kept iff one of its `airspaces` entries,
      normalised to a bare identifier, is the identifier of a relevant airspace;
      a non-array NOTAM argument selects nothing; the selection is a subsequence. */
  lemma FilterRelevantNotamsSpec(notams: Value, relevant: seq<Value>)
    requires forall i | 0 <= i < |relevant| :: !Nullish(relevant[i])
    ensures var r := FilterRelevantNotams(notams, relevant);
      var ids := RelevantIds(relevant);
      var list := Elements(notams);
      && (!notams.Arr? ==> r == Ok([]))
      && (r.Ok? <==> forall i | 0 <= i < |list| :: ReadableById(ids, list[i]))
      && (r.Ok? ==> r.value == Filter(SelectedByIdTest(ids), list))
      && (r.Ok? ==> SubsequenceOf(r.value, list))
  {
    var ids := RelevantIds(relevant);
    var list := Elements(notams);
    FilterIsSubsequence(SelectedByIdTest(ids), list);
    if notams.Arr? {
      var mapped := MapJs(IdOf, relevant);
      assert mapped.Ok? && mapped.value == ids;
      var callback := ByIdFilterCallback(ids);
      forall i | 0 <= i < |list|
        ensures callback(list[i]).Ok? == ReadableById(ids, list[i])
        ensures callback(list[i]).Ok? ==> callback(list[i]).value == SelectedById(ids, list[i])
      {
        ByIdCallbackSpec(ids, list[i]);
      }
      FilterJsAgrees(callback, SelectedByIdTest(ids), list);
    }
  }

  /** A NOTAM whose `airspaces` is missing, not an array or empty is never selected
      by identifier. */
  lemma NoAirspacesNeverSelectedById(ids: seq<Value>, notam: Value)
    requires !Field(notam, "airspaces").Arr? || Field(notam, "airspaces").elems == []
    ensures ByIdCallback(ids, notam) != Ok(true)
    ensures !SelectedById(ids, notam)
  {
  }

  // ---------------------------------------------------------------------------
  // Step 3b: NOTAMs by position

  /** `v / 1_000_0000` for the values a JSON NOTAM can carry. */
  function Unscale(v: Value): (c: Coord)
    ensures v.Num? ==> c == Deg(v.n as real / 10000000.0)
    ensures v.Undefined? || v.Obj? ==> c == NaN
  {
    match v
    case Num(n) => Deg(n as real / CoordinateScale as real)
    case Null => Deg(0.0)
    case Bool(b) => Deg(if b then 1.0 / CoordinateScale as real else 0.0)
    case _ => NaN
  }

  /** Both unscaled coordinates of the NOTAM are numbers, so that `turf.point`
      accepts them; a null or undefined NOTAM has neither. */
  predicate Locatable(notam: Value) {
    Unscale(Field(notam, "lon")).Deg? && Unscale(Field(notam, "lat")).Deg?
  }

  /** The point `[lon, lat]` of a locatable NOTAM. */
  function NotamPoint(notam: Value): Point
    requires Locatable(notam)
  {
    Point(Unscale(Field(notam, "lon")).deg, Unscale(Field(notam, "lat")).deg)
  }

  /** What the geometric filter keeps: the point is inside some airspace that has a geometry. */
  predicate InsideSome(turf: Oracle, airspaces: seq<Value>, p: Point) {
    exists i | 0 <= i < |airspaces| ::
      HasGeometry(airspaces[i]) && turf.booleanPointInPolygon(p, Field(airspaces[i], "geometry"))
  }

  function InsideCallback(turf: Oracle, p: Point, airspace: Value): Result<bool> {
    var geometry :- Get(airspace, "geometry");
    Ok(Truthy(geometry) && turf.booleanPointInPolygon(p, geometry))
  }

  /** The NOTAM filter callback as written: it reads `notam.lon` (which throws
      for a null NOTAM, after which `notam.lat` cannot throw), builds the point
      (which throws unless both coordinates are numbers) and tests it against
      every airspace in turn. */
  function ByPointCallback(turf: Oracle, airspaces: seq<Value>, notam: Value): Result<bool> {
    var lon :- Get(notam, "lon");
    var p :- MakePoint(Unscale(lon), Unscale(Field(notam, "lat")));
    SomeJs(InsideFilterCallback(turf, p), airspaces)
  }

  function InsideFilterCallback(turf: Oracle, p: Point): Value -> Result<bool> {
    a => InsideCallback(turf, p, a)
  }

  function InsideTest(turf: Oracle, p: Point): Value -> bool {
    a => HasGeometry(a) && turf.booleanPointInPolygon(p, Field(a, "geometry"))
  }

  /** What the geometric filter keeps: a locatable NOTAM whose point is inside some airspace. */
  predicate NotamInsideSome(turf: Oracle, airspaces: seq<Value>, notam: Value) {
    Locatable(notam) && InsideSome(turf, airspaces, NotamPoint(notam))
  }

  function InsideSomeTest(turf: Oracle, airspaces: seq<Value>): Value -> bool {
    n => NotamInsideSome(turf, airspaces, n)
  }

  /** The NOTAM list the geometric filter reads: `notamsObj.notams` when it is an array. */
  function WrappedNotams(notamsObj: Value): seq<Value> {
    Elements(Field(notamsObj, "notams"))
  }

  function ByPointFilterCallback(turf: Oracle, airspaces: seq<Value>): Value -> Result<bool> {
    n => ByPointCallback(turf, airspaces, n)
  }

  /** `filterNotamsByAirspace(notamsObj, airspaces)` */
  function FilterNotamsByAirspace(turf: Oracle, notamsObj: Value, airspaces: seq<Value>): (r: Result<seq<Value>>)
    ensures Nullish(notamsObj) ==> r.Err?
    ensures !Nullish(notamsObj) && !Field(notamsObj, "notams").Arr? ==> r == Ok([])
  {
    var wrapped :- Get(notamsObj, "notams");
    FilterJs(ByPointFilterCallback(turf, airspaces), Elements(wrapped))
  }

  lemma InsideCallbackSpec(turf: Oracle, p: Point, airspace: Value)
    ensures InsideCallback(turf, p, airspace).Err? <==> Nullish(airspace)
    ensures InsideCallback(turf, p, airspace) == Ok(true) <==> InsideTest(turf, p)(airspace)
  {
    assert InsideTest(turf, p)(airspace)
      == (HasGeometry(airspace) && turf.booleanPointInPolygon(p, Field(airspace, "geometry")));
  }

  /** The point of a locatable NOTAM is tested against the airspaces; a null
      NOTAM throws a TypeError, and any other NOTAM whose coordinates are not
      both numbers throws the point constructor's error before any airspace is
      looked at. */
  lemma ByPointCallbackSpec(turf: Oracle, airspaces: seq<Value>, notam: Value)
    requires forall i | 0 <= i < |airspaces| :: !Nullish(airspaces[i])
    ensures ByPointCallback(turf, airspaces, notam).Ok? <==> Locatable(notam)
    ensures Locatable(notam) ==>
      ByPointCallback(turf, airspaces, notam).value == NotamInsideSome(turf, airspaces, notam)
    ensures Nullish(notam) ==> ByPointCallback(turf, airspaces, notam).error.name == "TypeError"
    ensures !Nullish(notam) && !Locatable(notam) ==>
      ByPointCallback(turf, airspaces, notam) == Err(Error("Error", NotNumbersMessage))
  {
    if Locatable(notam) {
      var p := NotamPoint(notam);
      assert MakePoint(Unscale(Field(notam, "lon")), Unscale(Field(notam, "lat"))) == Ok(p);
      var callback := InsideFilterCallback(turf, p);
      forall i | 0 <= i < |airspaces|
        ensures callback(airspaces[i]).Err? == Nullish(airspaces[i])
        ensures (callback(airspaces[i]) == Ok(true)) == InsideTest(turf, p)(airspaces[i])
      {
        InsideCallbackSpec(turf, p, airspaces[i]);
      }
      SomeJsAgrees(callback, Nullish, InsideTest(turf, p), airspaces);
      NothingFailsBeforeHit(Nullish, InsideTest(turf, p), airspaces);
    }
  }

  lemma ByPointFilterCallbackSpec(turf: Oracle, airspaces: seq<Value>, notam: Value)
    requires forall i | 0 <= i < |airspaces| :: !Nullish(airspaces[i])
    ensures ByPointFilterCallback(turf, airspaces)(notam).Ok? == Locatable(notam)
    ensures ByPointFilterCallback(turf, airspaces)(notam).Ok? ==>
      ByPointFilterCallback(turf, airspaces)(notam).value == InsideSomeTest(turf, airspaces)(notam)
  {
    assert ByPointFilterCallback(turf, airspaces)(notam) == ByPointCallback(turf, airspaces, notam);
    assert InsideSomeTest(turf, airspaces)(notam) == NotamInsideSome(turf, airspaces, notam);
    ByPointCallbackSpec(turf, airspaces, notam);
  }

  /** Selection by position: the NOTAMs are read only from `notamsObj.notams`;
      the filter throws unless every NOTAM there has numeric coordinates; a
      NOTAM is kept iff its unscaled `[lon, lat]` point lies inside at least
      one airspace that has a geometry; the selection is a subsequence. */
  lemma FilterNotamsByAirspaceSpec(turf: Oracle, notamsObj: Value, airspaces: seq<Value>)
    requires forall i | 0 <= i < |airspaces| :: !Nullish(airspaces[i])
    ensures var r := FilterNotamsByAirspace(turf, notamsObj, airspaces);
      var list := WrappedNotams(notamsObj);
      && (r.Ok? <==> !Nullish(notamsObj) && forall i | 0 <= i < |list| :: Locatable(list[i]))
      && (r.Ok? ==> r.value == Filter(InsideSomeTest(turf, airspaces), list))
      && (r.Ok? ==> SubsequenceOf(r.value, list))
  {
    var list := WrappedNotams(notamsObj);
    var keep := InsideSomeTest(turf, airspaces);
    FilterIsSubsequence(keep, list);
    if !Nullish(notamsObj) {
      var callback := ByPointFilterCallback(turf, airspaces);
      assert FilterNotamsByAirspace(turf, notamsObj, airspaces) == FilterJs(callback, list);
      forall i | 0 <= i < |list|
        ensures callback(list[i]).Ok? == Locatable(list[i])
        ensures callback(list[i]).Ok? ==> callback(list[i]).value == keep(list[i])
      {
        ByPointFilterCallbackSpec(turf, airspaces, list[i]);
      }
      FilterJsAgrees(callback, keep, list);
    }
  }

  // ---------------------------------------------------------------------------
  // The whole correlator

  datatype EnrouteResult = EnrouteResult(
    corridor: Value,
    relevantAirspaces: seq<Value>,
    enrouteNotams: seq<Value>,
    inAirspaceNotams: seq<Value>)

  /** `getEnrouteNotams(dep, arr, airspaces, notams)`; the same `notams` value is
      given to both NOTAM filters. */
  function GetEnrouteNotams(turf: Oracle, dep: Position, arr: Position, airspaces: Value, notams: Value)
    : (r: Result<EnrouteResult>)
    ensures r.Ok? ==> r.value.corridor == turf.buffer(LineString(dep, arr), 18520)
  {
    var corridor := RouteCorridor(turf, dep, arr);
    var relevant :- GetAirspacesAlongRoute(turf, airspaces, corridor);
    var enroute :- FilterRelevantNotams(notams, relevant);
    var inAirspace :- FilterNotamsByAirspace(turf, notams, relevant);
    Ok(EnrouteResult(corridor, relevant, enroute, inAirspace))
  }

  /** The three result lists are the three specified selections. */
  lemma GetEnrouteNotamsSpec(turf: Oracle, dep: Position, arr: Position, airspaces: Value, notams: Value)
    ensures var r := GetEnrouteNotams(turf, dep, arr, airspaces, notams);
      var corridor := turf.buffer(LineString(dep, arr), CorridorMeters);
      r.Ok? ==>
        && r.value.relevantAirspaces == Filter(AlongRouteTest(turf, corridor), CatalogItems(airspaces))
        && r.value.enrouteNotams
           == Filter(SelectedByIdTest(RelevantIds(r.value.relevantAirspaces)), Elements(notams))
        && r.value.inAirspaceNotams
           == Filter(InsideSomeTest(turf, r.value.relevantAirspaces), WrappedNotams(notams))
  {
    var corridor := RouteCorridor(turf, dep, arr);
    RelevantAirspacesAre(turf, airspaces, corridor);
    var rel := GetAirspacesAlongRoute(turf, airspaces, corridor);
    if rel.Ok? {
      EnrouteNotamsAre(notams, rel.value);
      InAirspaceNotamsAre(turf, notams, rel.value);
    }
  }

  /** The airspaces step, as the combined pipeline uses it: the selection and
      the fact that no selected airspace is null or undefined. */
  lemma RelevantAirspacesAre(turf: Oracle, airspaces: Value, corridor: Value)
    ensures var r := GetAirspacesAlongRoute(turf, airspaces, corridor);
      r.Ok? ==> (r.value == Filter(AlongRouteTest(turf, corridor), CatalogItems(airspaces))
        && forall i | 0 <= i < |r.value| :: !Nullish(r.value[i]))
  {
    AirspacesAlongRouteSpec(turf, airspaces, corridor);
    SelectedAirspacesHaveGeometry(turf, airspaces, corridor);
  }

  /** The identifier step, as the combined pipeline uses it. */
  lemma EnrouteNotamsAre(notams: Value, relevant: seq<Value>)
    requires forall i | 0 <= i < |relevant| :: !Nullish(relevant[i])
    ensures var r := FilterRelevantNotams(notams, relevant);
      r.Ok? ==> r.value == Filter(SelectedByIdTest(RelevantIds(relevant)), Elements(notams))
  {
    FilterRelevantNotamsSpec(notams, relevant);
  }

  /** The geometric step, as the combined pipeline uses it. */
  lemma InAirspaceNotamsAre(turf: Oracle, notams: Value, relevant: seq<Value>)
    requires forall i | 0 <= i < |relevant| :: !Nullish(relevant[i])
    ensures var r := FilterNotamsByAirspace(turf, notams, relevant);
      r.Ok? ==> r.value == Filter(InsideSomeTest(turf, relevant), WrappedNotams(notams))
  {
    FilterNotamsByAirspaceSpec(turf, notams, relevant);
  }


  /** Because both filters receive the same value, a plain NOTAM array gives no
      geometric matches and a `{notams: [...]}` wrapper gives no identifier
      matches: at most one of the two lists is ever non-empty. */
  lemma AtMostOneNotamSelectionNonEmpty(turf: Oracle, dep: Position, arr: Position, airspaces: Value, notams: Value)
    ensures var r := GetEnrouteNotams(turf, dep, arr, airspaces, notams);
      && (r.Ok? && notams.Arr? ==> r.value.inAirspaceNotams == [])
      && (r.Ok? && !notams.Arr? ==> r.value.enrouteNotams == [])
      && (r.Ok? ==> r.value.enrouteNotams == [] || r.value.inAirspaceNotams == [])
  {
    var corridor := RouteCorridor(turf, dep, arr);
    var rel := GetAirspacesAlongRoute(turf, airspaces, corridor);
    if rel.Ok? && notams.Arr? {
      assert WrappedNotams(notams) == [];
    }
  }

  /** A null or undefined NOTAM argument makes the correlator throw once the
      airspaces have been selected: the geometric filter reads `notamsObj.notams`. */
  lemma NullNotamsThrow(turf: Oracle, dep: Position, arr: Position, airspaces: Value, notams: Value)
    requires Nullish(notams)
    requires GetAirspacesAlongRoute(turf, airspaces, RouteCorridor(turf, dep, arr)).Ok?
    ensures GetEnrouteNotams(turf, dep, arr, airspaces, notams).Err?
  {
  }
}
