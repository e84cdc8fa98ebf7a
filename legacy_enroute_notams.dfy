/** The earlier correlator (lib/hooks/getEnrouteNotams.ts), still imported by the
    aircraft NOTAM view: it takes the airspace and NOTAM lists as bare arrays,
    compares raw `airspaces` entries against the identifier set and has no
    geometric NOTAM filter. */
module LegacyEnrouteNotams {
  import opened Wrappers
  import opened Js
  import opened JsArray
  import opened Turf
  import EnrouteNotams

  /** The route the module builds at load time: EFHK and the destination. */
  const ModuleDeparture: Position := Position(24.5748, 60.1905)
  const ModuleArrival: Position := Position(22.1940, 59.2009)

  /** The corridor built at module load; `getEnrouteNotams` shadows it with its own. */
  function ModuleCorridor(turf: Oracle): Value {
    turf.buffer(LineString(ModuleDeparture, ModuleArrival), EnrouteNotams.CorridorMeters)
  }

  /** The exception V8 throws when calling a method that a value does not have. */
  function NotAFunction(callee: string): Exception {
    TypeError(callee + " is not a function")
  }

  /** `airspaces.filter(...)` on a value that may not be an array: null and
      undefined throw on the property read, other non-arrays on the call. */
  function LegacyGetAirspacesAlongRoute(turf: Oracle, airspaces: Value, corridor: Value): (r: Result<seq<Value>>)
    ensures !airspaces.Arr? ==> r.Err?
  {
    if airspaces.Arr? then FilterJs(EnrouteNotams.AlongRouteFilterCallback(turf, corridor), airspaces.elems)
    else
      var _ :- Get(airspaces, "filter");
      Err(NotAFunction("airspaces.filter"))
  }

  /** On an array the earlier airspace filter is the current one applied to a
      catalog whose `items` is that array. */
  lemma LegacyAirspacesAgree(turf: Oracle, airspaces: Value, corridor: Value)
    requires airspaces.Arr?
    ensures LegacyGetAirspacesAlongRoute(turf, airspaces, corridor)
      == EnrouteNotams.GetAirspacesAlongRoute(turf, Obj(map["items" := airspaces]), corridor)
  {
    assert EnrouteNotams.CatalogItems(Obj(map["items" := airspaces])) == airspaces.elems;
  }

  /** `(asId) => relevantIds.has(asId)`: the raw entry is looked up. */
  function LegacyEntryCallback(ids: seq<Value>, entry: Value): Result<bool> {
    Ok(InIdSet(ids, entry))
  }

  function LegacyEntryFilterCallback(ids: seq<Value>): Value -> Result<bool> {
    e => LegacyEntryCallback(ids, e)
  }

  /** The NOTAM filter callback: a falsy `airspaces` is skipped, a truthy one that
      is not an array throws on `.some`. */
  function LegacyByIdCallback(ids: seq<Value>, notam: Value): Result<bool> {
    var airspaces :- Get(notam, "airspaces");
    if !Truthy(airspaces) then Ok(false)
    else if !airspaces.Arr? then Err(NotAFunction("notam.airspaces.some"))
    else SomeJs(LegacyEntryFilterCallback(ids), airspaces.elems)
  }

  function LegacyByIdFilterCallback(ids: seq<Value>): Value -> Result<bool> {
    n => LegacyByIdCallback(ids, n)
  }

  /** `filterRelevantNotams(notams, relevantAirspaces)`: the identifier set is
      built first, then `notams.filter` is called whatever `notams` is. */
  function LegacyFilterRelevantNotams(notams: Value, relevantAirspaces: seq<Value>): (r: Result<seq<Value>>)
    ensures !notams.Arr? ==> r.Err?
  {
    var ids :- MapJs(EnrouteNotams.IdOf, relevantAirspaces);
    if notams.Arr? then FilterJs(LegacyByIdFilterCallback(ids), notams.elems)
    else
      var _ :- Get(notams, "filter");
      Err(NotAFunction("notams.filter"))
  }

  /** A NOTAM the earlier callback can read without throwing. */
  predicate LegacyReadable(notam: Value) {
    !Nullish(notam) && (!Truthy(Field(notam, "airspaces")) || Field(notam, "airspaces").Arr?)
  }

  /** What the earlier filter keeps: some raw entry is an identifier in the set. */
  predicate LegacySelected(ids: seq<Value>, notam: Value) {
    var entries := Field(notam, "airspaces");
    entries.Arr? && exists i | 0 <= i < |entries.elems| :: InIdSet(ids, entries.elems[i])
  }

  function LegacySelectedTest(ids: seq<Value>): Value -> bool {
    n => LegacySelected(ids, n)
  }

  lemma LegacyByIdCallbackSpec(ids: seq<Value>, notam: Value)
    ensures LegacyByIdFilterCallback(ids)(notam).Ok? == LegacyReadable(notam)
    ensures LegacyByIdFilterCallback(ids)(notam).Ok? ==>
      LegacyByIdFilterCallback(ids)(notam).value == LegacySelectedTest(ids)(notam)
  {
    var entries := Field(notam, "airspaces");
    if !Nullish(notam) && entries.Arr? {
      var callback := LegacyEntryFilterCallback(ids);
      var hit := e => InIdSet(ids, e);
      var never := (e: Value) => false;
      SomeJsAgrees(callback, never, hit, entries.elems);
      NothingFailsBeforeHit(never, hit, entries.elems);
    }
  }

  /** The earlier identifier filter: it throws on a non-array NOTAM list, on a
      null NOTAM and on a truthy non-array `airspaces`; otherwise it keeps the
      NOTAMs one of whose raw entries is a relevant identifier, in order. */
  lemma LegacyFilterRelevantNotamsSpec(notams: Value, relevant: seq<Value>)
    requires forall i | 0 <= i < |relevant| :: !Nullish(relevant[i])
    ensures var r := LegacyFilterRelevantNotams(notams, relevant);
      var ids := EnrouteNotams.RelevantIds(relevant);
      && (r.Ok? <==> notams.Arr? && forall i | 0 <= i < |notams.elems| :: LegacyReadable(notams.elems[i]))
      && (r.Ok? ==> r.value == Filter(LegacySelectedTest(ids), notams.elems))
  {
    var ids := EnrouteNotams.RelevantIds(relevant);
    var mapped := MapJs(EnrouteNotams.IdOf, relevant);
    assert mapped.Ok? && mapped.value == ids;
    if notams.Arr? {
      var list := notams.elems;
      var callback := LegacyByIdFilterCallback(ids);
      forall i | 0 <= i < |list|
        ensures callback(list[i]).Ok? == LegacyReadable(list[i])
        ensures callback(list[i]).Ok? ==> callback(list[i]).value == LegacySelectedTest(ids)(list[i])
      {
        LegacyByIdCallbackSpec(ids, list[i]);
      }
      FilterJsAgrees(callback, LegacySelectedTest(ids), list);
    }
  }

  /** NOTAM `airspaces` lists made of plain identifier strings (or no list at
      all), the shape the earlier code was written for. */
  predicate PlainIdentifierLists(notam: Value) {
    var entries := Field(notam, "airspaces");
    Nullish(notam) || !Truthy(entries)
      || (entries.Arr? && forall i | 0 <= i < |entries.elems| :: entries.elems[i].Str?)
  }

  lemma CallbacksAgreeOnPlainLists(ids: seq<Value>, notam: Value)
    requires PlainIdentifierLists(notam)
    ensures LegacyByIdFilterCallback(ids)(notam) == EnrouteNotams.ByIdFilterCallback(ids)(notam)
  {
    var entries := Field(notam, "airspaces");
    if !Nullish(notam) && entries.Arr? && entries.elems != [] {
      var legacy, current := LegacyEntryFilterCallback(ids), EnrouteNotams.EntryFilterCallback(ids);
      forall i | 0 <= i < |entries.elems| ensures legacy(entries.elems[i]) == current(entries.elems[i]) {
        assert entries.elems[i].Str?;
      }
      SomeJsCongruence(legacy, current, entries.elems);
      assert LegacyByIdCallback(ids, notam) == SomeJs(legacy, entries.elems);
      assert EnrouteNotams.ByIdCallback(ids, notam) == SomeJs(current, entries.elems);
    }
  }

  /** On NOTAM lists with plain identifier strings both versions select the same
      NOTAMs and throw the same exceptions. */
  lemma IdentifierFiltersAgree(notams: Value, relevant: seq<Value>)
    requires notams.Arr?
    requires forall i | 0 <= i < |notams.elems| :: PlainIdentifierLists(notams.elems[i])
    ensures LegacyFilterRelevantNotams(notams, relevant) == EnrouteNotams.FilterRelevantNotams(notams, relevant)
  {
    var mapped := MapJs(EnrouteNotams.IdOf, relevant);
    if mapped.Ok? {
      var ids := mapped.value;
      forall i | 0 <= i < |notams.elems|
        ensures LegacyByIdFilterCallback(ids)(notams.elems[i]) == EnrouteNotams.ByIdFilterCallback(ids)(notams.elems[i])
      {
        CallbacksAgreeOnPlainLists(ids, notams.elems[i]);
      }
      FilterJsCongruence(LegacyByIdFilterCallback(ids), EnrouteNotams.ByIdFilterCallback(ids), notams.elems);
    }
  }

  /** An entry written as an object `{id: "A1"}` is matched by the current
      version and missed by the earlier one, whose set lookup compares the object
      itself. */
  lemma ObjectEntryOnlyMatchedByCurrentVersion()
    ensures var relevant := [Obj(map["id" := Str("A1")])];
      var notam := Obj(map["airspaces" := Arr([Obj(map["id" := Str("A1")])])]);
      && EnrouteNotams.FilterRelevantNotams(Arr([notam]), relevant) == Ok([notam])
      && LegacyFilterRelevantNotams(Arr([notam]), relevant) == Ok([])
  {
    var relevant := [Obj(map["id" := Str("A1")])];
    var entry := Obj(map["id" := Str("A1")]);
    var notam := Obj(map["airspaces" := Arr([entry])]);
    var ids := [Str("A1")];
    assert EnrouteNotams.IdOf(relevant[0]) == Ok(Str("A1"));
    var mapped := MapJs(EnrouteNotams.IdOf, relevant);
    assert mapped.Ok? && |mapped.value| == 1 && mapped.value[0] == Str("A1");
    assert mapped.value == ids;
    assert SameValueZero(ids[0], Str("A1"));
    assert EnrouteNotams.EntryCallback(ids, entry) == Ok(true);
    assert EnrouteNotams.ByIdCallback(ids, notam) == Ok(true);
    assert !InIdSet(ids, entry);
    assert LegacyByIdCallback(ids, notam) == Ok(false);
    assert [notam][1..] == [];
    assert EnrouteNotams.ByIdFilterCallback(ids)(notam) == Ok(true);
    var rest := FilterJs(EnrouteNotams.ByIdFilterCallback(ids), []);
    assert rest == Ok([]);
    assert [notam] + rest.value == [notam];
    assert FilterJs(EnrouteNotams.ByIdFilterCallback(ids), [notam]) == Ok([notam] + rest.value);
    assert FilterJs(LegacyByIdFilterCallback(ids), [notam]) == Ok([]);
    assert EnrouteNotams.FilterRelevantNotams(Arr([notam]), relevant)
      == FilterJs(EnrouteNotams.ByIdFilterCallback(ids), [notam]);
    assert LegacyFilterRelevantNotams(Arr([notam]), relevant) == Ok([]);
  }

  datatype LegacyResult = LegacyResult(corridor: Value, relevantAirspaces: seq<Value>, enrouteNotams: seq<Value>)

  /** `getEnrouteNotams(dep, arr, airspaces, notams)` of the earlier version. */
  function LegacyGetEnrouteNotams(turf: Oracle, dep: Position, arr: Position, airspaces: Value, notams: Value)
    : (r: Result<LegacyResult>)
    ensures r.Ok? ==> airspaces.Arr? && notams.Arr?
  {
    var corridor := EnrouteNotams.RouteCorridor(turf, dep, arr);
    var relevant :- LegacyGetAirspacesAlongRoute(turf, airspaces, corridor);
    var enroute :- LegacyFilterRelevantNotams(notams, relevant);
    Ok(LegacyResult(corridor, relevant, enroute))
  }

  /** On bare arrays with plain identifier lists the earlier correlator returns
      the corridor, airspaces and identifier-matched NOTAMs of the current one
      (given the array as the catalog's `items`), and the current one finds no
      NOTAM by position, since a bare array has no `notams` property. For the
      module's own route the corridor is the one built at load time. */
  lemma LegacyAgreesWithCurrent(turf: Oracle, dep: Position, arr: Position, airspaces: Value, notams: Value)
    requires airspaces.Arr? && notams.Arr?
    requires forall i | 0 <= i < |notams.elems| :: PlainIdentifierLists(notams.elems[i])
    ensures var legacy := LegacyGetEnrouteNotams(turf, dep, arr, airspaces, notams);
      var current := EnrouteNotams.GetEnrouteNotams(turf, dep, arr, Obj(map["items" := airspaces]), notams);
      && legacy.Ok? == current.Ok?
      && (legacy.Ok? ==>
        && legacy.value.corridor == current.value.corridor
        && legacy.value.relevantAirspaces == current.value.relevantAirspaces
        && legacy.value.enrouteNotams == current.value.enrouteNotams
        && current.value.inAirspaceNotams == [])
      && (legacy.Ok? && dep == ModuleDeparture && arr == ModuleArrival ==> legacy.value.corridor == ModuleCorridor(turf))
  {
    var corridor := EnrouteNotams.RouteCorridor(turf, dep, arr);
    LegacyAirspacesAgree(turf, airspaces, corridor);
    var relevant := LegacyGetAirspacesAlongRoute(turf, airspaces, corridor);
    if relevant.Ok? {
      IdentifierFiltersAgree(notams, relevant.value);
      assert EnrouteNotams.WrappedNotams(notams) == [];
    }
  }
}
