/** The client-side airport service (services/airportApi.ts): a search by free
    text and a lookup by ICAO code, both against the airport search route. The
    request is an oracle from query parameters to what `fetch` resolves to. */
module AirportApi {
  import opened Wrappers
  import opened Js
  import opened JsText
  import opened Http

  /** `elevation: { value, unit }`; unit 0 is feet. */
  datatype Elevation = Elevation(value: int, unit: int)

  /** The airport record of the search results (`_id`, `type` renamed). */
  datatype Airport = Airport(
    id: string,
    name: string,
    icaoCode: string,
    iataCode: Option<string>,
    country: string,
    kind: int,
    elevation: Option<Elevation>)

  /** Query parameters, in the order they are written into the URL. */
  type Params = seq<(string, string)>

  /** What `fetch` of the search route resolves to (or rejects with) for a query. */
  type Fetch = Params -> Result<Upstream<Value>>

  /** The search is skipped when the term is blank or shorter than two
      characters; the length is that of the untrimmed term. */
  predicate SearchSkipped(term: string) {
    Trim(term) == "" || |term| < 2
  }

  /** `new URLSearchParams({ search: term, limit: '10' })` */
  function SearchParams(term: string): Params {
    [("search", term), ("limit", "10")]
  }

  /** The exception a non-OK answer raises: the body (or `{}` when it is not
      JSON) supplies `error`, and a falsy `error` gives "HTTP error: <status>".
      A JSON body of `null` makes the property read itself throw. */
  function FailureError(body: Result<Value>, status: int): Exception {
    var errorData := if body.Ok? then body.value else Obj(map[]);
    match Get(errorData, "error")
    case Err(e) => e
    case Ok(error) =>
      Throw(if Truthy(error) then ValueToString(error) else "HTTP error: " + IntToString(status))
  }

  /** `searchAirports(term)`: `data.items || []` on success; every exception,
      whether from `fetch`, the body or the non-OK check, is rethrown. */
  function SearchAirports(term: string, fetch: Fetch): (r: Result<Value>)
    ensures SearchSkipped(term) ==> r == Ok(Arr([]))
    ensures !SearchSkipped(term) && fetch(SearchParams(term)).Err? ==> r == Err(fetch(SearchParams(term)).error)
    ensures !SearchSkipped(term) && fetch(SearchParams(term)).Ok? && !fetch(SearchParams(term)).value.Ok() ==>
      r == Err(FailureError(fetch(SearchParams(term)).value.body, fetch(SearchParams(term)).value.status))
    ensures r.Ok? ==> Truthy(r.value)
  {
    if SearchSkipped(term) then Ok(Arr([]))
    else
      var response :- fetch(SearchParams(term));
      if !response.Ok() then Err(FailureError(response.body, response.status))
      else
        var data :- response.body;
        var items :- Get(data, "items");
        Ok(if Truthy(items) then items else Arr([]))
  }

  /** `getAirportByIcao(code)`: `Null` stands for the `null` it returns. */
  function GetAirportByIcao(code: string, fetch: Fetch): (r: Result<Value>)
    ensures Trim(code) == "" ==> r == Ok(Null)
    ensures Trim(code) != "" && fetch([("icao", code)]).Err? ==> r == Err(fetch([("icao", code)]).error)
    ensures Trim(code) != "" && fetch([("icao", code)]).Ok? && fetch([("icao", code)]).value.status == 404 ==>
      r == Ok(Null)
  {
    if Trim(code) == "" then Ok(Null)
    else
      var response :- fetch([("icao", code)]);
      if !response.Ok() then
        if response.status == 404 then Ok(Null) else Err(FailureError(response.body, response.status))
      else response.body
  }

  /** A non-OK answer whose body carries a non-empty `error` string throws
      with exactly that message. */
  lemma FailureCarriesBodyError(message: string, status: int)
    requires message != ""
    ensures FailureError(Ok(Obj(map["error" := Str(message)])), status) == Throw(message)
  {
  }

  /** Without a usable `error` (a body that is not JSON, or one without the
      field) the message is "HTTP error: " followed by the status, which can be
      read back from it. */
  lemma FailureCarriesStatus(body: Result<Value>, status: int)
    requires body.Err? || (!Nullish(body.value) && !Truthy(Field(body.value, "error")))
    ensures FailureError(body, status).Error?
    ensures var m := FailureError(body, status).message;
      |m| > 12 && m[..12] == "HTTP error: " && ParseInt(m[12..]) == Some(status)
  {
    var m := FailureError(body, status).message;
    assert m == "HTTP error: " + IntToString(status);
    assert m[12..] == IntToString(status);
    ParseIntOfIntToString(status);
  }

  /** The search succeeds exactly when it is skipped, or the request resolves
      OK with a JSON body that is not null; then it gives `items`, or an empty
      list when `items` is falsy. */
  lemma SearchAirportsSpec(term: string, fetch: Fetch)
    ensures SearchAirports(term, fetch).Ok? <==>
      SearchSkipped(term)
      || (fetch(SearchParams(term)).Ok? && fetch(SearchParams(term)).value.Ok()
          && fetch(SearchParams(term)).value.body.Ok? && !Nullish(fetch(SearchParams(term)).value.body.value))
    ensures !SearchSkipped(term) && SearchAirports(term, fetch).Ok? ==>
      var items := Field(fetch(SearchParams(term)).value.body.value, "items");
      SearchAirports(term, fetch).value == (if Truthy(items) then items else Arr([]))
  {
  }

  /** A non-OK answer never yields airports: the search throws unless the term
      was skipped. */
  lemma SearchNeverSwallowsFailure(term: string, fetch: Fetch)
    requires fetch(SearchParams(term)).Err? || !fetch(SearchParams(term)).value.Ok()
    ensures SearchAirports(term, fetch).Ok? <==> SearchSkipped(term)
  {
  }

  /** The lookup yields null exactly for a blank code or a 404; any other
      non-OK answer throws, and an OK answer gives its JSON body. */
  lemma GetAirportByIcaoSpec(code: string, fetch: Fetch)
    requires Trim(code) != ""
    requires fetch([("icao", code)]).Ok?
    ensures var response := fetch([("icao", code)]).value;
      && (response.Ok() ==> GetAirportByIcao(code, fetch) == response.body)
      && (!response.Ok() ==> (GetAirportByIcao(code, fetch).Ok? <==> response.status == 404))
  {
  }
}
