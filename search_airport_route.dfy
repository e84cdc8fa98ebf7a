/** The airport search route (app/api/openAip/searchAirport/route.ts): it checks
    its configuration and query, asks the OpenAIP airport API and answers either
    the exact ICAO match or a page of search results. */
module SearchAirportRoute {
  import opened Wrappers
  import opened Js
  import opened JsArray
  import opened JsText
  import opened Http
  import AirportApi

  const DefaultLimit := "10"
  const DefaultFields := "_id,name,icaoCode,iataCode,country,type,geometry,elevation"

  /** What `fetch` of the OpenAIP airport API resolves to (or rejects with, for
      example with a "TimeoutError") for a query. */
  type Fetch = AirportApi.Params -> Result<Upstream<Value>>

  /** `searchParams.get(key)?.toUpperCase()`: present exactly when the
      parameter is, already in upper case and of the parameter's length. */
  function UpperParam(query: Query, key: string): (r: Option<string>)
    ensures r.Some? <==> key in query
    ensures r.Some? ==> r.value == ToUpper(query[key])
    ensures r.Some? ==> ToUpper(r.value) == r.value && |r.value| == |query[key]|
  {
    match Param(query, key)
    case Some(v) => ToUpperIdempotent(v); Some(ToUpper(v))
    case None => None
  }

  /** A truthy optional string: present and not empty. */
  predicate Present(s: Option<string>) {
    s.Some? && s.value != ""
  }

  /** The upstream query: `search` and `icaoCode` when present, then `limit`
      and `fields`. */
  function UpstreamQuery(search: Option<string>, icao: Option<string>, limit: string, fields: string): AirportApi.Params {
    (if Present(search) then [("search", search.value)] else [])
    + (if Present(icao) then [("icaoCode", icao.value)] else [])
    + [("limit", limit), ("fields", fields)]
  }

  /** The `URLSearchParams` built by successive `append` calls. */
  method BuildUpstreamQuery(search: Option<string>, icao: Option<string>, limit: string, fields: string)
    returns (params: AirportApi.Params)
    ensures params == UpstreamQuery(search, icao, limit, fields)
  {
    params := [];
    if Present(search) {
      params := params + [("search", search.value)];
    }
    if Present(icao) {
      params := params + [("icaoCode", icao.value)];
    }
    params := params + [("limit", limit)];
    params := params + [("fields", fields)];
  }

  /** `search` is sent iff present and `icaoCode` iff present, each once with
      its value; `search` comes first; `limit` and `fields` always close the query. */
  lemma UpstreamQueryShape(search: Option<string>, icao: Option<string>, limit: string, fields: string)
    ensures var q := UpstreamQuery(search, icao, limit, fields);
      && |q| == (if Present(search) then 1 else 0) + (if Present(icao) then 1 else 0) + 2
      && q[|q| - 2] == ("limit", limit) && q[|q| - 1] == ("fields", fields)
      && (Present(search) ==> q[0] == ("search", search.value))
      && (forall i | 0 <= i < |q| - 2 :: q[i].0 == "search" <==> Present(search) && q[i] == ("search", search.value))
      && (forall i | 0 <= i < |q| - 2 :: q[i].0 == "icaoCode" <==> Present(icao) && q[i] == ("icaoCode", icao.value))
  {
  }

  function ErrorBody(message: string): Value {
    Obj(map["error" := Str(message)])
  }

  /** `a.icaoCode === icao`, which throws for a null or undefined item. */
  function IcaoMatch(icao: string): Value -> Result<bool> {
    a => var code :- Get(a, "icaoCode"); Ok(code == Str(icao))
  }

  /** `data.items?.find(a => a.icaoCode === icao) || null` */
  function IcaoSelection(items: Value, icao: string): (r: Result<Value>)
    ensures Nullish(items) ==> r == Ok(Null)
    ensures !Nullish(items) && !items.Arr? ==> r.Err?
  {
    if Nullish(items) then Ok(Null)
    else if !items.Arr? then Err(TypeError("data.items?.find is not a function"))
    else
      var found :- FindJs(IcaoMatch(icao), items.elems);
      Ok(if found.Some? then found.value else Null)
  }

  /** Over a list of records, the selection is the first record whose
      `icaoCode` is exactly `icao`, or null when there is none; a null or
      undefined entry scanned before the match throws. */
  lemma IcaoSelectionSpec(elems: seq<Value>, icao: string)
    requires forall i | 0 <= i < |elems| :: !Nullish(elems[i])
    ensures IcaoSelection(Arr(elems), icao).Ok?
    ensures IcaoSelection(Arr(elems), icao).value != Null <==>
      exists k | 0 <= k < |elems| :: Field(elems[k], "icaoCode") == Str(icao)
    ensures IcaoSelection(Arr(elems), icao).value != Null ==>
      exists k | 0 <= k < |elems| :: elems[k] == IcaoSelection(Arr(elems), icao).value
        && Field(elems[k], "icaoCode") == Str(icao)
        && forall j | 0 <= j < k :: Field(elems[j], "icaoCode") != Str(icao)
  {
    var callback := IcaoMatch(icao);
    assert forall i | 0 <= i < |elems| :: callback(elems[i]) == Ok(Field(elems[i], "icaoCode") == Str(icao));
    var found := FindJs(callback, elems);
    if found.Ok? && found.value.Some? {
      var k :| 0 <= k < |elems| && elems[k] == found.value.value && callback(elems[k]) == Ok(true)
        && forall j | 0 <= j < k :: callback(elems[j]) == Ok(false);
      assert Field(elems[k], "icaoCode") == Str(icao);
      assert elems[k] != Null;
    }
  }

  /** The reply when nothing was thrown: a 401 for rejected credentials, the
      ICAO match when `icao` is given, and a page of results otherwise. */
  function Answer(search: Option<string>, icao: Option<string>, limit: string, fields: string, fetch: Fetch): Result<Reply<Value>> {
    var res :- fetch(UpstreamQuery(search, icao, limit, fields));
    if !res.Ok() then
      if res.status == 401 || res.status == 403 then Ok(Reply(401, ErrorBody("Invalid OpenAIP API key")))
      else Err(Throw("OpenAIP API error: " + IntToString(res.status) + " " + res.statusText))
    else
      var data :- res.body;
      var items :- Get(data, "items");
      if Present(icao) then
        var airport :- IcaoSelection(items, icao.value);
        Ok(Reply(200, airport))
      else
        var totalCount := Field(data, "totalCount");
        Ok(Reply(200, Obj(map[
          "items" := if Truthy(items) then items else Arr([]),
          "totalCount" := if Truthy(totalCount) then totalCount else Num(0)])))
  }

  /** The `catch` block: a timeout is a 504, anything else a 500 with its message. */
  function CaughtReply(e: Exception): (reply: Reply<Value>)
    ensures reply.status == 504 <==> e.Error? && e.name == "TimeoutError"
    ensures reply.status != 504 ==> reply.status == 500
  {
    if e.Error? && e.name == "TimeoutError" then Reply(504, ErrorBody("Request timeout"))
    else Reply(500, ErrorBody(if e.Error? && e.message != "" then e.message else "Internal server error"))
  }

  /** `GET(request)`, with the API key of the environment (`''` when unset). */
  function HandleGet(query: Query, apiKey: string, fetch: Fetch): (reply: Reply<Value>)
    ensures apiKey == "" ==> reply == Reply(500, ErrorBody("OpenAIP API key not configured"))
    ensures apiKey != "" && !Present(UpperParam(query, "search")) && !Present(UpperParam(query, "icao")) ==>
      reply == Reply(400, ErrorBody("Missing required query parameter: search or icao"))
  {
    var search := UpperParam(query, "search");
    var icao := UpperParam(query, "icao");
    var limit := ParamOr(query, "limit", DefaultLimit);
    var fields := ParamOr(query, "fields", DefaultFields);
    if apiKey == "" then Reply(500, ErrorBody("OpenAIP API key not configured"))
    else if !Present(search) && !Present(icao) then
      Reply(400, ErrorBody("Missing required query parameter: search or icao"))
    else
      match Answer(search, icao, limit, fields, fetch)
      case Ok(reply) => reply
      case Err(e) => CaughtReply(e)
  }

  /** The request that reaches the airport API: both terms upper-cased, and the
      limit and field list defaulted. */
  function SentQuery(query: Query): AirportApi.Params {
    UpstreamQuery(UpperParam(query, "search"), UpperParam(query, "icao"),
      ParamOr(query, "limit", DefaultLimit), ParamOr(query, "fields", DefaultFields))
  }

  /** A missing key is reported before the query is looked at, whatever it holds. */
  lemma MissingKeyComesFirst(query: Query, fetch: Fetch)
    ensures HandleGet(query, "", fetch).status == 500
    ensures HandleGet(query, "", fetch).body == ErrorBody("OpenAIP API key not configured")
  {
  }

  /** Rejected credentials upstream (401 or 403) are answered with 401. */
  lemma RejectedKeyIs401(query: Query, apiKey: string, fetch: Fetch)
    requires apiKey != ""
    requires Present(UpperParam(query, "search")) || Present(UpperParam(query, "icao"))
    requires fetch(SentQuery(query)).Ok?
    requires fetch(SentQuery(query)).value.status in {401, 403}
    ensures HandleGet(query, apiKey, fetch) == Reply(401, ErrorBody("Invalid OpenAIP API key"))
  {
  }

  /** Any other non-OK status becomes a 500 naming the upstream status. */
  lemma OtherUpstreamFailureIs500(query: Query, apiKey: string, fetch: Fetch)
    requires apiKey != ""
    requires Present(UpperParam(query, "search")) || Present(UpperParam(query, "icao"))
    requires fetch(SentQuery(query)).Ok?
    requires var s := fetch(SentQuery(query)).value.status; !(200 <= s <= 299) && s != 401 && s != 403
    ensures var res := fetch(SentQuery(query)).value;
      HandleGet(query, apiKey, fetch) ==
        Reply(500, ErrorBody("OpenAIP API error: " + IntToString(res.status) + " " + res.statusText))
  {
  }

  /** With an ICAO code the reply is the ICAO selection, whether or not a
      search term was given as well. */
  lemma IcaoTakesPrecedence(query: Query, apiKey: string, fetch: Fetch)
    requires apiKey != "" && Present(UpperParam(query, "icao"))
    requires fetch(SentQuery(query)).Ok? && fetch(SentQuery(query)).value.Ok()
    requires fetch(SentQuery(query)).value.body.Ok?
    requires var data := fetch(SentQuery(query)).value.body.value;
      !Nullish(data) && IcaoSelection(Field(data, "items"), UpperParam(query, "icao").value).Ok?
    ensures var data := fetch(SentQuery(query)).value.body.value;
      HandleGet(query, apiKey, fetch)
        == Reply(200, IcaoSelection(Field(data, "items"), UpperParam(query, "icao").value).value)
  {
  }

  /** Without an ICAO code an OK answer is the page `{ items, totalCount }`,
      with falsy values replaced by `[]` and `0`. */
  lemma SearchPage(query: Query, apiKey: string, fetch: Fetch)
    requires apiKey != "" && Present(UpperParam(query, "search")) && !Present(UpperParam(query, "icao"))
    requires fetch(SentQuery(query)).Ok? && fetch(SentQuery(query)).value.Ok()
    requires fetch(SentQuery(query)).value.body.Ok?
    requires !Nullish(fetch(SentQuery(query)).value.body.value)
    ensures var data := fetch(SentQuery(query)).value.body.value;
      var reply := HandleGet(query, apiKey, fetch);
      && reply.status == 200
      && Field(reply.body, "items") == (if Truthy(Field(data, "items")) then Field(data, "items") else Arr([]))
      && Field(reply.body, "totalCount") == (if Truthy(Field(data, "totalCount")) then Field(data, "totalCount") else Num(0))
  {
  }

  /** A request that times out is a 504, and no other failure is. */
  lemma TimeoutIs504(query: Query, apiKey: string, fetch: Fetch, message: string)
    requires apiKey != ""
    requires Present(UpperParam(query, "search")) || Present(UpperParam(query, "icao"))
    requires fetch(SentQuery(query)) == Err(Error("TimeoutError", message))
    ensures HandleGet(query, apiKey, fetch) == Reply(504, ErrorBody("Request timeout"))
  {
  }

  /** Every status the route answers with is one of 200, 400, 401, 500 and 504. */
  lemma ReplyStatuses(query: Query, apiKey: string, fetch: Fetch)
    ensures HandleGet(query, apiKey, fetch).status in {200, 400, 401, 500, 504}
  {
  }
}
