/** The request and response shapes the route handlers and services share.
    `fetch` itself is not modelled: what it resolves to is an input. */
module Http {
  import opened Wrappers

  /** A response as `fetch` resolves it: the status line and the outcome of
      reading its body (`response.json()` throws on a body that is not JSON). */
  datatype Upstream<B> = Upstream(status: int, statusText: string, body: Result<B>) {
    /** `response.ok` */
    predicate Ok() {
      200 <= status <= 299
    }
  }

  /** A JSON reply, `NextResponse.json(body, { status })`; the status is 200 unless given. */
  datatype Reply<B> = Reply(status: int, body: B)

  /** A query string, as `URL.searchParams` reads it. */
  type Query = map<string, string>

  /** `searchParams.get(key)`: null when the parameter is absent. */
  function Param(query: Query, key: string): Option<string> {
    if key in query then Some(query[key]) else None
  }

  /** `searchParams.get(key) || fallback`: an absent or empty parameter gives
      the fallback, so a non-empty fallback makes the value a non-empty string
      that is either the parameter or the fallback. */
  function ParamOr(query: Query, key: string, fallback: string): (r: string)
    ensures key in query && query[key] != "" ==> r == query[key]
    ensures key !in query || query[key] == "" ==> r == fallback
    ensures r == "" <==> fallback == "" && (key !in query || query[key] == "")
    ensures r == fallback || Param(query, key) == Some(r)
  {
    match Param(query, key)
    case Some(v) => if v != "" then v else fallback
    case None => fallback
  }

  /** `s || fallback` for an optional string: a missing or empty string gives
      the fallback; the value is empty only when both are. */
  function StringOr(s: Option<string>, fallback: string): (r: string)
    ensures s.Some? && s.value != "" ==> r == s.value
    ensures s.None? || s.value == "" ==> r == fallback
    ensures r == "" <==> fallback == "" && (s.None? || s.value == "")
    ensures r == fallback || s == Some(r)
  {
    if s.Some? && s.value != "" then s.value else fallback
  }

  /** `throw new Error(message)` */
  function Throw(message: string): Exception {
    Error("Error", message)
  }
}
