/** The AutoRouter NOTAM proxy (app/api/AutoRouter/notams/route.ts): it asks the
    upstream API for the NOTAMs of one location and reshapes each row for the UI. */
module NotamsRoute {
  import opened Wrappers
  import opened JsText
  import opened Http

  /** The fields of an upstream NOTAM row that the reshaping reads (types/notam.d.ts). */
  datatype NotamRow = NotamRow(
    id: int,
    series: string,
    number: int,
    year: int,
    iteme: string,
    itema: seq<string>,
    startvalidity: int,
    endvalidity: int,
    lat: int,
    lon: int)

  /** The upstream body: an optional error `message`, the `total` and the `rows`. */
  datatype NotamsBody = NotamsBody(message: Option<string>, total: int, rows: seq<NotamRow>)

  /** A reshaped NOTAM; the two instants are kept in epoch milliseconds. */
  datatype FormattedNotam = FormattedNotam(
    id: int,
    title: string,
    description: string,
    location: string,
    effectiveMs: int,
    expiryMs: int,
    lat: int,
    lon: int,
    rawData: NotamRow)

  /** `number.toString().padStart(4, '0')` */
  function PaddedNumber(n: int): string {
    PadStart(IntToString(n), 4, '0')
  }

  /** The padded number has at least four characters, exactly four below 10000,
      and reads back as the NOTAM number. */
  lemma PaddedNumberSpec(n: nat)
    ensures |PaddedNumber(n)| >= 4
    ensures n < 10000 ==> |PaddedNumber(n)| == 4
    ensures ParseInt(PaddedNumber(n)) == Some(n)
  {
    ParseIntOfPadded(n, 4);
    if n < 10000 {
      assert Pow10(4) == 10000;
      NatToStringBound(n, 4);
    }
  }

  function Pow10(k: nat): nat {
    if k == 0 then 1 else 10 * Pow10(k - 1)
  }

  /** A number below 10^k has at most k digits. */
  lemma {:induction false} NatToStringBound(n: nat, k: nat)
    requires 1 <= k && n < Pow10(k)
    ensures |NatToString(n)| <= k
    decreases k
  {
    if n >= 10 {
      assert k > 1;
      assert n / 10 < Pow10(k - 1);
      NatToStringBound(n / 10, k - 1);
    }
  }

  /** `${series}${padded number}/${year}` */
  function Title(row: NotamRow): (title: string)
    ensures |title| > |row.series| + 4
    ensures title[..|row.series|] == row.series
  {
    row.series + PaddedNumber(row.number) + "/" + IntToString(row.year)
  }

  lemma ConcatParts(a: string, b: string, c: string, d: string)
    ensures var w := a + b + c + d;
      && w[..|a|] == a
      && w[|a|..|a| + |b|] == b
      && w[|a| + |b|..|a| + |b| + |c|] == c
      && w[|a| + |b| + |c|..] == d
  {
  }

  /** Where the parts of a title sit. */
  lemma TitleParts(row: NotamRow)
    ensures var title := Title(row);
      var numberEnd := |title| - |IntToString(row.year)| - 1;
      && |row.series| + |PaddedNumber(row.number)| == numberEnd
      && title[..|row.series|] == row.series
      && title[|row.series|..numberEnd] == PaddedNumber(row.number)
      && title[numberEnd..numberEnd + 1] == "/"
      && title[numberEnd + 1..] == IntToString(row.year)
  {
    ConcatParts(row.series, PaddedNumber(row.number), "/", IntToString(row.year));
  }

  /** The title of a NOTAM with a non-negative number splits back into its
      series, its number and its year. */
  lemma TitleRoundTrip(row: NotamRow)
    requires row.number >= 0
    ensures var title := Title(row);
      var numberEnd := |title| - |IntToString(row.year)| - 1;
      && |row.series| + 4 <= numberEnd
      && title[..|row.series|] == row.series
      && ParseInt(title[|row.series|..numberEnd]) == Some(row.number)
      && title[numberEnd..numberEnd + 1] == "/"
      && ParseInt(title[numberEnd + 1..]) == Some(row.year)
  {
    TitleParts(row);
    PaddedNumberSpec(row.number);
    ParseIntOfIntToString(row.year);
  }

  /** Epoch seconds to the milliseconds `new Date(...)` is given. */
  function SecondsToMillis(seconds: int): (ms: int)
    ensures ms % 1000 == 0
    ensures ms / 1000 == seconds
  {
    seconds * 1000
  }

  /** Scaling to milliseconds keeps the order of instants. */
  lemma SecondsToMillisMonotonic(a: int, b: int)
    requires a <= b
    ensures SecondsToMillis(a) <= SecondsToMillis(b)
  {
  }

  /** One row of `result.rows.map(...)`. */
  function FormatNotam(row: NotamRow): (f: FormattedNotam)
    ensures f.rawData == row
    ensures f.id == row.id && f.description == row.iteme
    ensures f.lat == row.lat && f.lon == row.lon
    ensures f.effectiveMs / 1000 == row.startvalidity && f.expiryMs / 1000 == row.endvalidity
    ensures |row.itema| == 1 ==> f.location == row.itema[0]
    ensures row.itema == [] ==> f.location == ""
  {
    FormattedNotam(
      row.id,
      Title(row),
      row.iteme,
      Join(row.itema, ", "),
      SecondsToMillis(row.startvalidity),
      SecondsToMillis(row.endvalidity),
      row.lat,
      row.lon,
      row)
  }

  /** The joined location holds every `itema` entry with ", " between each two. */
  lemma LocationLength(row: NotamRow)
    requires row.itema != []
    ensures |FormatNotam(row).location| == TotalLength(row.itema) + 2 * (|row.itema| - 1)
  {
    JoinLength(row.itema, ", ");
  }

  /** `result.rows.map(...)` */
  function FormatNotams(rows: seq<NotamRow>): (formatted: seq<FormattedNotam>)
    ensures |formatted| == |rows|
    ensures forall i | 0 <= i < |rows| :: formatted[i] == FormatNotam(rows[i])
  {
    seq(|rows|, i requires 0 <= i < |rows| => FormatNotam(rows[i]))
  }

  function RawRows(formatted: seq<FormattedNotam>): seq<NotamRow> {
    seq(|formatted|, i requires 0 <= i < |formatted| => formatted[i].rawData)
  }

  /** The reshaping loses nothing: the rows come back, in order, from `rawData`. */
  lemma FormatNotamsKeepsRows(rows: seq<NotamRow>)
    ensures RawRows(FormatNotams(rows)) == rows
  {
  }

  /** The upstream request: the `itemas` filter, paging, and the bearer token. */
  datatype NotamRequest = NotamRequest(itemas: string, offset: string, limit: string, bearer: string)

  /** The query parameters with their defaults, as the handler reads them. */
  function BuildNotamRequest(query: Query, token: string): (r: NotamRequest)
    ensures "icao" !in query ==> r.itemas == "[\"\"]"
    ensures "offset" !in query ==> r.offset == "0"
    ensures "limit" !in query ==> r.limit == "10"
    ensures r.bearer == token
  {
    var icao := ParamOr(query, "icao", "");
    var limit := ParamOr(query, "limit", "10");
    var offset := ParamOr(query, "offset", "0");
    NotamRequest("[\"" + icao + "\"]", offset, limit, token)
  }

  datatype NotamsReply = NotamsPage(total: int, notams: seq<FormattedNotam>) | NotamsError(error: string)

  /** The upstream failure message: the body's `message`, or a fixed text. */
  function UpstreamFailure(body: NotamsBody): string {
    StringOr(body.message, "Failed to fetch NOTAMs")
  }

  /** `GET(request)`. `token` is what `getAccessToken()` gave and `fetch` what the
      upstream call resolves to; every exception lands in the catch, which answers
      500 with the error's message. The body is parsed before `ok` is checked. */
  function NotamsGet(query: Query, token: Result<string>, fetch: NotamRequest -> Result<Upstream<NotamsBody>>)
    : (r: Reply<NotamsReply>)
    ensures r.status == 200 || r.status == 500
    ensures r.status == 200 <==> r.body.NotamsPage?
  {
    match NotamsOutcome(query, token, fetch)
    case Ok(body) => Reply(200, NotamsPage(body.total, FormatNotams(body.rows)))
    case Err(e) => Reply(500, NotamsError(MessageOr(e, "Unknown error")))
  }

  /** The `try` block up to the reshaping: the upstream body, or what it throws. */
  function NotamsOutcome(query: Query, token: Result<string>, fetch: NotamRequest -> Result<Upstream<NotamsBody>>)
    : Result<NotamsBody>
  {
    var bearer :- token;
    var response :- fetch(BuildNotamRequest(query, bearer));
    var result :- response.body;
    if !response.Ok() then Err(Throw(UpstreamFailure(result))) else Ok(result)
  }

  /** The handler answers 200 exactly when the token, the call and the body all
      succeed and the status is OK; the page then carries the upstream total and
      the reshaped rows. A non-OK status answers 500 with the upstream message or
      'Failed to fetch NOTAMs'. */
  lemma NotamsGetSpec(query: Query, token: Result<string>, fetch: NotamRequest -> Result<Upstream<NotamsBody>>)
    ensures var r := NotamsGet(query, token, fetch);
      && (r.status == 200 <==>
          token.Ok? && fetch(BuildNotamRequest(query, token.value)).Ok?
          && fetch(BuildNotamRequest(query, token.value)).value.body.Ok?
          && fetch(BuildNotamRequest(query, token.value)).value.Ok())
      && (r.status == 200 ==>
          var body := fetch(BuildNotamRequest(query, token.value)).value.body.value;
          r.body == NotamsPage(body.total, FormatNotams(body.rows)))
      && (token.Ok? && fetch(BuildNotamRequest(query, token.value)).Ok?
          && fetch(BuildNotamRequest(query, token.value)).value.body.Ok?
          && !fetch(BuildNotamRequest(query, token.value)).value.Ok() ==>
          r == Reply(500, NotamsError(UpstreamFailure(fetch(BuildNotamRequest(query, token.value)).value.body.value))))
  {
  }

  /** A failed token request answers 500 with its message, and nothing is fetched. */
  lemma TokenFailureAnswers500(query: Query, e: Exception, fetch: NotamRequest -> Result<Upstream<NotamsBody>>)
    ensures NotamsGet(query, Err(e), fetch) == Reply(500, NotamsError(MessageOr(e, "Unknown error")))
  {
  }
}
