/** The AutoRouter PAMS document proxy (app/api/AutoRouter/pams/route.ts): it
    lists the documents of the airport EDTY, picks the one with the requested
    file name and returns its PDF as a download. */
module PamsRoute {
  import opened Wrappers
  import opened JsArray
  import opened Http

  /** A PAMS document record (types/pams.d.ts), the fields the handler reads. */
  datatype PamsDocument = PamsDocument(docid: int, filename: string)

  /** The airport listing: an optional `message` and the five document
      categories, each possibly missing. */
  datatype AirportDocuments = AirportDocuments(
    message: Option<string>,
    airport: Option<seq<PamsDocument>>,
    arrival: Option<seq<PamsDocument>>,
    departure: Option<seq<PamsDocument>>,
    approach: Option<seq<PamsDocument>>,
    vfr: Option<seq<PamsDocument>>)

  /** `category || []` */
  function OrEmpty(category: Option<seq<PamsDocument>>): seq<PamsDocument> {
    category.GetOr([])
  }

  /** `[...Airport, ...Arrival, ...Departure, ...Approach, ...VFR]` */
  function AllDocuments(listing: AirportDocuments): (all: seq<PamsDocument>)
    ensures |all| == |OrEmpty(listing.airport)| + |OrEmpty(listing.arrival)| + |OrEmpty(listing.departure)|
      + |OrEmpty(listing.approach)| + |OrEmpty(listing.vfr)|
  {
    OrEmpty(listing.airport) + OrEmpty(listing.arrival) + OrEmpty(listing.departure)
      + OrEmpty(listing.approach) + OrEmpty(listing.vfr)
  }

  /** A document is a candidate iff it is listed in one of the five categories;
      a missing category contributes nothing. */
  lemma AllDocumentsMembership(listing: AirportDocuments, d: PamsDocument)
    ensures d in AllDocuments(listing) <==>
      || (listing.airport.Some? && d in listing.airport.value)
      || (listing.arrival.Some? && d in listing.arrival.value)
      || (listing.departure.Some? && d in listing.departure.value)
      || (listing.approach.Some? && d in listing.approach.value)
      || (listing.vfr.Some? && d in listing.vfr.value)
  {
  }

  /** The Airport category comes first: a match there wins over every other category. */
  lemma AirportCategoryFirst(listing: AirportDocuments, filename: string, k: nat)
    requires listing.airport.Some? && k < |listing.airport.value|
    requires listing.airport.value[k].filename == filename
    requires forall j | 0 <= j < k :: listing.airport.value[j].filename != filename
    ensures FindDocument(listing, filename) == Some(listing.airport.value[k])
  {
    assert AllDocuments(listing)[k] == listing.airport.value[k];
  }

  function HasFilename(filename: string): PamsDocument -> bool {
    (doc: PamsDocument) => doc.filename == filename
  }

  /** `allDocuments.find(doc => doc.filename === filename)` */
  function FindDocument(listing: AirportDocuments, filename: string): (r: Option<PamsDocument>)
    ensures r.Some? ==> r.value.filename == filename && r.value in AllDocuments(listing)
    ensures r.None? <==> forall d | d in AllDocuments(listing) :: d.filename != filename
    ensures r.Some? ==> exists k | 0 <= k < |AllDocuments(listing)| ::
      AllDocuments(listing)[k] == r.value
      && forall j | 0 <= j < k :: AllDocuments(listing)[j].filename != filename
  {
    Find(HasFilename(filename), AllDocuments(listing))
  }

  /** The PDF download: content type and `attachment; filename="..."`. */
  datatype PamsReply =
    | PdfDownload(contentType: string, disposition: string, pdf: seq<bv8>)
    | PamsError(error: string)

  const DispositionPrefix: string := "attachment; filename=\""

  function Disposition(filename: string): (d: string)
    ensures |d| == |filename| + 23
    ensures d[..22] == DispositionPrefix && d[|d| - 1] == '"'
  {
    DispositionPrefix + filename + "\""
  }

  /** The file name can be read back from the Content-Disposition header. */
  lemma DispositionCarriesFilename(filename: string)
    ensures var d := Disposition(filename); d[22..|d| - 1] == filename
  {
    var d := Disposition(filename);
    assert d == DispositionPrefix + filename + "\"";
    assert |DispositionPrefix| == 22;
  }

  /** The `try` block: the file name check, the token, the listing (read as JSON
      before `ok` is checked), the lookup and the PDF. `airportFetch` and
      `pdfFetch` are what the two calls resolve to, given the bearer token (and
      the document id). */
  function PamsOutcome(
    query: Query,
    token: Result<string>,
    airportFetch: string -> Result<Upstream<AirportDocuments>>,
    pdfFetch: (int, string) -> Result<Upstream<seq<bv8>>>)
    : (r: Result<(string, seq<bv8>)>)
    ensures r.Ok? ==> Param(query, "filename") == Some(r.value.0) && r.value.0 != ""
  {
    var filename := Param(query, "filename").GetOr("");
    if filename == "" then Err(Throw("Filename parameter is required"))
    else
      var bearer :- token;
      var airportResponse :- airportFetch(bearer);
      var listing :- airportResponse.body;
      if !airportResponse.Ok() then Err(Throw(StringOr(listing.message, "Failed to fetch airport documents")))
      else
        match FindDocument(listing, filename)
        case None => Err(Throw("Document " + filename + " not found for EDTY"))
        case Some(document) =>
          var pdfResponse :- pdfFetch(document.docid, bearer);
          if !pdfResponse.Ok() then Err(Throw("Failed to fetch PDF document"))
          else
            var pdf :- pdfResponse.body;
            Ok((filename, pdf))
  }

  /** `GET(request)`: the PDF with its download headers, or 500 with the message. */
  function PamsGet(
    query: Query,
    token: Result<string>,
    airportFetch: string -> Result<Upstream<AirportDocuments>>,
    pdfFetch: (int, string) -> Result<Upstream<seq<bv8>>>)
    : (r: Reply<PamsReply>)
    ensures r.status == 200 <==> r.body.PdfDownload?
    ensures r.status == 200 || r.status == 500
  {
    match PamsOutcome(query, token, airportFetch, pdfFetch)
    case Ok((filename, pdf)) => Reply(200, PdfDownload("application/pdf", Disposition(filename), pdf))
    case Err(e) => Reply(500, PamsError(MessageOr(e, "Unknown error")))
  }

  /** A missing or empty file name answers 500 before any request is made:
      the answer does not depend on the token or on either upstream call. */
  lemma MissingFilename(
    query: Query,
    token: Result<string>,
    airportFetch: string -> Result<Upstream<AirportDocuments>>,
    pdfFetch: (int, string) -> Result<Upstream<seq<bv8>>>)
    requires "filename" !in query || query["filename"] == ""
    ensures PamsGet(query, token, airportFetch, pdfFetch) == Reply(500, PamsError("Filename parameter is required"))
  {
  }

  /** A successful download is the PDF of the first listed document with the
      requested name, attached under that name; a listing without it answers
      500 "Document <name> not found for EDTY"; a failed listing answers 500 with
      its `message` or 'Failed to fetch airport documents'; once the document is
      found, a rejected PDF request answers 500 with its message, a non-OK PDF
      response 500 "Failed to fetch PDF document", and a readable OK response
      the download. */
  lemma PamsGetSpec(
    query: Query,
    bearer: string,
    airportFetch: string -> Result<Upstream<AirportDocuments>>,
    pdfFetch: (int, string) -> Result<Upstream<seq<bv8>>>)
    requires "filename" in query && query["filename"] != ""
    requires airportFetch(bearer).Ok? && airportFetch(bearer).value.body.Ok?
    ensures var filename := query["filename"];
      var response := airportFetch(bearer).value;
      var listing := response.body.value;
      var r := PamsGet(query, Ok(bearer), airportFetch, pdfFetch);
      && (!response.Ok() ==>
          r == Reply(500, PamsError(StringOr(listing.message, "Failed to fetch airport documents"))))
      && (response.Ok() && FindDocument(listing, filename).None? ==>
          r == Reply(500, PamsError("Document " + filename + " not found for EDTY")))
      && (response.Ok() && FindDocument(listing, filename).Some? ==>
          var document := FindDocument(listing, filename).value;
          var pdf := pdfFetch(document.docid, bearer);
          && (pdf.Err? ==> r == Reply(500, PamsError(MessageOr(pdf.error, "Unknown error"))))
          && (pdf.Ok? && !pdf.value.Ok() ==> r == Reply(500, PamsError("Failed to fetch PDF document")))
          && (pdf.Ok? && pdf.value.Ok() && pdf.value.body.Ok? ==>
                r == Reply(200, PdfDownload("application/pdf", Disposition(filename), pdf.value.body.value))))
      && (r.status == 200 ==>
          && response.Ok()
          && FindDocument(listing, filename).Some?
          && var document := FindDocument(listing, filename).value;
          && pdfFetch(document.docid, bearer).Ok?
          && pdfFetch(document.docid, bearer).value.Ok()
          && r.body == PdfDownload("application/pdf", Disposition(filename), pdfFetch(document.docid, bearer).value.body.value))
  {
  }
}
