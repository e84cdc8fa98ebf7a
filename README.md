# Enroute NOTAM correlator and flight-planning helpers, in Dafny

This project models the logic of a Next.js flight-planning application in Dafny and proves properties about it.

Its centre is the **enroute NOTAM/airspace correlator**, in two versions: the current `lib/hooks/enroute/getEnrouteNotams.ts` and the earlier `lib/hooks/getEnrouteNotams.ts`. The correlator works in three steps:

1. It buffers the departure→arrival line by 18 520 m into a corridor.
2. It keeps the airspaces of a catalog that intersect the corridor.
3. It selects NOTAMs two independent ways:
   - by the identifiers in their `airspaces` lists;
   - by whether their position, stored as degrees × 10^7, lies inside a selected airspace.

The geometry library (buffer, intersection, point-in-polygon) is an uninterpreted oracle (`Turf.Oracle`). Coordinates are unscaled by exact `real` division.

Around the correlator, the project models the decision logic of the application's route handlers, services, hooks and components:

- the NOTAM route's record reshaping;
- the bearer-token cache;
- the PAMS document lookup;
- the NOTAM card;
- the airport search route, the client service and the search hook;
- the suggestion list;
- the frequency grouping and expand toggles;
- the TAF period rendering;
- the TAF and METAR weather routes with their nearest-station fallback.

JavaScript values are a datatype, `Js.Value`: undefined, null, booleans, integer numbers, strings, arrays and objects. A thrown exception is the `Err` case of `Wrappers.Result`. Property reads that throw on null or undefined are written out (`Js.Get`), and so are array methods whose callbacks may throw (`JsArray.FilterJs`, `SomeJs`, `MapJs`, `FindJs`).

Network calls, the clock and the geometry library are parameters:

- each upstream call is a function from the request to what `fetch` resolves to, or the exception it rejects with;
- the clock readings are integers passed in.

State that the source keeps in React hooks or module variables is a `class` whose methods update its fields: the token cache, the search hook, and the expand flags of the cards.

The enroute weather loop of the weather routes (`AvwxWeather.FetchEnrouteWeather`) is the one loop: a method with loop invariants, proved equal to one `EnrouteResult` per point. Two step-by-step computations of the source have no loop and are straight-line methods whose `ensures` equate them to a specification function: the reassigned `numPoints` (`AvwxWeather.ParseNumPoints`, equal to `NumPointsOf`) and the successive `params.append` calls of the search route (`SearchAirportRoute.BuildUpstreamQuery`, equal to `UpstreamQuery`).

## Model

| member | source | states |
|---|---|---|
| Js.Get | lib/hooks/enroute/getEnrouteNotams.ts:29 | `v.key` throws exactly for null and undefined, and otherwise reads the property (undefined when absent) |
| Turf.MakePoint | lib/hooks/enroute/getEnrouteNotams.ts:70 | `turf.point` succeeds iff both coordinates are numbers, keeps them in order, and otherwise throws "coordinates must contain numbers" |
| Turf.Feature | lib/hooks/enroute/getEnrouteNotams.ts:31-35 | the feature built around a geometry carries exactly that geometry |
| JsArray.Filter | lib/hooks/enroute/getEnrouteNotams.ts:28-38 | the result holds only elements of the input that pass the test, and every element of the input that passes is in it |
| JsArray.FilterIsSubsequence | lib/hooks/enroute/getEnrouteNotams.ts:28-38 | a filtered list is an order-preserving subsequence of its input |
| JsArray.FilterCongruence | lib/hooks/enroute/getEnrouteNotams.ts:51-58 | two tests that agree on every element select the same list |
| JsArray.FilterNone | lib/hooks/enroute/getEnrouteNotams.ts:51-58 | a test that rejects every element gives the empty list |
| JsArray.FilterJs | lib/hooks/enroute/getEnrouteNotams.ts:28-38 | `filter` succeeds iff the callback succeeds on every element, and then keeps the elements answered true, in order; an exception is the first one met |
| JsArray.SomeJs | lib/hooks/enroute/getEnrouteNotams.ts:54-57 | `some` stops at the first true; it throws only for an exception met before a true |
| JsArray.NothingFailsBeforeHit | lib/hooks/enroute/getEnrouteNotams.ts:74-85 | relates "no failure before the first hit" to the positions of failures and hits |
| JsArray.SomeJsAgrees | lib/hooks/enroute/getEnrouteNotams.ts:74-85 | a `some` whose callback fails where `fails` holds and hits where `hit` holds throws iff a failure precedes the first hit, and otherwise answers whether any element is a hit |
| JsArray.FilterJsCongruence | lib/hooks/enroute/getEnrouteNotams.ts:51-58 | callbacks that give the same results give the same filter result, exceptions included |
| JsArray.SomeJsCongruence | lib/hooks/getEnrouteNotams.ts:39 | callbacks that give the same results give the same `some` result |
| JsArray.FilterJsAgrees | lib/hooks/enroute/getEnrouteNotams.ts:28-38 | a throwing filter that does not throw selects exactly what the total filter with the same answers selects |
| JsArray.MapJs | components/Airport/airportBlock.tsx:53 | `map` succeeds iff the callback succeeds on every element, and then gives one result per element, in order |
| JsArray.FindJs | app/api/openAip/searchAirport/route.ts:60 | `find` returns the first element answered true, all earlier elements having answered false; it gives none iff every answer is false; an exception is the first one met |
| JsArray.Find | app/api/AutoRouter/pams/route.ts:43 | `find` gives the first element satisfying the test, or none when no element does |
| JsText.TrimStart | services/airportApi.ts:25 | the result is a suffix of the input, the characters removed are white space, and it does not start with white space |
| JsText.TrimEnd | services/airportApi.ts:25 | the result is a prefix of the input, the characters removed are white space, and it does not end with white space |
| JsText.TrimEmptyIffBlank | services/airportApi.ts:25 | a string trims to nothing exactly when all its characters are white space |
| JsText.ToUpper | app/api/openAip/searchAirport/route.ts:9-10 | upper-casing keeps the length and changes only the letters a-z, each into its capital |
| JsText.ToUpperIdempotent | app/api/openAip/searchAirport/route.ts:9-10 | upper-casing twice is upper-casing once |
| JsText.NatToString | app/api/AutoRouter/notams/route.ts:38 | the decimal text of a natural number is a non-empty run of digits |
| JsText.DigitRun | app/api/avwx/taf/route.ts:307 | the digit run is the longest prefix of decimal digits |
| JsText.ParseInt | app/api/avwx/taf/route.ts:307-308 | `parseInt` is NaN exactly when no digit follows the white space and sign |
| JsText.LeadingDigits | app/api/avwx/taf/route.ts:307 | there is no number exactly when the text is empty or does not start with a digit |
| JsText.LeadingDigitsThen | app/api/avwx/taf/route.ts:307 | digits followed by a non-digit read as the value of those digits, whatever follows |
| JsText.ParseIntOfUnsigned | app/api/avwx/taf/route.ts:307 | a text starting with a digit is read from its leading digits, with no trimming or sign |
| JsText.ParseIntOfMinus | app/api/avwx/taf/route.ts:307 | a minus sign before leading digits worth `v` reads as `-v` |
| JsText.DigitsValueOfNatToString | app/api/AutoRouter/notams/route.ts:38 | the digits of a natural number's text have that number as their value |
| JsText.DigitRunOfDigits | app/api/AutoRouter/notams/route.ts:38 | a string of digits is its own digit run |
| JsText.ParseIntOfIntToString | app/api/avwx/taf/route.ts:307 | `parseInt(String(n))` is `n` for every integer |
| JsText.DigitRunOfDigitsThen | components/Airport/AirportSuggestions.tsx:44 | the digit run of digits followed by a non-digit stops where the digits stop |
| JsText.ParseIntOfIntToStringThen | components/Airport/AirportSuggestions.tsx:44 | `parseInt` reads an integer back from the front of its text followed by anything that does not start with a digit |
| JsText.IntToStringInjective | app/api/AutoRouter/notams/route.ts:38 | distinct integers have distinct texts |
| JsText.Repeat | app/api/AutoRouter/notams/route.ts:38 | the fill run has the given length and holds only the fill character |
| JsText.PadStart | app/api/AutoRouter/notams/route.ts:38 | `padStart` gives the wider of the text and the width, ends with the text, and is fill before it |
| JsText.DigitsValueLeadingZeros | app/api/AutoRouter/notams/route.ts:38 | leading zeros do not change the value of a digit string |
| JsText.ZerosValue | app/api/AutoRouter/notams/route.ts:38 | a run of zeros has value 0 |
| JsText.ParseIntOfDigits | app/api/AutoRouter/notams/route.ts:38 | a non-empty run of digits reads back as its decimal value |
| JsText.ParseIntOfPadded | app/api/AutoRouter/notams/route.ts:38 | a zero-padded number text reads back as the number |
| JsText.ValueToString | services/airportApi.ts:39 | `String(v)`: a string is itself and an integer its decimal text |
| JsText.Join | app/api/AutoRouter/notams/route.ts:40 | `join` of one element is that element and of none is empty |
| JsText.JoinSnoc | app/api/AutoRouter/notams/route.ts:40 | joining one more element appends the separator and that element |
| JsText.JoinLength | app/api/AutoRouter/notams/route.ts:40 | the joined text is as long as the parts plus one separator between each two |
| Http.ParamOr | app/api/AutoRouter/notams/route.ts:9-11 | an absent or empty parameter gives the default, any other its value; the result is always the parameter or the default, and is empty only when both are, so a non-empty default guarantees a non-empty value |
| Http.StringOr | app/api/avwx/taf/route.ts:300-301 | a missing or empty string gives the fallback, any other itself; the result is empty only when both are |
| EnrouteNotams.AlongRouteCallbackSpec | lib/hooks/enroute/getEnrouteNotams.ts:28-38 | the airspace callback throws exactly for a null or undefined record, and answers true exactly for a record with a geometry that intersects the corridor |
| EnrouteNotams.AlongRouteCallback | lib/hooks/enroute/getEnrouteNotams.ts:28-38 | the airspace filter callback; stated by `AlongRouteCallbackSpec` |
| EnrouteNotams.GetAirspacesAlongRoute | lib/hooks/enroute/getEnrouteNotams.ts:20-39 | the catalog is read only from an array `items` field: anything else selects nothing |
| EnrouteNotams.AirspacesAlongRouteSpec | lib/hooks/enroute/getEnrouteNotams.ts:20-39 | the selection is exactly the items with a geometry intersecting the corridor, as a subsequence in catalog order; it throws iff an item is null or undefined |
| EnrouteNotams.SelectedAirspacesHaveGeometry | lib/hooks/enroute/getEnrouteNotams.ts:29 | every selected airspace carries a truthy geometry |
| EnrouteNotams.RelevantIds | lib/hooks/enroute/getEnrouteNotams.ts:49 | there is one identifier per relevant airspace |
| EnrouteNotams.FilterRelevantNotams | lib/hooks/enroute/getEnrouteNotams.ts:43-59 | a NOTAM argument that is not an array selects nothing |
| EnrouteNotams.EntryCallbackSpec | lib/hooks/enroute/getEnrouteNotams.ts:54-57 | an entry throws exactly when null or undefined, and matches exactly when its normalised identifier (the string, or the object's `id`) is relevant |
| EnrouteNotams.ByIdCallbackSpec | lib/hooks/enroute/getEnrouteNotams.ts:51-58 | where the NOTAM callback does not throw, it answers whether the NOTAM is selected by identifier |
| EnrouteNotams.ByIdCallback | lib/hooks/enroute/getEnrouteNotams.ts:51-58 | the identifier filter callback; stated by `ByIdCallbackSpec` |
| EnrouteNotams.FilterRelevantNotamsSpec | lib/hooks/enroute/getEnrouteNotams.ts:43-59 | a NOTAM is kept iff one of its normalised `airspaces` entries is a relevant identifier; the result is a subsequence of the input |
| EnrouteNotams.NoAirspacesNeverSelectedById | lib/hooks/enroute/getEnrouteNotams.ts:52 | a NOTAM whose `airspaces` is missing, not an array or empty is never selected by identifier |
| EnrouteNotams.Unscale | lib/hooks/enroute/getEnrouteNotams.ts:68-69 | a number is divided by 10 000 000 exactly; undefined and objects give NaN |
| EnrouteNotams.FilterNotamsByAirspace | lib/hooks/enroute/getEnrouteNotams.ts:61-95 | a null or undefined argument throws; otherwise the NOTAMs are read only from an array `notamsObj.notams`, and anything else selects nothing |
| EnrouteNotams.InsideCallbackSpec | lib/hooks/enroute/getEnrouteNotams.ts:74-85 | the airspace callback throws exactly for a null or undefined airspace, and answers true exactly for an airspace with a geometry containing the point |
| EnrouteNotams.ByPointCallbackSpec | lib/hooks/enroute/getEnrouteNotams.ts:66-94 | the NOTAM callback succeeds iff both unscaled coordinates are numbers, and then answers whether the point `[lon, lat]` is inside some airspace with a geometry; a null NOTAM throws a TypeError, any other NOTAM with a non-numeric coordinate throws the point constructor's error before an airspace is examined |
| EnrouteNotams.ByPointCallback | lib/hooks/enroute/getEnrouteNotams.ts:66-94 | the position filter callback; stated by `ByPointCallbackSpec` |
| EnrouteNotams.ByPointFilterCallbackSpec | lib/hooks/enroute/getEnrouteNotams.ts:66-94 | over non-null airspaces the callback fails exactly for a NOTAM without two numeric coordinates and otherwise answers whether the NOTAM's point is inside some airspace |
| EnrouteNotams.FilterNotamsByAirspaceSpec | lib/hooks/enroute/getEnrouteNotams.ts:61-95 | the filter succeeds iff the argument is not null and every NOTAM in `notamsObj.notams` has two numeric coordinates; a NOTAM is kept iff its unscaled point lies inside at least one airspace with a geometry; geometry-less airspaces never match; the result is a subsequence |
| EnrouteNotams.GetEnrouteNotams | lib/hooks/enroute/getEnrouteNotams.ts:100-119 | the corridor is the 18 520 m buffer of the departure→arrival line |
| EnrouteNotams.GetEnrouteNotamsSpec | lib/hooks/enroute/getEnrouteNotams.ts:106-118 | the three result lists are the airspace selection and the two NOTAM selections, both given the same `notams` value |
| EnrouteNotams.AtMostOneNotamSelectionNonEmpty | lib/hooks/enroute/getEnrouteNotams.ts:114-115 | a plain NOTAM array gives no geometric matches and a `{notams}` wrapper no identifier matches, so at most one list is non-empty |
| EnrouteNotams.NullNotamsThrow | lib/hooks/enroute/getEnrouteNotams.ts:62 | a null or undefined NOTAM argument makes the correlator throw once the airspaces are selected |
| LegacyEnrouteNotams.LegacyGetAirspacesAlongRoute | lib/hooks/getEnrouteNotams.ts:16-32 | a catalog that is not an array throws (null and undefined on the read, others on the call) |
| LegacyEnrouteNotams.LegacyAirspacesAgree | lib/hooks/getEnrouteNotams.ts:20-31 | on an array, the earlier airspace filter is the current one given that array as `items`: geometry-less records dropped, order kept |
| LegacyEnrouteNotams.LegacyFilterRelevantNotams | lib/hooks/getEnrouteNotams.ts:34-41 | a NOTAM list that is not an array throws |
| LegacyEnrouteNotams.LegacyByIdCallbackSpec | lib/hooks/getEnrouteNotams.ts:37-40 | the callback throws for a null NOTAM and for a truthy non-array `airspaces`; otherwise it answers whether a raw entry is a relevant identifier |
| LegacyEnrouteNotams.LegacyByIdCallback | lib/hooks/getEnrouteNotams.ts:37-40 | the earlier identifier filter callback; stated by `LegacyByIdCallbackSpec` |
| LegacyEnrouteNotams.LegacyFilterRelevantNotamsSpec | lib/hooks/getEnrouteNotams.ts:34-41 | the earlier filter keeps exactly the NOTAMs one of whose raw entries is relevant, in order; a missing or empty `airspaces` never matches |
| LegacyEnrouteNotams.CallbacksAgreeOnPlainLists | lib/hooks/getEnrouteNotams.ts:39 | on NOTAMs whose entries are plain strings, the earlier callback is the current one |
| LegacyEnrouteNotams.IdentifierFiltersAgree | lib/hooks/getEnrouteNotams.ts:34-41 | on NOTAM lists with plain identifier strings both versions select the same NOTAMs and throw the same exceptions |
| LegacyEnrouteNotams.ObjectEntryOnlyMatchedByCurrentVersion | lib/hooks/getEnrouteNotams.ts:35-39 | an entry `{id: "A1"}` is matched by the current version and missed by the earlier one |
| LegacyEnrouteNotams.LegacyGetEnrouteNotams | lib/hooks/getEnrouteNotams.ts:43-62 | the earlier correlator returns a result only when both the airspaces and the NOTAMs are arrays |
| LegacyEnrouteNotams.LegacyAgreesWithCurrent | lib/hooks/getEnrouteNotams.ts:9-14 | on arrays the two versions agree on airspaces and identifier selection, the current one finds nothing by position, and the module corridor is the fixed 18 520 m buffer |
| LegacyEnrouteNotams.ModuleCorridor | lib/hooks/getEnrouteNotams.ts:12-14 | the corridor built at module load; `LegacyAgreesWithCurrent` states it is the corridor used for the fixed departure and arrival |
| NotamsRoute.PaddedNumberSpec | app/api/AutoRouter/notams/route.ts:38 | the padded number has at least four characters, exactly four below 10000, and reads back as the NOTAM number |
| NotamsRoute.NatToStringBound | app/api/AutoRouter/notams/route.ts:38 | a number below 10^k has at most k digits |
| NotamsRoute.Title | app/api/AutoRouter/notams/route.ts:38 | the title starts with the series and is more than four characters longer than it |
| NotamsRoute.ConcatParts | app/api/AutoRouter/notams/route.ts:38 | where each of four concatenated parts sits |
| NotamsRoute.TitleParts | app/api/AutoRouter/notams/route.ts:38 | the series, the padded number, "/" and the year sit at fixed offsets of the title |
| NotamsRoute.TitleRoundTrip | app/api/AutoRouter/notams/route.ts:38 | the title of a NOTAM with a non-negative number splits back into its series, number and year |
| NotamsRoute.SecondsToMillis | app/api/AutoRouter/notams/route.ts:41-42 | the milliseconds are a whole multiple of 1000 that divides back to the seconds |
| NotamsRoute.SecondsToMillisMonotonic | app/api/AutoRouter/notams/route.ts:41-42 | scaling to milliseconds keeps the order of instants |
| NotamsRoute.FormatNotam | app/api/AutoRouter/notams/route.ts:36-46 | the id and description are `id` and `iteme`, the instants divide back to the validity seconds, lat/lon are passed through, `rawData` keeps the row, and a one-entry `itema` is the location itself |
| NotamsRoute.LocationLength | app/api/AutoRouter/notams/route.ts:40 | the location holds every `itema` entry with ", " between each two |
| NotamsRoute.FormatNotams | app/api/AutoRouter/notams/route.ts:36 | one formatted NOTAM per row, in order |
| NotamsRoute.FormatNotamsKeepsRows | app/api/AutoRouter/notams/route.ts:36-46 | the rows come back, in order, from `rawData` |
| NotamsRoute.BuildNotamRequest | app/api/AutoRouter/notams/route.ts:9-22 | icao defaults to '' (so `itemas` is `[""]`), limit to '10' and offset to '0'; the bearer is the token |
| NotamsRoute.NotamsGet | app/api/AutoRouter/notams/route.ts:6-63 | the route answers 200 with a page or 500 with an error, and nothing else |
| NotamsRoute.NotamsGetSpec | app/api/AutoRouter/notams/route.ts:28-61 | the page is answered iff token and request succeed with an OK status, carrying the upstream total and the reshaped rows; a non-OK status answers 500 with the upstream message or 'Failed to fetch NOTAMs' |
| NotamsRoute.NotamsOutcome | app/api/AutoRouter/notams/route.ts:13-33 | the `try` block up to the reshaping; stated by `NotamsGetSpec` and `TokenFailureAnswers500` |
| NotamsRoute.TokenFailureAnswers500 | app/api/AutoRouter/notams/route.ts:13 | a failed token request answers 500 with its message, whatever the upstream would answer |
| NotamBlock.BeforeNewline | components/Airport/AirportNotamBlock.tsx:96 | the first line is a prefix without a line feed, and the text either ends there or continues with a line feed |
| NotamBlock.FirstLine | components/Airport/AirportNotamBlock.tsx:94-98 | no preview holds a line feed or is longer than 123 characters |
| NotamBlock.FirstLineSpec | components/Airport/AirportNotamBlock.tsx:96-97 | the preview is the first line when it has at most 120 characters, and otherwise its first 120 characters followed by '...' |
| NotamBlock.FirstLineIdempotent | components/Airport/AirportNotamBlock.tsx:94-98 | taking the first line of a preview gives the preview back |
| NotamBlock.BeforeNewlineOfLine | components/Airport/AirportNotamBlock.tsx:96 | a text without a line feed is its own first line |
| NotamBlock.SeverityMappingsAgree | components/Airport/AirportNotamBlock.tsx:62-78 | 'high' is error, 'low' is info, everything else (absent included) is warning, and the icon always matches the colour |
| NotamBlock.SeverityColor | components/Airport/AirportNotamBlock.tsx:62-78 | the chip colour of a severity; stated by `SeverityMappingsAgree` |
| NotamBlock.SeverityIconFor | components/Airport/AirportNotamBlock.tsx:62-78 | the icon of a severity, always the one of its colour; stated by `SeverityMappingsAgree` |
| NotamBlock.ToggleNotamTwice | components/Airport/AirportNotamBlock.tsx:58-60 | toggling the same NOTAM twice restores the state iff no NOTAM or that NOTAM was open |
| NotamBlock.NotamBlockState.constructor | components/Airport/AirportNotamBlock.tsx:51-52 | the card starts collapsed with no NOTAM open |
| NotamBlock.NotamBlockState.ToggleExpand | components/Airport/AirportNotamBlock.tsx:54-56 | the card flips and the open NOTAM is kept |
| NotamBlock.NotamBlockState.ToggleNotamExpand | components/Airport/AirportNotamBlock.tsx:58-60 | clicking the open NOTAM closes it and any other opens it, leaving `expanded` alone |
| NotamBlock.Preview | components/Airport/AirportNotamBlock.tsx:171-194 | at most the first three NOTAMs are previewed, in order, and a "+ (total − 3) more" note appears iff the total exceeds three |
| NotamBlock.PreviewLineOf | components/Airport/AirportNotamBlock.tsx:185 | a preview line has the severity colour; its text is the first description line or, when that is empty, the title, and is empty only when both are |
| NotamBlock.RenderPrecedence | components/Airport/AirportNotamBlock.tsx:100-145 | loading wins over an error, an error over a zero total, and only then is the list shown |
| NotamBlock.Render | components/Airport/AirportNotamBlock.tsx:100-275 | the view for the block's state; stated by `RenderPrecedence`, `Preview` and `ListViewSpec` |
| NotamBlock.ListViewSpec | components/Airport/AirportNotamBlock.tsx:170-275 | collapsed: the preview; expanded: one entry per NOTAM in order, with the full text under exactly the open one |
| Auth.FreshTokenLifetime | lib/auth.ts:7-30 | a token with a lifetime of `seconds` is accepted until one minute before it lapses, and not at that instant or after |
| Auth.TokenValid | lib/auth.ts:7 | the cache test `accessToken && tokenExpiry && tokenExpiry > Date.now()`; stated by `FreshTokenLifetime`, `ValidityMonotonic` and `ShortLifetimeNeverValid` |
| Auth.ValidityMonotonic | lib/auth.ts:7 | a token valid later was valid earlier, and an expired one stays expired |
| Auth.ShortLifetimeNeverValid | lib/auth.ts:30 | a lifetime of a minute or less is never accepted afterwards |
| Auth.TokenCache.constructor | lib/auth.ts:2-3 | the cache starts with no token and no expiry |
| Auth.TokenCache.GetAccessToken | lib/auth.ts:5-33 | a cached token with an expiry after now is returned without a request; otherwise a failed request throws and leaves the cache alone, and a successful one stores `access_token` with expiry receivedAt + expires_in·1000 − 60000 and returns it |
| PamsRoute.AllDocuments | app/api/AutoRouter/pams/route.ts:35-41 | the candidates number the five categories' documents together, a missing category counting none |
| PamsRoute.AllDocumentsMembership | app/api/AutoRouter/pams/route.ts:35-41 | a document is a candidate iff one of the five categories lists it; a missing category contributes nothing |
| PamsRoute.AirportCategoryFirst | app/api/AutoRouter/pams/route.ts:35-43 | a match in the Airport category wins over every other category |
| PamsRoute.FindDocument | app/api/AutoRouter/pams/route.ts:43 | the first candidate with the requested file name, and none iff no candidate has that name |
| PamsRoute.Disposition | app/api/AutoRouter/pams/route.ts:69 | the header starts with the attachment prefix, ends with a quote and is 23 characters longer than the name |
| PamsRoute.DispositionCarriesFilename | app/api/AutoRouter/pams/route.ts:69 | the file name can be read back from the header |
| PamsRoute.PamsOutcome | app/api/AutoRouter/pams/route.ts:7-71 | a success carries the requested, non-empty file name |
| PamsRoute.PamsGet | app/api/AutoRouter/pams/route.ts:5-79 | the route answers 200 with a PDF download or 500, and nothing else |
| PamsRoute.MissingFilename | app/api/AutoRouter/pams/route.ts:10-77 | a missing file name answers 500 before any request, whatever the token and upstream calls would give |
| PamsRoute.PamsGetSpec | app/api/AutoRouter/pams/route.ts:30-71 | the PDF is answered only if the listing holds the requested name, attached under that name; a missing one answers "Document <name> not found for EDTY"; a failed listing answers its `message` or 'Failed to fetch airport documents'; for a found document a rejected PDF request answers its message, a non-OK PDF response "Failed to fetch PDF document", and a readable OK response 200 with the PDF under `attachment; filename="<name>"` |
| AirportApi.SearchAirports | services/airportApi.ts:24-48 | a blank or one-character term gives [] with no request; a failed request or non-OK answer throws; a result is always truthy |
| AirportApi.GetAirportByIcao | services/airportApi.ts:50-71 | a blank code gives null with no request, a 404 gives null, and a failed request is rethrown |
| AirportApi.FailureCarriesBodyError | services/airportApi.ts:38-39 | a non-OK answer whose body carries a non-empty `error` throws with that message |
| AirportApi.FailureCarriesStatus | services/airportApi.ts:37-40 | without a usable `error`, the message is "HTTP error: " and a status that reads back from it |
| AirportApi.FailureError | services/airportApi.ts:38-39 | the exception of a non-OK answer; stated by `FailureCarriesBodyError` and `FailureCarriesStatus` |
| AirportApi.SearchAirportsSpec | services/airportApi.ts:29-47 | the search succeeds iff it is skipped or the answer is OK with a non-null JSON body, and then gives `items`, or [] when falsy |
| AirportApi.SearchNeverSwallowsFailure | services/airportApi.ts:37-47 | a failed or non-OK request never yields airports unless the term was skipped |
| AirportApi.GetAirportByIcaoSpec | services/airportApi.ts:55-69 | an OK answer gives its body; among non-OK answers exactly a 404 gives null and the rest throw |
| SearchAirportRoute.UpperParam | app/api/openAip/searchAirport/route.ts:9-10 | the parameter is present iff the key is; its value has the parameter's length and is already upper case (upper-casing it again changes nothing) |
| SearchAirportRoute.BuildUpstreamQuery | app/api/openAip/searchAirport/route.ts:29-33 | the successive appends build the upstream query |
| SearchAirportRoute.UpstreamQueryShape | app/api/openAip/searchAirport/route.ts:29-33 | `search` is sent iff present and `icaoCode` iff present, each with its value, `search` first, then `limit` and `fields` |
| SearchAirportRoute.IcaoSelection | app/api/openAip/searchAirport/route.ts:60 | missing items give null and items without `find` throw |
| SearchAirportRoute.IcaoSelectionSpec | app/api/openAip/searchAirport/route.ts:60 | over records, the selection is the first record whose `icaoCode` is exactly the code, or null iff there is none |
| SearchAirportRoute.CaughtReply | app/api/openAip/searchAirport/route.ts:70-84 | a timeout is 504, and every other exception 500 |
| SearchAirportRoute.HandleGet | app/api/openAip/searchAirport/route.ts:6-85 | a missing API key answers 500; with a key, neither `search` nor `icao` answers 400 |
| SearchAirportRoute.Answer | app/api/openAip/searchAirport/route.ts:37-68 | the reply when nothing is thrown; stated by `RejectedKeyIs401`, `OtherUpstreamFailureIs500`, `IcaoTakesPrecedence` and `SearchPage` |
| SearchAirportRoute.MissingKeyComesFirst | app/api/openAip/searchAirport/route.ts:4-19 | a missing key is reported before the query is looked at |
| SearchAirportRoute.RejectedKeyIs401 | app/api/openAip/searchAirport/route.ts:47-52 | an upstream 401 or 403 answers 401 'Invalid OpenAIP API key' |
| SearchAirportRoute.OtherUpstreamFailureIs500 | app/api/openAip/searchAirport/route.ts:46-83 | any other non-OK status answers 500 naming that status and its text |
| SearchAirportRoute.IcaoTakesPrecedence | app/api/openAip/searchAirport/route.ts:59-62 | with an ICAO code the reply is the ICAO selection, whether or not a search term is given |
| SearchAirportRoute.SearchPage | app/api/openAip/searchAirport/route.ts:65-68 | without an ICAO code the page is `{items, totalCount}` with falsy values replaced by [] and 0 |
| SearchAirportRoute.TimeoutIs504 | app/api/openAip/searchAirport/route.ts:73-78 | a request that times out answers 504 'Request timeout' |
| SearchAirportRoute.ReplyStatuses | app/api/openAip/searchAirport/route.ts:6-85 | the route answers only 200, 400, 401, 500 and 504 |
| AirportSearchHook.FailureText | lib/hooks/airport/useAirportSearch.ts:37 | an `Error` gives its message, any other thrown value 'Failed to fetch airports'; the text is empty only for an `Error` with an empty message |
| AirportSearchHook.AirportSearch.constructor | lib/hooks/airport/useAirportSearch.ts:22-26 | empty input, no suggestions, not loading, no error, nothing selected |
| AirportSearchHook.AirportSearch.ClearSearch | lib/hooks/airport/useAirportSearch.ts:53-58 | input, selection, suggestions and error are reset; loading is unchanged |
| AirportSearchHook.AirportSearch.SelectAirport | lib/hooks/airport/useAirportSearch.ts:60-64 | the input shows the airport's ICAO code, it is selected, the list closes; error and loading are unchanged |
| AirportSearchHook.AirportSearch.StartFetch | lib/hooks/airport/useAirportSearch.ts:32-33 | loading, with the error cleared and the rest unchanged |
| AirportSearchHook.AirportSearch.FinishFetch | lib/hooks/airport/useAirportSearch.ts:34-42 | when the search settles: its results (error untouched) or its error text and no suggestions, not loading; it may run after any other handler and overwrites the list they left |
| AirportSearchHook.AirportSearch.FetchAirports | lib/hooks/airport/useAirportSearch.ts:30-43 | the results on success, the error text and no suggestions on failure, not loading afterwards; input and selection unchanged |
| AirportSearchHook.AirportSearch.DebouncedTermChanged | lib/hooks/airport/useAirportSearch.ts:45-51 | a non-empty term is searched; an empty one only clears the suggestions |
| AirportSearchHook.AirportSearch.SelectWhileSearching | lib/hooks/airport/useAirportSearch.ts:30-64 | an airport selected while a search is pending stays selected, but the late results reopen the suggestion list |
| AirportSearchHook.AirportSearch.SearchesOutOfOrder | lib/hooks/airport/useAirportSearch.ts:30-51 | when two searches settle in the opposite order, the list shows the older term's results |
| AirportSuggestions.TypeLabel | components/Airport/AirportSuggestions.tsx:134 | codes 0..13 get their fixed names, any other code "Type N" |
| AirportSuggestions.TypeNameRoundTrip | components/Airport/AirportSuggestions.tsx:24-39 | each of the fourteen names reads back to its code |
| AirportSuggestions.TypeLabelRoundTrip | components/Airport/AirportSuggestions.tsx:134 | every type label reads back to its code |
| AirportSuggestions.TypeLabelInjective | components/Airport/AirportSuggestions.tsx:134 | different type codes are labelled differently |
| AirportSuggestions.FormatElevation | components/Airport/AirportSuggestions.tsx:41-45 | a missing elevation is 'N/A' |
| AirportSuggestions.FormatElevationSpec | components/Airport/AirportSuggestions.tsx:43-44 | the text is the value, read back by `parseInt`, one space and the unit: "ft" exactly for code 0, "m" otherwise |
| AirportSuggestions.RowOf | components/Airport/AirportSuggestions.tsx:120 | the IATA code is shown iff it is present and non-empty |
| AirportSuggestions.RenderPrecedence | components/Airport/AirportSuggestions.tsx:55-157 | hidden, then error, then loading, then the empty-result note for a term of two or more characters, then the list; otherwise nothing |
| AirportSuggestions.Render | components/Airport/AirportSuggestions.tsx:55-157 | the view for the component's props; stated by `RenderPrecedence` and `SuggestionListSpec` |
| AirportSuggestions.SuggestionListSpec | components/Airport/AirportSuggestions.tsx:87-155 | one row per suggestion, in order, with its ICAO code, type label and elevation text |
| ExpandToggle.Toggled | components/AirportData.tsx:38-43 | the key's flag is negated (unset counts as false) and every other key is kept |
| ExpandToggle.ToggleFlipsOneKey | components/AirportData.tsx:39-42 | toggling changes no other key |
| ExpandToggle.ToggleTwiceRestores | components/Airport/airportBlock.tsx:27-32 | toggling a key twice restores every flag's reading |
| ExpandToggle.TogglesCommute | components/Airport/airportBlock.tsx:27-32 | toggling different keys commutes |
| AirportData.Categorize | components/AirportData.tsx:66-72 | missing frequencies give four empty groups; a value that is neither missing nor an array throws |
| AirportData.CallbacksAgree | components/AirportData.tsx:67-71 | each filter callback, where it does not throw, answers whether the record is in its group |
| AirportData.CategorizeSucceeds | components/AirportData.tsx:66-72 | over a list, the grouping succeeds iff no entry is null or undefined |
| AirportData.CategorizeSpec | components/AirportData.tsx:66-72 | when the grouping succeeds, each group is exactly its category's entries, in order |
| AirportData.CategoryOf | components/AirportData.tsx:66-72 | the group a frequency falls into by its `type`; stated by `CategorizeSpec` and `CategoriesPartition` |
| AirportData.CategoriesPartition | components/AirportData.tsx:66-72 | the four groups together hold every entry exactly as often as the list does |
| AirportData.CategoriesKeepOrder | components/AirportData.tsx:67-71 | each group is a subsequence of the list |
| AirportData.RenderData | components/AirportData.tsx:45 | missing data shows only "No airport data available" |
| AirportData.MissingFrequencies | components/AirportData.tsx:67-71 | for a record without frequencies the grouping cannot throw and gives four empty groups |
| AirportData.AirportDataPanel.constructor | components/AirportData.tsx:34-35 | no runway expanded, services collapsed |
| AirportData.AirportDataPanel.ToggleExpand | components/AirportData.tsx:38-43 | the runway flags become their toggle at `id`; services unchanged |
| AirportData.AirportDataPanel.ToggleServices | components/AirportData.tsx:263 | the services section flips between collapsed and expanded; the runway flags are unchanged |
| AirportBlock.OrElse | components/Airport/airportBlock.tsx:55-64 | `value \|\| fallback` is the value when truthy and otherwise the fallback; it is truthy iff either input is, so a truthy default always shows |
| AirportBlock.NullishOr | components/Airport/airportBlock.tsx:57-58 | `value ?? fallback` keeps every non-nullish value, including 0 and ''; it is nullish only when both inputs are |
| AirportBlock.FlightRulesColorSpec | components/Airport/airportBlock.tsx:91-96 | VFR, MVFR, IFR and LIFR get four different colours and anything else the default |
| AirportBlock.FlightRulesColor | components/Airport/airportBlock.tsx:91-96 | the flight-rules chip colour; stated by `FlightRulesColorSpec` |
| AirportBlock.CloudChip | components/Airport/airportBlock.tsx:103-108 | a cloud chip throws exactly for a null or undefined entry |
| AirportBlock.CloudChipText | components/Airport/airportBlock.tsx:106 | an entry without type and altitude reads "Cloud at ???ft"; non-empty string ones read "<type> at <altitude>ft" |
| AirportBlock.WeatherChip | components/Airport/airportBlock.tsx:117-122 | a weather chip throws exactly for a null or undefined entry, is always truthy, and an entry without a value reads "Weather" |
| AirportBlock.Chips | components/Airport/airportBlock.tsx:99-123 | an array renders one chip per entry and throws iff an entry's chip does; an empty string or a value without `length` renders nothing; other non-arrays render nothing or throw |
| AirportBlock.RenderPeriod | components/Airport/airportBlock.tsx:55-64 | the defaulted text fields are truthy and the wind fields never null or undefined |
| AirportBlock.RenderTafForecast | components/Airport/airportBlock.tsx:44-133 | a missing or non-array forecast gives only the no-forecast message; an array gives one block per period, in order |
| AirportBlock.EmptyPeriodDefaults | components/Airport/airportBlock.tsx:55-64 | a period without fields shows every default |
| AirportBlock.ZeroWindKept | components/Airport/airportBlock.tsx:57-60 | a reported wind of 0 is kept, while falsy text fields get their defaults |
| AirportBlock.StationHeading | components/Airport/airportBlock.tsx:153 | a heading starts with the key, and is only the key for a report that is not a fallback |
| AirportBlock.FallbackHeadingNamesStation | components/Airport/airportBlock.tsx:180 | a fallback heading names the nearest station after the key |
| AirportBlock.ReportText | components/Airport/airportBlock.tsx:161 | the report text is never empty: the raw report when truthy, else the fixed note |
| AirportBlock.AirportBlockState.constructor | components/Airport/airportBlock.tsx:24-25 | not loading, no station expanded |
| AirportBlock.AirportBlockState.ToggleExpand | components/Airport/airportBlock.tsx:27-32 | the station flags become their toggle at `station`; loading unchanged |
| AvwxWeather.ParseNumPoints | app/api/avwx/taf/route.ts:304-311 | the reassigned `numPoints` is the specified count |
| AvwxWeather.NumPointsSpec | app/api/avwx/taf/route.ts:304-311 | the count is within 1..5; a missing, empty or unparsable parameter gives 3, and a parsed value in 1..5 is kept |
| AvwxWeather.NumPointsOfInteger | app/api/route-weather/route.ts:201-205 | the text of an integer is read and clamped into 1..5 |
| AvwxWeather.NumPointsOf | app/api/avwx/taf/route.ts:304-311 | the requested point count; stated by `NumPointsSpec` and `NumPointsOfInteger`, and `ParseNumPoints` is proved equal to it |
| AvwxWeather.StationParam | app/api/avwx/taf/route.ts:300-301 | the station is the upper-cased parameter, and '' exactly when the parameter is missing or empty |
| AvwxWeather.StationParamIsUpper | app/api/avwx/taf/route.ts:300-301 | the station code is already in upper case: upper-casing it again changes nothing |
| AvwxWeather.NearestStation | app/api/avwx/taf/route.ts:160-174 | a failed search gives none, and a station found is a truthy code |
| AvwxWeather.Spread | app/api/avwx/taf/route.ts:189-193 | the spread keeps the report's fields and overrides the given ones |
| AvwxWeather.FailedReport | app/api/avwx/taf/route.ts:227-233 | the failure note names the requested station, is a fallback and carries the error message |
| AvwxWeather.FallbackOutcomes | app/api/avwx/taf/route.ts:177-236 | the result is the direct report, a nearby station's report as a fallback, the "no nearby stations" note, or a failure note |
| AvwxWeather.WithNearestFallback | app/api/avwx/taf/route.ts:177-236 | `fetchTafWithNearestFallback` for either product; its outcomes are stated by `FallbackOutcomes` and `DirectOverrides` |
| AvwxWeather.NearestFallbackOutcomes | app/api/avwx/taf/route.ts:198-233 | the inner `try` ends in a nearby station's report, the "no nearby stations" note, or the failure note of some exception |
| AvwxWeather.NearestFallback | app/api/avwx/taf/route.ts:198-233 | the inner nearest-station `try`; its outcomes are stated by `NearestFallbackOutcomes` |
| AvwxWeather.FallbackReport | app/api/avwx/taf/route.ts:218-224 | a nearby station's report is marked as a fallback for the requested code, names the station used and keeps its own `raw` |
| AvwxWeather.FailureNote | app/api/avwx/taf/route.ts:227-233 | a failure note is a fallback naming the requested code as its station, with the failure explained after a fixed prefix |
| AvwxWeather.EnrouteResultSpec | app/api/avwx/taf/route.ts:254-293 | each entry carries its point's coordinates, either names a station or explains in `error` why there is no report, and has a report exactly when it has no `error` |
| AvwxWeather.EnrouteResult | app/api/avwx/taf/route.ts:254-293 | the entry for one enroute point; its shape is stated by `EnrouteResultSpec` and the four entry lemmas below |
| AvwxWeather.NoStationEntry | app/api/avwx/taf/route.ts:256-263 | with no station near the point the entry has an `error` and no station |
| AvwxWeather.ReportedEntry | app/api/avwx/taf/route.ts:266-276 | a station that answers with a `raw` report gives an entry naming that station, with the report and no `error` |
| AvwxWeather.ReportEntryFields | app/api/avwx/taf/route.ts:267-276 | the report entry holds the coordinates, the station and the report under the product's key, and no `error` |
| AvwxWeather.EmptyReportEntry | app/api/avwx/taf/route.ts:277-284 | a station that answers without `raw` gives an entry naming that station with an `error` |
| AvwxWeather.FailedFetchEntry | app/api/avwx/taf/route.ts:285-292 | a report request that throws gives an entry with an `error` |
| AvwxWeather.ReportKeyIsNotAField | app/api/avwx/taf/route.ts:267-276 | the report key differs from the coordinate, station and error keys |
| AvwxWeather.FetchEnrouteWeather | app/api/avwx/taf/route.ts:251-296 | one result per point, in order, each the result specified for that point |
| AvwxWeather.EnroutePoints | app/api/avwx/taf/route.ts:328-339 | no enroute point is planned unless both stations have coordinates; `HandleGet` states that the route weather has one entry per planned point |
| AvwxWeather.HandleGet | app/api/avwx/taf/route.ts:298-368 | missing dep or arr answers 400; a failed station lookup answers 500 "Failed to fetch weather: <message>", the departure's failure first; otherwise 200 with both stations' reports (arr wins when dep equals arr) and one enroute result per point, in order |
| TafRoute.DirectTafWins | app/api/avwx/taf/route.ts:187-194 | a direct TAF with `raw` is returned whole, not as a fallback, with `station` set to the requested code |
| TafRoute.TafWithNearestFallback | app/api/avwx/taf/route.ts:177-236 | the TAF instance of `WithNearestFallback`; stated by `DirectTafWins`, `NoNearbyTaf`, `NearestTafUsed`, `MissingCoordinatesReported` and `StationLookupFailureReported` |
| TafRoute.NoNearbyTaf | app/api/avwx/taf/route.ts:208-215 | without a direct TAF or a nearby station the answer is the "or nearby stations" note |
| TafRoute.NearestTafUsed | app/api/avwx/taf/route.ts:217-225 | a nearby station's TAF is a fallback for the requested code naming the nearby station |
| TafRoute.MissingCoordinatesReported | app/api/avwx/taf/route.ts:204-233 | station information without coordinates gives a failure note with "No coordinates for" the code |
| TafRoute.StationLookupFailureReported | app/api/avwx/taf/route.ts:199-233 | a failing station lookup gives a failure note carrying its message |
| TafRoute.EnrouteTafEntry | app/api/avwx/taf/route.ts:267-279 | a point's TAF entry keeps `raw` and `forecast` and names the station |
| MetarRoute.DirectMetarKeepsStation | app/api/route-weather/route.ts:92-95 | a direct METAR with `raw` is returned whole, not as a fallback, keeping its own `station` |
| MetarRoute.MetarWithNearestFallback | app/api/route-weather/route.ts:89-147 | the METAR instance of `WithNearestFallback`; stated by `DirectMetarKeepsStation`, `NoNearbyMetar`, `NearestMetarUsed` and `FallbackFailuresReported` |
| MetarRoute.NoNearbyMetar | app/api/route-weather/route.ts:109-116 | without a direct METAR or a nearby station the answer is the "or nearby stations" note |
| MetarRoute.NearestMetarUsed | app/api/route-weather/route.ts:118-126 | a nearby station's METAR is a fallback for the requested code naming the nearby station |
| MetarRoute.FallbackFailuresReported | app/api/route-weather/route.ts:105-134 | missing coordinates or a failing lookup give a failure note naming the requested code |
| MetarRoute.EnrouteMetarEntry | app/api/route-weather/route.ts:164-171 | a point's METAR entry holds the report's `raw` under `metar` |
| MetarRoute.HandleGet | app/api/route-weather/route.ts:193-263 | missing dep or arr answers 400; a failed station lookup answers 500 "Failed to fetch weather: <message>", the departure's failure first; otherwise 200 with the departure and arrival METARs (with the nearest-station fallback) under `departure_arrival_weather` and one `route_weather` entry per enroute point |

## Left out

- The geometry library (`lineString`, `buffer`, `booleanIntersects`, `point`, `booleanPointInPolygon`) is an uninterpreted oracle. It does floating-point geodesy; only the 18 520 m argument and the argument order are modelled.
- AirportData.RenderData, AirportData.MissingFrequencies: `Ok` means only that the `!data` test and the frequency grouping did not throw; the exceptions of the runway, operating-hours and NOTAM sections (a runway without `dimension`, a null runway, a non-array `composition`, a non-empty string where a list is mapped) are not modelled.
- EnrouteNotams.AlongRouteCallbackSpec, EnrouteNotams.AirspacesAlongRouteSpec, EnrouteNotams.InsideCallbackSpec, EnrouteNotams.ByPointCallbackSpec, EnrouteNotams.ByPointFilterCallbackSpec, EnrouteNotams.FilterNotamsByAirspaceSpec and LegacyEnrouteNotams.LegacyGetAirspacesAlongRoute: `booleanIntersects` and `booleanPointInPolygon` are total, so the exceptions turf itself raises for a truthy geometry that is not GeoJSON (such as `{}` or `5`) are not modelled; the "throws exactly when" statements hold for airspaces whose geometry is the declared `Polygon | MultiPolygon` (lib/hooks/enroute/getEnrouteNotams.ts:15).
- The great-circle sampler `calculateRoutePoints` is an uninterpreted `RoutePlanner`. It is trigonometric floating point.
- Date and locale formatting (`toISOString`, `formatDate`, `toLocaleTimeString`) are not modelled. Only the seconds-to-milliseconds scaling is.
- `fetch`, `Response`/`NextResponse` construction, headers, `AbortSignal.timeout` and `Promise.all` are not modelled. Each upstream call is a deterministic function of its request. For `Promise.all` of two station lookups that both fail, the departure's exception is reported.
- URL encoding of query parameters is not modelled. That includes the unencoded `?icao=` interpolation in `getAirportByIcao`; a query is a list of key/value pairs.
- React rendering and layout are not modelled: JSX structure, MUI props, and the rendering of booleans as nothing. The views are datatypes naming what is shown.
- AirportSearchHook.AirportSearch.FetchAirports: the hook receives the outcome of `searchAirports` as already decoded airport records, so its link to `AirportApi.SearchAirports` (including a term under two characters resolving to [] without a request) is not stated on the hook; the decoding of `items` into records is not modelled.
- NotamBlock.FirstLine: lengths count Unicode characters, whereas JavaScript's `length` and `substring` count UTF-16 code units, so the 120-character cut differs for text outside the Basic Multilingual Plane.
- AirportSuggestions.RenderPrecedence: the two-character threshold on the search term counts Unicode characters, not UTF-16 code units.
- AirportApi.SearchAirports: the `searchTerm.length < 2` test counts Unicode characters, not UTF-16 code units.
- AirportBlock.Chips: an object whose `length` is a numeric string or `true` renders nothing here, whereas `length > 0` converts it and `map` then throws.
- AirportBlock.RenderPeriod: a wind gust of 0 renders no chip here, whereas React prints the falsy number 0 itself.
- The `useDebounce` timer is not modelled: `DebouncedTermChanged` is what runs once a term has settled.
- `console.log`/`console.warn`/`console.error` output is not modelled.
- Numbers are integers in `Js.Value`. Fractional coordinates, NaN arithmetic and floating-point division by 10^7 are modelled only through `Unscale`'s exact `real` result.
- EnrouteNotams.Unscale: strings and arrays unscale to NaN, whereas JavaScript's division converts numeric strings and short arrays to numbers first; null and booleans are converted as JavaScript does (0 and 1).
- JsText.ToUpper: upper-cases the letters a-z only. Unicode case mapping is not modelled.
- JsText.ValueToString: renders every object as "[object Object]"; custom `toString` methods do not exist in JSON data.
- `JSON.stringify` dropping `undefined` fields is not modelled: a field whose value is undefined stays in the object.
- The NOTAM route's upstream rows are typed records (`NotamRow`) rather than dynamic values. A row missing a field is not modelled.
- `getNearestStation` on an array-like object that is not an array (one with a numeric `length` and index properties) is not modelled: only arrays have elements.
- Fetch-only hooks (`getAirportTaf`, `getAirportMetar`, `getAirportNotams`, `getAirportData`) and thin proxy routes (`openAip/airports`, `openAip/airspaces`, `sigmet`, `route-weather.ts`, `auth/callback`) are not modelled: they hold no decision logic.
- UI-only components are not modelled: the airport search box, the aircraft NOTAM page, the profile and the navigation bars.
- A degenerate route (departure equal to arrival) is not rejected. The code never checks for it, so the model has no such error.
- The airport search route never answers 404, so `getAirportByIcao`'s 404 branch is modelled but is reachable only when the route itself is missing.
