/** The airport suggestion list (components/Airport/AirportSuggestions.tsx): the
    type labels, the elevation text and the choice of what the drop-down shows. */
module AirportSuggestions {
  import opened Wrappers
  import opened JsText
  import opened AirportApi

  /** `airportTypeMap`, indexed by type code 0..13. */
  const TypeNames: seq<string> := [
    "Airport", "Balloonport", "Gliderport", "Heliport", "Ultralight", "Airstrip", "Seaplane Base",
    "Closed", "Military", "Private", "International", "Regional", "National", "Other"]

  /** `airportTypeMap[type] || \`Type ${type}\`` */
  function TypeLabel(kind: int): (name: string)
    ensures 0 <= kind < |TypeNames| ==> name == TypeNames[kind]
    ensures !(0 <= kind < |TypeNames|) ==> name == "Type " + IntToString(kind)
  {
    if 0 <= kind < |TypeNames| then TypeNames[kind] else "Type " + IntToString(kind)
  }

  /** `name` starts with "Type ". */
  predicate HasTypePrefix(name: string) {
    |name| >= 5 && name[0] == 'T' && name[1] == 'y' && name[2] == 'p' && name[3] == 'e' && name[4] == ' '
  }

  /** Reads a type label back to its code: "Type N" gives N, and each of the
      fourteen names gives its index. */
  function TypeCode(name: string): Option<int> {
    if HasTypePrefix(name) then ParseInt(name[5..])
    else if name == "Airport" then Some(0)
    else if name == "Balloonport" then Some(1)
    else if name == "Gliderport" then Some(2)
    else if name == "Heliport" then Some(3)
    else if name == "Ultralight" then Some(4)
    else if name == "Airstrip" then Some(5)
    else if name == "Seaplane Base" then Some(6)
    else if name == "Closed" then Some(7)
    else if name == "Military" then Some(8)
    else if name == "Private" then Some(9)
    else if name == "International" then Some(10)
    else if name == "Regional" then Some(11)
    else if name == "National" then Some(12)
    else if name == "Other" then Some(13)
    else None
  }

  lemma TypeNameRoundTrip(kind: int)
    requires 0 <= kind < |TypeNames|
    ensures TypeCode(TypeNames[kind]) == Some(kind)
  {
    var name := TypeNames[kind];
    if kind == 0 { assert name == "Airport"; }
    else if kind == 1 { assert name == "Balloonport"; }
    else if kind == 2 { assert name == "Gliderport"; }
    else if kind == 3 { assert name == "Heliport"; }
    else if kind == 4 { assert name == "Ultralight"; }
    else if kind == 5 { assert name == "Airstrip"; }
    else if kind == 6 { assert name == "Seaplane Base"; }
    else if kind == 7 { assert name == "Closed"; }
    else if kind == 8 { assert name == "Military"; }
    else if kind == 9 { assert name == "Private"; }
    else if kind == 10 { assert name == "International"; }
    else if kind == 11 { assert name == "Regional"; }
    else if kind == 12 { assert name == "National"; }
    else { assert name == "Other"; }
  }

  /** Every type label reads back to its code, names and fallbacks alike. */
  lemma TypeLabelRoundTrip(kind: int)
    ensures TypeCode(TypeLabel(kind)) == Some(kind)
  {
    if 0 <= kind < |TypeNames| {
      TypeNameRoundTrip(kind);
    } else {
      var name := TypeLabel(kind);
      assert HasTypePrefix(name) && name[5..] == IntToString(kind);
      ParseIntOfIntToString(kind);
    }
  }

  /** Different type codes are labelled differently. */
  lemma TypeLabelInjective(a: int, b: int)
    requires TypeLabel(a) == TypeLabel(b)
    ensures a == b
  {
    TypeLabelRoundTrip(a);
    TypeLabelRoundTrip(b);
  }

  /** Unit code 0 is feet; every other code is metres. */
  function UnitLabel(unit: int): string {
    if unit == 0 then "ft" else "m"
  }

  /** `formatElevation(elevation)` */
  function FormatElevation(elevation: Option<Elevation>): (text: string)
    ensures elevation.None? ==> text == "N/A"
  {
    match elevation
    case None => "N/A"
    case Some(e) => IntToString(e.value) + " " + UnitLabel(e.unit)
  }

  /** The elevation text is the value, read back by `parseInt`, then a single
      space and the unit: " ft" exactly for unit code 0 and " m" otherwise. */
  lemma FormatElevationSpec(e: Elevation)
    ensures ParseInt(FormatElevation(Some(e))) == Some(e.value)
    ensures var text := FormatElevation(Some(e)); var v := IntToString(e.value);
      && text[..|v|] == v
      && (e.unit == 0 <==> text[|v|..] == " ft")
      && (e.unit != 0 <==> text[|v|..] == " m")
  {
    var v := IntToString(e.value);
    var text := FormatElevation(Some(e));
    assert text == v + (" " + UnitLabel(e.unit));
    ParseIntOfIntToStringThen(e.value, " " + UnitLabel(e.unit));
    assert text[|v|..] == " " + UnitLabel(e.unit);
  }

  /** One entry of the list: its key, the ICAO code, the IATA code when it is
      non-empty, the name and the three chips. */
  datatype SuggestionRow = SuggestionRow(
    key: string,
    icaoCode: string,
    iataCode: Option<string>,
    name: string,
    typeChip: string,
    countryChip: string,
    elevationChip: string)

  datatype SuggestionsView =
    | Hidden
    | ErrorAlert(message: string)
    | Searching
    | NoMatches(text: string)
    | SuggestionList(rows: seq<SuggestionRow>)

  function RowOf(airport: Airport): (row: SuggestionRow)
    ensures row.iataCode.Some? <==> airport.iataCode.Some? && airport.iataCode.value != ""
  {
    SuggestionRow(
      airport.id,
      airport.icaoCode,
      if airport.iataCode.Some? && airport.iataCode.value != "" then airport.iataCode else None,
      airport.name,
      TypeLabel(airport.kind),
      airport.country,
      "Elev: " + FormatElevation(airport.elevation))
  }

  /** `if (error)`: an error is shown when it is a non-empty string. */
  predicate ShowsError(error: Option<string>) {
    error.Some? && error.value != ""
  }

  /** What the component renders for its props; `Hidden` is `null`. */
  function Render(suggestions: seq<Airport>, visible: bool, searchTerm: string, loading: bool,
                  error: Option<string>): SuggestionsView
  {
    if !visible then Hidden
    else if ShowsError(error) then ErrorAlert(error.value)
    else if loading then Searching
    else if |suggestions| == 0 && |searchTerm| >= 2 then NoMatches("No airports found matching \"" + searchTerm + "\"")
    else if |suggestions| > 0 then SuggestionList(seq(|suggestions|, i requires 0 <= i < |suggestions| => RowOf(suggestions[i])))
    else Hidden
  }

  /** The precedence: hidden, then an error, then the loading note, then the
      empty-result note, then the list; nothing is shown when the list is empty
      and the term is shorter than two characters. */
  lemma RenderPrecedence(suggestions: seq<Airport>, visible: bool, searchTerm: string, loading: bool,
                         error: Option<string>)
    ensures var view := Render(suggestions, visible, searchTerm, loading, error);
      && (view.ErrorAlert? <==> visible && ShowsError(error))
      && (view.Searching? <==> visible && !ShowsError(error) && loading)
      && (view.NoMatches? <==> visible && !ShowsError(error) && !loading && suggestions == [] && |searchTerm| >= 2)
      && (view.SuggestionList? <==> visible && !ShowsError(error) && !loading && suggestions != [])
      && (view.Hidden? <==> !visible || (!ShowsError(error) && !loading && suggestions == [] && |searchTerm| < 2))
  {
  }

  /** The list has one row per suggestion, in order, each showing that
      airport's codes, name, labelled type, country and elevation. */
  lemma SuggestionListSpec(suggestions: seq<Airport>, searchTerm: string)
    requires suggestions != []
    ensures var view := Render(suggestions, true, searchTerm, false, None);
      && view.SuggestionList? && |view.rows| == |suggestions|
      && forall i | 0 <= i < |suggestions| ::
           && view.rows[i].icaoCode == suggestions[i].icaoCode
           && view.rows[i].typeChip == TypeLabel(suggestions[i].kind)
           && view.rows[i].elevationChip == "Elev: " + FormatElevation(suggestions[i].elevation)
  {
  }
}
