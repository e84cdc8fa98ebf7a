/** The airport search hook (lib/hooks/airport/useAirportSearch.ts): five state
    fields and the handlers that overwrite them. The debounce timer is not
    modelled: `DebouncedTermChanged` is what runs once the term has settled. */
module AirportSearchHook {
  import opened Wrappers
  import opened AirportApi

  const FetchFailedMessage := "Failed to fetch airports"

  /** The error text shown after a failed search: the exception's message, or
      a fixed text for a thrown value that is not an `Error`; it is empty only
      for an `Error` whose message is empty. */
  function FailureText(e: Exception): (text: string)
    ensures e.Error? ==> text == e.message
    ensures e.NonError? ==> text == FetchFailedMessage
    ensures text == "" <==> e.Error? && e.message == ""
  {
    MessageOr(e, FetchFailedMessage)
  }

  class AirportSearch {
    var inputValue: string
    var suggestions: seq<Airport>
    var loading: bool
    var error: Option<string>
    var selectedAirport: Option<Airport>

    /** The initial state: empty input, no suggestions, idle, no error, nothing selected. */
    constructor ()
      ensures inputValue == "" && suggestions == [] && !loading
      ensures error == None && selectedAirport == None
    {
      inputValue := "";
      suggestions := [];
      loading := false;
      error := None;
      selectedAirport := None;
    }

    /** `clearSearch`: everything but `loading` goes back to its initial value. */
    method ClearSearch()
      modifies this
      ensures inputValue == "" && selectedAirport == None && suggestions == [] && error == None
      ensures loading == old(loading)
    {
      inputValue := "";
      selectedAirport := None;
      suggestions := [];
      error := None;
    }

    /** `selectAirport(airport)`: the input shows its ICAO code and the list closes. */
    method SelectAirport(airport: Airport)
      modifies this
      ensures inputValue == airport.icaoCode && selectedAirport == Some(airport) && suggestions == []
      ensures error == old(error) && loading == old(loading)
    {
      inputValue := airport.icaoCode;
      selectedAirport := Some(airport);
      suggestions := [];
    }

    /** The first half of `fetchAirports`, the state shown while the request is
        pending: loading, with the previous error cleared. */
    method StartFetch()
      modifies this
      ensures loading && error == None
      ensures inputValue == old(inputValue) && suggestions == old(suggestions)
      ensures selectedAirport == old(selectedAirport)
    {
      loading := true;
      error := None;
    }

    /** The second half of `fetchAirports`, run when `searchAirports(term)`
        settles with the results or the exception: the results on success (the
        error stays as it is), the error text and no suggestions on failure, and
        not loading in either case. Other handlers, and other searches, may have
        run since `StartFetch`: this overwrites whatever they left in the list. */
    method FinishFetch(outcome: Result<seq<Airport>>)
      modifies this
      ensures !loading
      ensures outcome.Ok? ==> suggestions == outcome.value && error == old(error)
      ensures outcome.Err? ==> suggestions == [] && error == Some(FailureText(outcome.error))
      ensures inputValue == old(inputValue) && selectedAirport == old(selectedAirport)
    {
      match outcome {
        case Ok(results) =>
          suggestions := results;
        case Err(e) =>
          error := Some(FailureText(e));
          suggestions := [];
      }
      loading := false;
    }

    /** `fetchAirports` when nothing else runs while the request is pending:
        the results on success, the error text and no suggestions on failure,
        and not loading in either case. */
    method FetchAirports(outcome: Result<seq<Airport>>)
      modifies this
      ensures !loading
      ensures outcome.Ok? ==> suggestions == outcome.value && error == None
      ensures outcome.Err? ==> suggestions == [] && error == Some(FailureText(outcome.error))
      ensures inputValue == old(inputValue) && selectedAirport == old(selectedAirport)
    {
      StartFetch();
      FinishFetch(outcome);
    }

    /** An airport picked while a search is pending stays selected, but the
        late results reopen the suggestion list the selection had closed. */
    method SelectWhileSearching(airport: Airport, outcome: Result<seq<Airport>>)
      modifies this
      ensures selectedAirport == Some(airport) && inputValue == airport.icaoCode && !loading
      ensures outcome.Ok? ==> suggestions == outcome.value
    {
      StartFetch();
      SelectAirport(airport);
      FinishFetch(outcome);
    }

    /** Two searches whose answers arrive in the opposite order: the list shows
        the answer to the older term. */
    method SearchesOutOfOrder(older: seq<Airport>, newer: seq<Airport>)
      modifies this
      ensures suggestions == older && !loading
    {
      StartFetch();
      StartFetch();
      FinishFetch(Ok(newer));
      FinishFetch(Ok(older));
    }

    /** The effect on a new debounced term: a non-empty term is searched; an
        empty one only clears the suggestions, with no request. */
    method DebouncedTermChanged(term: string, outcome: Result<seq<Airport>>)
      modifies this
      ensures term != "" ==> !loading
      ensures term != "" && outcome.Ok? ==> suggestions == outcome.value && error == None
      ensures term != "" && outcome.Err? ==> suggestions == [] && error == Some(FailureText(outcome.error))
      ensures term == "" ==> suggestions == [] && error == old(error) && loading == old(loading)
      ensures inputValue == old(inputValue) && selectedAirport == old(selectedAirport)
    {
      if term != "" {
        FetchAirports(outcome);
      } else {
        suggestions := [];
      }
    }
  }
}
