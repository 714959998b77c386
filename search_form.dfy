/**
 * The search form (src/components/SearchForm.tsx): the airport picker's
 * filter, the origin/destination swap, the infant selector's bound and the
 * search handler with its guard chain.
 */
module SearchForm {
  import opened Types
  import opened Text
  import opened AppStore
  import FlightData

  /** The picker lists an airport when the typed term occurs, case-blind, in its city, code or name. */
  predicate Matches(a: Airport, term: string)
  {
    var t := ToLower(term);
    Contains(ToLower(a.city), t) || Contains(ToLower(a.code), t) || Contains(ToLower(a.name), t)
  }

  /** `filteredAirports`. */
  function FilterAirports(airports: seq<Airport>, term: string): (r: seq<Airport>)
    ensures forall a :: a in r <==> a in airports && Matches(a, term)
    ensures |r| <= |airports|
  {
    if airports == [] then []
    else if Matches(airports[0], term) then [airports[0]] + FilterAirports(airports[1..], term)
    else FilterAirports(airports[1..], term)
  }

  /** An empty term lists every airport, in table order. */
  lemma {:induction false} EmptyTermListsAll(airports: seq<Airport>)
    ensures FilterAirports(airports, "") == airports
  {
    if airports != [] {
      ContainsEmpty(ToLower(airports[0].city));
      EmptyTermListsAll(airports[1..]);
    }
  }

  /** `swapOriginDestination`. */
  function Swap(f: SearchFilters): (r: SearchFilters)
    ensures r.origin == f.destination && r.destination == f.origin
    ensures r.(origin := f.origin, destination := f.destination) == f
  {
    f.(origin := f.destination, destination := f.origin)
  }

  lemma SwapTwice(f: SearchFilters)
    ensures Swap(Swap(f)) == f
  {
  }

  /** The infant selector offers 0 .. min(passengers, 4). */
  function InfantOptions(passengers: int): (options: seq<int>)
    ensures passengers >= 0 ==>
      |options| == (if passengers < 4 then passengers + 1 else 5)
      && forall i :: 0 <= i < |options| ==> options[i] == i
    ensures passengers < 0 ==> options == []
  {
    var n := if passengers + 1 < 5 then passengers + 1 else 5;
    Range(if n < 0 then 0 else n)
  }

  function Range(n: nat): (r: seq<int>)
    ensures |r| == n && forall i :: 0 <= i < n ==> r[i] == i
  {
    if n == 0 then [] else Range(n - 1) + [n - 1]
  }

  /** Why a search was refused (the alert shown). */
  datatype SearchError =
    | NotSignedIn
    | MissingAirport
    | SameAirport
    | NoPassengers
    | TooManyInfants

  /** The guard chain of `handleSearch`, first failing check wins. */
  function SearchGuard(user: Option<User>, f: SearchFilters): (r: Option<SearchError>)
    ensures r == Some(NotSignedIn) <==> user.None?
    ensures r == Some(MissingAirport) <==> user.Some? && (f.origin == "" || f.destination == "")
    ensures r == Some(SameAirport) <==>
      user.Some? && f.origin != "" && f.destination != "" && f.origin == f.destination
    ensures r == Some(NoPassengers) <==>
      user.Some? && f.origin != "" && f.destination != "" && f.origin != f.destination && f.passengers == 0
    ensures r == Some(TooManyInfants) <==>
      user.Some? && f.origin != "" && f.destination != "" && f.origin != f.destination
      && f.passengers != 0 && f.infants > f.passengers
  {
    if user.None? then Some(NotSignedIn)
    else if f.origin == "" || f.destination == "" then Some(MissingAirport)
    else if f.origin == f.destination then Some(SameAirport)
    else if f.passengers == 0 then Some(NoPassengers)
    else if f.infants > f.passengers then Some(TooManyInfants)
    else None
  }

  /** The dispatches of an accepted search once the flights are generated. */
  function SearchActions(f: SearchFilters, results: seq<Flight>): (actions: seq<Action>)
    ensures |actions| >= 3
    ensures actions[0] == SetLoading(true) && actions[1] == SetSearchFilters(f)
    ensures actions[|actions| - 1] == SetLoading(false)
    ensures results != [] <==> SetCurrentView("results") in actions
    ensures results != [] ==> actions[2] == SetSearchResults(results) && actions[3] == SetCurrentView("results")
    ensures results == [] ==> |actions| == 3
  {
    [SetLoading(true), SetSearchFilters(f)]
    + (if results != [] then [SetSearchResults(results), SetCurrentView("results")] else [])
    + [SetLoading(false)]
  }

  /** `searchFilters.departureDate || today`: the date the flights are generated for. */
  function SearchDate(f: SearchFilters, today: string): (date: string)
    ensures f.departureDate != "" ==> date == f.departureDate
    ensures f.departureDate == "" ==> date == today
  {
    if f.departureDate != "" then f.departureDate else today
  }

  /**
   * `handleSearch`: a refused search dispatches nothing; an accepted one sets
   * the loading flag and the filters, generates the route's flights for the
   * chosen date (or `today` when none is set), shows them when there are any,
   * and clears the loading flag.
   */
  method HandleSearch(user: Option<User>, f: SearchFilters, today: string, dayStart: int,
                      countDraw: real, draws: seq<FlightData.FlightDraws>)
    returns (error: Option<SearchError>, results: seq<Flight>, actions: seq<Action>)
    requires FlightData.InUnit(countDraw) && |draws| >= FlightData.FlightCount(countDraw)
    requires forall i :: 0 <= i < |draws| ==> FlightData.ValidDraws(draws[i])
    ensures error == SearchGuard(user, f)
    ensures error.Some? ==> results == [] && actions == []
    ensures error.None? ==> actions == SearchActions(f, results)
    ensures error.None? && (FlightData.FindAirport(f.origin).None? || FlightData.FindAirport(f.destination).None?) ==>
      results == []
    ensures error.None? && FlightData.FindAirport(f.origin).Some? && FlightData.FindAirport(f.destination).Some? ==>
      var origin := FlightData.FindAirport(f.origin).value;
      var destination := FlightData.FindAirport(f.destination).value;
      var base := FlightData.BasePrices(f.origin, f.destination, FlightData.IsInternational(origin, destination));
      && |results| == FlightData.FlightCount(countDraw)
      && forall i :: 0 <= i < |results| ==>
           results[i] == FlightData.MakeFlight(origin, destination, SearchDate(f, today), dayStart, base, i, draws[i])
  {
    error := SearchGuard(user, f);
    if error.Some? {
      return error, [], [];
    }
    results := FlightData.GenerateFlightsForRoute(f.origin, f.destination, SearchDate(f, today), dayStart,
                                                  countDraw, draws);
    actions := SearchActions(f, results);
  }

  /** After an accepted search with results, the store shows them on the results view and is not loading. */
  lemma AcceptedSearchShowsResults(s: Snapshot, f: SearchFilters, results: seq<Flight>)
    requires results != []
    ensures var r := RunAll(s, SearchActions(f, results));
      && r.state.searchResults == results
      && r.state.searchFilters == f
      && r.state.currentView == "results"
      && !r.state.isLoading
      && r.storage == s.storage
  {
    var acts := SearchActions(f, results);
    assert acts == [SetLoading(true), SetSearchFilters(f), SetSearchResults(results),
                    SetCurrentView("results"), SetLoading(false)];
    RunAllThree(s, acts[0], acts[1], acts[2]);
    var s3 := RunAll(s, acts[..3]);
    assert acts[..3] == [acts[0], acts[1], acts[2]];
    RunAllTwo(s3, acts[3], acts[4]);
    RunAllAppend(s, acts[..3], acts[3..]);
    assert acts[3..] == [acts[3], acts[4]];
    assert acts[..3] + acts[3..] == acts;
  }
}
