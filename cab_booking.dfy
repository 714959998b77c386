/**
 * The cab step after the hotel (src/components/CabBooking.tsx): the
 * transfer type, the pickup and drop texts it implies, the fare estimate per
 * service, and the back, book and skip buttons.
 */
module CabBooking {
  import opened Types
  import opened Text
  import opened AppStore
  import FlightData
  import HotelData

  datatype TransferKind = AirportPickup | AirportDrop | HotelTransfer

  /** `${x}` of a possibly missing airport name. */
  function NameOrUndefined(a: Option<Airport>): string
  {
    if a.Some? then a.value.name else "undefined"
  }

  function Destination(f: Option<Flight>): Option<Airport>
  {
    if f.Some? then Some(f.value.destination) else None
  }

  function Origin(f: Option<Flight>): Option<Airport>
  {
    if f.Some? then Some(f.value.origin) else None
  }

  /** `customPickup || default`. */
  function OrDefault(custom: string, default: string): (r: string)
    ensures custom != "" ==> r == custom
    ensures custom == "" ==> r == default
  {
    if custom != "" then custom else default
  }

  /**
   * `getPickupLocation`: the arrival airport for a pickup from the airport,
   * else the typed pickup or a placeholder.
   */
  function PickupLocation(kind: TransferKind, flight: Option<Flight>, customPickup: string): (r: string)
    ensures kind == AirportPickup ==> r == NameOrUndefined(Destination(flight))
    ensures kind == AirportDrop ==> r == OrDefault(customPickup, "Hotel/City Location")
    ensures kind == HotelTransfer ==> r == OrDefault(customPickup, "Current Location")
  {
    match kind
    case AirportPickup => NameOrUndefined(Destination(flight))
    case AirportDrop => OrDefault(customPickup, "Hotel/City Location")
    case HotelTransfer => OrDefault(customPickup, "Current Location")
  }

  /**
   * `getDropLocation`: the departure airport for a drop at the airport,
   * else the typed drop or a placeholder.
   */
  function DropLocation(kind: TransferKind, flight: Option<Flight>, customDrop: string): (r: string)
    ensures kind == AirportPickup ==> r == OrDefault(customDrop, "Hotel/City Destination")
    ensures kind == AirportDrop ==> r == NameOrUndefined(Origin(flight))
    ensures kind == HotelTransfer ==> r == OrDefault(customDrop, "Destination")
  {
    match kind
    case AirportPickup => OrDefault(customDrop, "Hotel/City Destination")
    case AirportDrop => NameOrUndefined(Origin(flight))
    case HotelTransfer => OrDefault(customDrop, "Destination")
  }

  /** A name ending in `Airport` mentions it. */
  lemma EndsWithAirport(name: string)
    requires |name| >= 7 && name[|name| - 7..] == "Airport"
    ensures Contains(name, "Airport")
  {
    ContainsAt(name, "Airport", |name| - 7);
  }

  /**
   * A transfer to or from an airport whose name ends in `Airport` (every
   * airport of the table) is priced as an airport trip: 15 to 44 km.
   */
  lemma AirportTransferDistance(kind: TransferKind, f: Flight, customPickup: string, customDrop: string, draw: real)
    requires FlightData.InUnit(draw)
    requires kind == AirportPickup || kind == AirportDrop
    requires var a := if kind == AirportPickup then f.destination else f.origin;
      |a.name| >= 7 && a.name[|a.name| - 7..] == "Airport"
    ensures var d := HotelData.TripDistance(PickupLocation(kind, Some(f), customPickup),
                                            DropLocation(kind, Some(f), customDrop), draw);
      15 <= d < 45
  {
    if kind == AirportPickup {
      EndsWithAirport(f.destination.name);
    } else {
      EndsWithAirport(f.origin.name);
    }
  }

  /**
   * A hotel transfer between typed places that mention neither an airport nor
   * a hotel (no capital A or H in either) is priced at the flat 15 km.
   */
  lemma PlainTransferDistance(flight: Option<Flight>, customPickup: string, customDrop: string, draw: real)
    requires FlightData.InUnit(draw)
    requires customPickup != "" && customDrop != ""
    requires 'A' !in customPickup && 'H' !in customPickup && 'A' !in customDrop && 'H' !in customDrop
    ensures HotelData.TripDistance(PickupLocation(HotelTransfer, flight, customPickup),
                                   DropLocation(HotelTransfer, flight, customDrop), draw) == 15
  {
    PlainText(customPickup);
    PlainText(customDrop);
  }

  /** Text without a capital A or H mentions neither an airport nor a hotel. */
  lemma PlainText(s: string)
    requires 'A' !in s && 'H' !in s
    ensures !Contains(s, "Airport") && !Contains(s, "Hotel")
  {
    NotContains(s, "Airport");
    NotContains(s, "Hotel");
  }

  /** `s.includes(sub)` is false when no position of `s` starts `sub`. */
  lemma {:induction false} NotContains(s: string, sub: string)
    requires sub != [] && sub[0] !in s
    ensures !Contains(s, sub)
    decreases |s|
  {
    if s != [] {
      assert s[0] in s;
      NotContains(s[1..], sub);
    }
  }

  /** The page's state cells. */
  class CabPage {
    var selectedService: Option<CabService>
    var kind: TransferKind
    var customPickup: string
    var customDrop: string
    var passengers: int
    var showBookingForm: bool

    constructor (s: AppState)
      ensures selectedService.None? && kind == AirportPickup && customPickup == "" && customDrop == ""
      ensures passengers == s.searchFilters.passengers && !showBookingForm
    {
      selectedService := None;
      kind := AirportPickup;
      customPickup := "";
      customDrop := "";
      passengers := s.searchFilters.passengers;
      showBookingForm := false;
    }

    /** `getEstimate`: the estimate for this page's pickup and drop. */
    function Estimate(s: AppState, service: CabService, draw: real): (e: HotelData.CabEstimate)
      reads this
      requires FlightData.InUnit(draw)
      ensures e == HotelData.EstimateCab(PickupLocation(kind, s.selectedFlight, customPickup),
                                         DropLocation(kind, s.selectedFlight, customDrop), service, draw)
      ensures e.totalAmount == service.basePrice + e.distance * service.pricePerKm
    {
      HotelData.EstimateCab(PickupLocation(kind, s.selectedFlight, customPickup),
                            DropLocation(kind, s.selectedFlight, customDrop), service, draw)
    }

    /** `handleServiceSelect`: remember the service and open the form. */
    method ServiceSelect(service: CabService)
      modifies this
      ensures selectedService == Some(service) && showBookingForm
      ensures kind == old(kind) && customPickup == old(customPickup) && customDrop == old(customDrop)
      ensures passengers == old(passengers)
    {
      selectedService := Some(service);
      showBookingForm := true;
    }

    /** `handleBack`: from the form, close it and forget the service; from the list, back to the hotels. */
    method Back() returns (actions: seq<Action>)
      modifies this
      ensures old(showBookingForm) ==> actions == [] && !showBookingForm && selectedService.None?
      ensures !old(showBookingForm) ==>
        actions == [SetCurrentView("hotel-booking")] && selectedService == old(selectedService) && !showBookingForm
      ensures kind == old(kind) && customPickup == old(customPickup) && customDrop == old(customDrop)
      ensures passengers == old(passengers)
    {
      if showBookingForm {
        showBookingForm := false;
        selectedService := None;
        actions := [];
      } else {
        actions := [SetCurrentView("hotel-booking")];
      }
    }
  }

  /** `handleBookCab` and the skip button: both go on to the package summary. */
  function BookCab(): (actions: seq<Action>)
    ensures actions == [SetCurrentView("travel-package")]
  {
    [SetCurrentView("travel-package")]
  }

  function SkipCab(): (actions: seq<Action>)
    ensures actions == BookCab()
  {
    [SetCurrentView("travel-package")]
  }
}
