/** Records of the booking application (src/types/index.ts), as values. */
module Types {

  datatype Option<+T> = None | Some(value: T)

  datatype Airport = Airport(code: string, name: string, city: string, country: string)

  /** The four cabins; each flight has one price and one seat count per cabin. */
  datatype TravelClass = Economy | Premium | Business | First

  /** A figure per cabin: used for fares and for available-seat counts. */
  datatype PerClass = PerClass(economy: int, premium: int, business: int, first: int)
  {
    function Get(c: TravelClass): int
    {
      match c
      case Economy => economy
      case Premium => premium
      case Business => business
      case First => first
    }
  }

  /**
   * A generated flight. Departure and arrival are minutes since a fixed epoch
   * (the ISO timestamps of the source, read as instants).
   */
  datatype Flight = Flight(
    id: string,
    flightNumber: string,
    airline: string,
    origin: Airport,
    destination: Airport,
    departureTime: int,
    arrivalTime: int,
    duration: string,
    price: PerClass,
    aircraft: string,
    stops: int,
    availableSeats: PerClass)

  datatype TripType = OneWay | RoundTrip

  datatype SearchFilters = SearchFilters(
    origin: string,
    destination: string,
    departureDate: string,
    returnDate: Option<string>,
    passengers: int,
    infants: int,
    travelClass: TravelClass,
    tripType: TripType)

  datatype PassengerType = Adult | Child | InfantPassenger

  datatype Passenger = Passenger(
    id: string,
    title: string,
    firstName: string,
    lastName: string,
    dateOfBirth: string,
    passportNumber: string,
    email: string,
    phone: string,
    kind: PassengerType)

  datatype Infant = Infant(
    id: string,
    firstName: string,
    lastName: string,
    dateOfBirth: string,
    parentId: string)

  datatype Seat = Seat(
    id: string,
    seatNumber: string,
    cabin: TravelClass,
    isAvailable: bool,
    isSelected: bool,
    price: int)

  datatype BookingStatus = Pending | Confirmed | Cancelled

  /** Totals may carry the 10% infant fare, so they are reals. */
  datatype Booking = Booking(
    id: string,
    bookingReference: string,
    flight: Flight,
    passengers: seq<Passenger>,
    infants: seq<Infant>,
    seats: seq<Seat>,
    totalAmount: real,
    status: BookingStatus,
    createdAt: string)

  /** The session user: a stored account without its password. */
  datatype User = User(
    id: string,
    email: string,
    firstName: string,
    lastName: string,
    phone: string,
    dateOfBirth: string)

  /** An account record of the `skyways_users` list, password in clear text. */
  datatype StoredUser = StoredUser(
    id: string,
    email: string,
    password: string,
    firstName: string,
    lastName: string,
    phone: string,
    dateOfBirth: string,
    createdAt: string)

  datatype RoomType = Standard | Deluxe | Suite | Luxury

  datatype HotelRoom = HotelRoom(
    id: string,
    kind: RoomType,
    name: string,
    description: string,
    maxOccupancy: int,
    pricePerNight: int,
    available: bool,
    size: string)

  datatype Hotel = Hotel(
    id: string,
    name: string,
    address: string,
    city: string,
    rating: real,
    description: string,
    distanceFromAirport: int,
    distanceFromCity: int,
    rooms: seq<HotelRoom>,
    reviewCount: int,
    averageRating: real)

  datatype CabType = EconomyCab | PremiumCab | LuxuryCab | SuvCab

  datatype CabService = CabService(
    id: string,
    name: string,
    kind: CabType,
    capacity: int,
    description: string,
    pricePerKm: int,
    basePrice: int,
    rating: real)

  /** `xs` occurs in `ys` in order, possibly with gaps. */
  predicate IsSubsequence<T(==)>(xs: seq<T>, ys: seq<T>)
    decreases |ys|
  {
    xs == [] || (ys != [] && ((xs[0] == ys[0] && IsSubsequence(xs[1..], ys[1..])) || IsSubsequence(xs, ys[1..])))
  }

  /** The smallest and the largest of a flight's four fares. */
  function MinPrice(p: PerClass): (r: int)
    ensures r <= p.economy && r <= p.premium && r <= p.business && r <= p.first
    ensures r == p.economy || r == p.premium || r == p.business || r == p.first
  {
    var a := if p.economy <= p.premium then p.economy else p.premium;
    var b := if a <= p.business then a else p.business;
    if b <= p.first then b else p.first
  }

  function MaxPrice(p: PerClass): (r: int)
    ensures r >= p.economy && r >= p.premium && r >= p.business && r >= p.first
    ensures r == p.economy || r == p.premium || r == p.business || r == p.first
  {
    var a := if p.economy >= p.premium then p.economy else p.premium;
    var b := if a >= p.business then a else p.business;
    if b >= p.first then b else p.first
  }

  /** Sum of the seat surcharges, as the source's `reduce` computes it. */
  function SeatPriceSum(seats: seq<Seat>): int
  {
    if seats == [] then 0 else SeatPriceSum(seats[..|seats| - 1]) + seats[|seats| - 1].price
  }

  lemma {:induction false} SeatPriceSumAppend(seats: seq<Seat>, extra: seq<Seat>)
    ensures SeatPriceSum(seats + extra) == SeatPriceSum(seats) + SeatPriceSum(extra)
    decreases |extra|
  {
    if extra == [] {
      assert seats + extra == seats;
    } else {
      var init := extra[..|extra| - 1];
      assert (seats + extra)[..|seats + extra| - 1] == seats + init;
      SeatPriceSumAppend(seats, init);
    }
  }
}
