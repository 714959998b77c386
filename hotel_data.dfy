/**
 * The hotel and cab mock data (src/data/hotelData.ts): per-city hotel
 * tables, the fixed four-room table priced from the hotel's rating, the
 * city-name lookup, the four cab services and the cab fare estimate.
 * Random draws are parameters in [0, 1).
 */
module HotelData {
  import opened Types
  import opened Text
  import FlightData

  /** A hotel as the per-city tables list it, before the rooms and reviews are added. */
  datatype HotelSeed = HotelSeed(
    name: string,
    rating: real,
    description: string,
    distanceFromAirport: int,
    distanceFromCity: int)

  /** The five cities with their own hotel lists. */
  function CityHotels(code: string): (r: Option<seq<HotelSeed>>)
    ensures r.Some? <==> KnownHotelCity(code)
  {
    if code == "BOM" then Some(MumbaiHotels)
    else if code == "DEL" then Some(DelhiHotels)
    else if code == "BLR" then Some(BangaloreHotels)
    else if code == "DXB" then Some(DubaiHotels)
    else if code == "SIN" then Some(SingaporeHotels)
    else None
  }

  const MumbaiHotels: seq<HotelSeed> := [
    HotelSeed("The Taj Mahal Palace", 5.0, "Iconic luxury hotel overlooking the Gateway of India", 25, 2),
    HotelSeed("The Oberoi Mumbai", 5.0, "Contemporary luxury with stunning views of the Arabian Sea", 22, 3),
    HotelSeed("ITC Grand Central", 4.5, "Modern business hotel in the heart of Mumbai", 18, 5),
    HotelSeed("Hotel Sahara Star", 4.0, "Airport hotel with unique architecture and modern amenities", 3, 20)]

  const DelhiHotels: seq<HotelSeed> := [
    HotelSeed("The Imperial New Delhi", 5.0, "Historic luxury hotel in the heart of New Delhi", 15, 2),
    HotelSeed("The Leela Palace New Delhi", 5.0, "Opulent palace-style hotel with world-class amenities", 12, 8),
    HotelSeed("Radisson Blu Plaza Delhi Airport", 4.5, "Premium airport hotel with excellent connectivity", 2, 18),
    HotelSeed("Hotel Diplomat", 4.0, "Comfortable business hotel in Karol Bagh", 20, 5)]

  const BangaloreHotels: seq<HotelSeed> := [
    HotelSeed("The Ritz-Carlton Bangalore", 5.0, "Luxury hotel in the heart of Bangalore's business district", 35, 2),
    HotelSeed("Taj West End", 5.0, "Heritage hotel with lush gardens and colonial charm", 40, 3),
    HotelSeed("Hilton Bangalore Embassy GolfLinks", 4.5, "Modern hotel with golf course views", 30, 8),
    HotelSeed("Fairfield by Marriott Bangalore Airport", 4.0, "Contemporary airport hotel with modern facilities", 5, 45)]

  const DubaiHotels: seq<HotelSeed> := [
    HotelSeed("Burj Al Arab Jumeirah", 5.0, "World's most luxurious hotel with iconic sail-shaped architecture", 20, 5),
    HotelSeed("Atlantis The Palm", 5.0, "Spectacular resort on the iconic Palm Jumeirah", 25, 15),
    HotelSeed("Emirates Palace Abu Dhabi", 5.0, "Opulent palace hotel with private beach", 45, 10),
    HotelSeed("Le Meridien Dubai Airport", 4.5, "Convenient airport hotel with direct terminal access", 1, 25)]

  const SingaporeHotels: seq<HotelSeed> := [
    HotelSeed("Marina Bay Sands", 5.0, "Iconic hotel with infinity pool and stunning city views", 20, 2),
    HotelSeed("Raffles Singapore", 5.0, "Historic luxury hotel with colonial elegance", 18, 3),
    HotelSeed("The Ritz-Carlton Millenia Singapore", 5.0, "Luxury hotel with panoramic harbor views", 22, 4),
    HotelSeed("Crowne Plaza Changi Airport", 4.5, "Premium airport hotel connected to Terminal 3", 0, 25)]

  const FallbackHotels: seq<HotelSeed> := [
    HotelSeed("Grand Plaza Hotel", 4.0, "Comfortable hotel with modern amenities", 15, 5),
    HotelSeed("Airport Inn", 3.5, "Convenient airport hotel for travelers", 3, 20)]

  predicate KnownHotelCity(code: string)
  {
    code in ["BOM", "DEL", "BLR", "DXB", "SIN"]
  }

  /** `cityHotels[cityCode] || fallback`: four hotels for the five listed cities, two elsewhere. */
  function BaseHotels(code: string): (seeds: seq<HotelSeed>)
    ensures KnownHotelCity(code) ==> |seeds| == 4
    ensures !KnownHotelCity(code) ==> seeds == FallbackHotels
    ensures forall i :: 0 <= i < |seeds| ==> TableRating(seeds[i].rating)
  {
    match CityHotels(code)
    case Some(list) =>
      assert list in {MumbaiHotels, DelhiHotels, BangaloreHotels, DubaiHotels, SingaporeHotels};
      list
    case None => FallbackHotels
  }

  /** The ratings the tables use: whole and half stars from 3.5 to 5. */
  predicate TableRating(r: real)
  {
    r == 3.5 || r == 4.0 || r == 4.5 || r == 5.0
  }

  /** `getCityName`'s table. */
  const CityNames: map<string, string> := map[
    "DEL" := "Delhi", "BOM" := "Mumbai", "BLR" := "Bangalore", "MAA" := "Chennai",
    "CCU" := "Kolkata", "HYD" := "Hyderabad", "GOI" := "Goa", "COK" := "Kochi",
    "DXB" := "Dubai", "SIN" := "Singapore", "LHR" := "London", "JFK" := "New York",
    "CDG" := "Paris", "FRA" := "Frankfurt"]

  /** `getCityName`: the table's name, `City` for a code it does not list. */
  function GetCityName(code: string): (name: string)
    ensures code in CityNames ==> name == CityNames[code]
    ensures name == "City" <==> code !in CityNames
  {
    assert "City" !in CityNames.Values;
    if code in CityNames then CityNames[code] else "City"
  }

  /** Every city with its own hotel list has a name in the table. */
  lemma HotelCitiesAreNamed(code: string)
    requires KnownHotelCity(code)
    ensures GetCityName(code) != "City"
  {
    assert code in CityNames;
  }

  /** The draws one hotel consumes. */
  datatype HotelDraws = HotelDraws(reviewCount: real, averageRating: real, suite: real, luxury: real)

  predicate ValidHotelDraws(d: HotelDraws)
  {
    FlightData.InUnit(d.reviewCount) && FlightData.InUnit(d.averageRating)
    && FlightData.InUnit(d.suite) && FlightData.InUnit(d.luxury)
  }

  /** The room table's four rows: kind, occupancy and price factor. */
  function RoomOccupancy(kind: RoomType): int
  {
    match kind
    case Standard => 2
    case Deluxe => 3
    case Suite => 4
    case Luxury => 6
  }

  function RoomFactor(kind: RoomType): real
  {
    match kind
    case Standard => 0.8
    case Deluxe => 1.2
    case Suite => 1.8
    case Luxury => 3.0
  }

  /** `Math.round(hotelRating * 2000 * factor)`. */
  function NightlyPrice(rating: real, kind: RoomType): int
  {
    FlightData.Round(rating * 2000.0 * RoomFactor(kind))
  }

  function MakeRoom(kind: RoomType, rating: real, available: bool): HotelRoom
  {
    match kind
    case Standard => HotelRoom("standard", Standard, "Standard Room", "Comfortable room with essential amenities",
                               2, NightlyPrice(rating, Standard), available, "25 sqm")
    case Deluxe => HotelRoom("deluxe", Deluxe, "Deluxe Room", "Spacious room with city views and premium amenities",
                             3, NightlyPrice(rating, Deluxe), available, "35 sqm")
    case Suite => HotelRoom("suite", Suite, "Executive Suite", "Luxurious suite with separate living area",
                            4, NightlyPrice(rating, Suite), available, "55 sqm")
    case Luxury => HotelRoom("luxury", Luxury, "Presidential Suite",
                             "Ultimate luxury with panoramic views and premium services",
                             6, NightlyPrice(rating, Luxury), available, "85 sqm")
  }

  /**
   * `generateRoomsForHotel`: standard, deluxe, suite and luxury rooms sleeping
   * 2, 3, 4 and 6, priced from the rating; the first two are always
   * available, the suite when its draw exceeds 0.3, the luxury room when its
   * draw exceeds 0.6.
   */
  function GenerateRoomsForHotel(rating: real, suiteDraw: real, luxuryDraw: real): (rooms: seq<HotelRoom>)
    ensures |rooms| == 4
    ensures rooms[0].kind == Standard && rooms[1].kind == Deluxe && rooms[2].kind == Suite && rooms[3].kind == Luxury
    ensures forall i :: 0 <= i < 4 ==>
      rooms[i].maxOccupancy == RoomOccupancy(rooms[i].kind)
      && rooms[i].pricePerNight == NightlyPrice(rating, rooms[i].kind)
    ensures rooms[0].available && rooms[1].available
    ensures rooms[2].available <==> suiteDraw > 0.3
    ensures rooms[3].available <==> luxuryDraw > 0.6
  {
    [MakeRoom(Standard, rating, true), MakeRoom(Deluxe, rating, true),
     MakeRoom(Suite, rating, suiteDraw > 0.3), MakeRoom(Luxury, rating, luxuryDraw > 0.6)]
  }

  /** Rooms sleep more and cost more going up the table. */
  lemma RoomsAscend(rating: real, suiteDraw: real, luxuryDraw: real)
    requires rating >= 0.0
    ensures var rooms := GenerateRoomsForHotel(rating, suiteDraw, luxuryDraw);
      forall i, j :: 0 <= i < j < 4 ==>
        rooms[i].maxOccupancy < rooms[j].maxOccupancy && rooms[i].pricePerNight <= rooms[j].pricePerNight
  {
    var rooms := GenerateRoomsForHotel(rating, suiteDraw, luxuryDraw);
    forall i, j | 0 <= i < j < 4
      ensures rooms[i].pricePerNight <= rooms[j].pricePerNight
    {
      assert RoomFactor(rooms[i].kind) <= RoomFactor(rooms[j].kind);
      FlightData.RoundMonotone(rating * 2000.0 * RoomFactor(rooms[i].kind), rating * 2000.0 * RoomFactor(rooms[j].kind));
    }
  }

  /** On the half-star ratings of the tables no rounding happens: 800, 1200, 1800 and 3000 per half star. */
  lemma HalfStarPrices(h: nat, kind: RoomType)
    ensures NightlyPrice(h as real / 2.0, kind) == h * (match kind
      case Standard => 800
      case Deluxe => 1200
      case Suite => 1800
      case Luxury => 3000)
  {
    var exact := h * (match kind case Standard => 800 case Deluxe => 1200 case Suite => 1800 case Luxury => 3000);
    assert (h as real / 2.0) * 2000.0 * RoomFactor(kind) == exact as real;
    RoundOfInteger(exact);
  }

  lemma RoundOfInteger(n: int)
    ensures FlightData.Round(n as real) == n
  {
  }

  function HotelId(code: string, i: nat): string
  {
    "hotel-" + code + "-" + NatToString(i + 1)
  }

  /**
   * One hotel: id `hotel-<code>-<n>`, the city's name, the seed's fields,
   * the four-room table, between 100 and 1099 reviews and an average within
   * 0.2 of the rating.
   */
  function MakeHotel(code: string, i: nat, seed: HotelSeed, d: HotelDraws): (h: Hotel)
    requires ValidHotelDraws(d)
    ensures h.id == HotelId(code, i) && h.city == GetCityName(code)
    ensures h.name == seed.name && h.rating == seed.rating && h.description == seed.description
    ensures h.distanceFromAirport == seed.distanceFromAirport && h.distanceFromCity == seed.distanceFromCity
    ensures h.rooms == GenerateRoomsForHotel(seed.rating, d.suite, d.luxury)
    ensures 100 <= h.reviewCount < 1100
    ensures seed.rating - 0.2 <= h.averageRating < seed.rating + 0.2
  {
    Hotel(HotelId(code, i), seed.name, seed.name + " Street, " + GetCityName(code), GetCityName(code),
          seed.rating, seed.description, seed.distanceFromAirport, seed.distanceFromCity,
          GenerateRoomsForHotel(seed.rating, d.suite, d.luxury),
          (d.reviewCount * 1000.0).Floor + 100,
          seed.rating - 0.2 + d.averageRating * 0.4)
  }

  /** `generateHotelsForCity`: one hotel per table entry, in table order. */
  function GenerateHotelsForCity(code: string, draws: seq<HotelDraws>): (hotels: seq<Hotel>)
    requires |draws| >= 4
    requires forall i :: 0 <= i < |draws| ==> ValidHotelDraws(draws[i])
    ensures |hotels| == if KnownHotelCity(code) then 4 else 2
    ensures forall i :: 0 <= i < |hotels| ==> hotels[i] == MakeHotel(code, i, BaseHotels(code)[i], draws[i])
  {
    var seeds := BaseHotels(code);
    seq(|seeds|, i requires 0 <= i < |seeds| => MakeHotel(code, i, seeds[i], draws[i]))
  }

  /** Hotel ids within a city are pairwise distinct. */
  lemma HotelIdsDistinct(code: string, i: nat, j: nat)
    requires i != j
    ensures HotelId(code, i) != HotelId(code, j)
  {
    if HotelId(code, i) == HotelId(code, j) {
      var p := "hotel-" + code + "-";
      assert HotelId(code, i) == p + NatToString(i + 1);
      assert HotelId(code, j) == p + NatToString(j + 1);
      assert NatToString(i + 1) == HotelId(code, i)[|p|..];
      assert NatToString(j + 1) == HotelId(code, j)[|p|..];
      NatToStringInjective(i + 1, j + 1);
    }
  }

  // ---------------------------------------------------------------------
  // Cabs

  /** `cabServices`. */
  const CabServices: seq<CabService> := [
    CabService("economy-sedan", "Economy Sedan", EconomyCab, 4,
               "Comfortable and affordable ride for city travel", 12, 100, 4.2),
    CabService("premium-sedan", "Premium Sedan", PremiumCab, 4,
               "Premium comfort with professional drivers", 18, 150, 4.5),
    CabService("luxury-sedan", "Luxury Sedan", LuxuryCab, 4,
               "Luxury travel experience with top-end vehicles", 25, 250, 4.8),
    CabService("suv", "SUV", SuvCab, 7,
               "Spacious SUV perfect for groups and families", 22, 200, 4.4)]

  datatype CabEstimate = CabEstimate(distance: int, totalAmount: int, estimatedDuration: string)

  /** `Math.ceil`. */
  function Ceil(x: real): (n: int)
    ensures x <= n as real < x + 1.0
  {
    -((-x).Floor)
  }

  /**
   * The simulated trip length in km: 15 to 44 when either end mentions
   * `Airport`, else 5 to 24 when either mentions `Hotel`, else 15.
   */
  function TripDistance(pickup: string, drop: string, draw: real): (d: int)
    requires FlightData.InUnit(draw)
    ensures Contains(pickup, "Airport") || Contains(drop, "Airport") ==> 15 <= d < 45
    ensures !(Contains(pickup, "Airport") || Contains(drop, "Airport")) ==>
      (Contains(pickup, "Hotel") || Contains(drop, "Hotel") ==> 5 <= d < 25)
      && (!(Contains(pickup, "Hotel") || Contains(drop, "Hotel")) ==> d == 15)
  {
    if Contains(pickup, "Airport") || Contains(drop, "Airport") then (draw * 30.0).Floor + 15
    else if Contains(pickup, "Hotel") || Contains(drop, "Hotel") then (draw * 20.0).Floor + 5
    else 15
  }

  /**
   * `generateCabBookingEstimate`: the trip length, the base price plus the
   * per-km price for each km, and the minutes at 30 km/h, rounded up.
   */
  function EstimateCab(pickup: string, drop: string, service: CabService, draw: real): (e: CabEstimate)
    requires FlightData.InUnit(draw)
    ensures e.distance == TripDistance(pickup, drop, draw)
    ensures e.totalAmount == service.basePrice + e.distance * service.pricePerKm
    ensures e.estimatedDuration == NatToString(2 * e.distance) + " mins"
  {
    var d := TripDistance(pickup, drop, draw);
    var minutes := Ceil(d as real / 30.0 * 60.0);
    assert minutes == 2 * d;
    CabEstimate(d, service.basePrice + d * service.pricePerKm, NatToString(minutes) + " mins")
  }

  /** For one trip, the services cost economy < SUV < luxury and economy < premium < luxury. */
  lemma CabFareOrder(pickup: string, drop: string, draw: real)
    requires FlightData.InUnit(draw)
    ensures var fare := (i: int) requires 0 <= i < 4 => EstimateCab(pickup, drop, CabServices[i], draw).totalAmount;
      fare(0) < fare(1) < fare(2) && fare(0) < fare(3) < fare(2)
  {
  }

  /** An airport transfer costs at least the base price plus 15 km, and at most plus 44 km. */
  lemma AirportFareBounds(pickup: string, drop: string, service: CabService, draw: real)
    requires FlightData.InUnit(draw) && Contains(pickup, "Airport") && service.pricePerKm >= 0
    ensures var t := EstimateCab(pickup, drop, service, draw).totalAmount;
      service.basePrice + 15 * service.pricePerKm <= t <= service.basePrice + 44 * service.pricePerKm
  {
    var d := TripDistance(pickup, drop, draw);
    assert 15 <= d <= 44;
    assert 15 * service.pricePerKm <= d * service.pricePerKm <= 44 * service.pricePerKm by {
      MultiplyMonotone(15, d, service.pricePerKm);
      MultiplyMonotone(d, 44, service.pricePerKm);
    }
  }

  lemma MultiplyMonotone(a: int, b: int, k: int)
    requires a <= b && k >= 0
    ensures a * k <= b * k
  {
  }
}
