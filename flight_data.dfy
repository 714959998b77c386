/**
 * The mock flight data (src/data/mockData.ts): the airport table, the
 * base-price resolver, the per-route flight generator and the seat map
 * generator. Every `Math.random()` draw is an explicit real in [0, 1); a
 * calendar day is the minute its local midnight falls on.
 */
module FlightData {
  import opened Types
  import opened Text

  const Airports: seq<Airport> := [
    Airport("DEL", "Indira Gandhi International Airport", "Delhi", "India"),
    Airport("BOM", "Chhatrapati Shivaji Maharaj International Airport", "Mumbai", "India"),
    Airport("BLR", "Kempegowda International Airport", "Bangalore", "India"),
    Airport("MAA", "Chennai International Airport", "Chennai", "India"),
    Airport("CCU", "Netaji Subhas Chandra Bose International Airport", "Kolkata", "India"),
    Airport("HYD", "Rajiv Gandhi International Airport", "Hyderabad", "India"),
    Airport("AMD", "Sardar Vallabhbhai Patel International Airport", "Ahmedabad", "India"),
    Airport("PNQ", "Pune Airport", "Pune", "India"),
    Airport("GOI", "Goa International Airport", "Goa", "India"),
    Airport("COK", "Cochin International Airport", "Kochi", "India"),
    Airport("JAI", "Jaipur International Airport", "Jaipur", "India"),
    Airport("LKO", "Chaudhary Charan Singh International Airport", "Lucknow", "India"),
    Airport("IXC", "Chandigarh Airport", "Chandigarh", "India"),
    Airport("IXB", "Bagdogra Airport", "Bagdogra", "India"),
    Airport("GAU", "Lokpriya Gopinath Bordoloi International Airport", "Guwahati", "India"),
    Airport("DXB", "Dubai International Airport", "Dubai", "UAE"),
    Airport("SIN", "Singapore Changi Airport", "Singapore", "Singapore"),
    Airport("LHR", "London Heathrow Airport", "London", "UK"),
    Airport("JFK", "John F. Kennedy International Airport", "New York", "USA"),
    Airport("NRT", "Narita International Airport", "Tokyo", "Japan"),
    Airport("CDG", "Charles de Gaulle Airport", "Paris", "France"),
    Airport("FRA", "Frankfurt Airport", "Frankfurt", "Germany"),
    Airport("SYD", "Sydney Kingsford Smith Airport", "Sydney", "Australia"),
    Airport("BKK", "Suvarnabhumi Airport", "Bangkok", "Thailand"),
    Airport("KUL", "Kuala Lumpur International Airport", "Kuala Lumpur", "Malaysia"),
    Airport("ICN", "Incheon International Airport", "Seoul", "South Korea"),
    Airport("HKG", "Hong Kong International Airport", "Hong Kong", "Hong Kong")
  ]

  const DomesticAirlines: seq<string> :=
    ["Air India", "IndiGo", "SpiceJet", "Vistara", "GoAir", "AirAsia India"]

  const InternationalAirlines: seq<string> :=
    ["Air India", "Emirates", "Singapore Airlines", "British Airways", "Lufthansa",
     "Qatar Airways", "Thai Airways", "Malaysia Airlines", "Korean Air", "Cathay Pacific"]

  const AircraftTypes: seq<string> :=
    ["Airbus A320", "Boeing 737", "Airbus A321", "Boeing 777", "Airbus A350", "Boeing 787", "Airbus A330"]

  /** `airports.find(a => a.code === code)`: the first airport with that code. */
  function FindAirport(code: string): (r: Option<Airport>)
    ensures r.Some? ==> r.value in Airports && r.value.code == code
    ensures r.None? <==> forall a :: a in Airports ==> a.code != code
  {
    FindIn(Airports, code)
  }

  function FindIn(table: seq<Airport>, code: string): (r: Option<Airport>)
    ensures r.Some? ==> r.value in table && r.value.code == code
    ensures r.None? <==> forall a :: a in table ==> a.code != code
  {
    if table == [] then None
    else if table[0].code == code then Some(table[0])
    else FindIn(table[1..], code)
  }

  /** A route is international exactly when the two countries differ. */
  predicate IsInternational(origin: Airport, destination: Airport)
  {
    origin.country != destination.country
  }

  function AirlinePool(international: bool): (pool: seq<string>)
    ensures |pool| == (if international then 10 else 6)
  {
    if international then InternationalAirlines else DomesticAirlines
  }

  // ---------------------------------------------------------------------
  // Base prices

  predicate StrictlyIncreasing(p: PerClass)
  {
    p.economy < p.premium < p.business < p.first
  }

  /** Route keys are `<origin>-<destination>`. */
  function RouteKey(originCode: string, destinationCode: string): string
  {
    originCode + "-" + destinationCode
  }

  const InternationalRoutePrices: seq<(string, PerClass)> := [
    ("DEL-DXB", PerClass(18500, 32500, 58500, 95000)),
    ("BOM-DXB", PerClass(16800, 29800, 52800, 88000)),
    ("BLR-DXB", PerClass(19200, 33500, 59800, 96500)),
    ("DEL-SIN", PerClass(28500, 48500, 85500, 145000)),
    ("BOM-SIN", PerClass(26500, 45500, 82500, 140000)),
    ("BLR-SIN", PerClass(24500, 42500, 78500, 135000)),
    ("DEL-LHR", PerClass(45500, 78500, 135500, 225000)),
    ("BOM-LHR", PerClass(47000, 80000, 138000, 228000)),
    ("DEL-JFK", PerClass(65000, 110000, 185000, 295000)),
    ("BOM-JFK", PerClass(67000, 112000, 187000, 297000)),
    ("DEL-CDG", PerClass(42000, 72000, 125000, 205000)),
    ("DEL-FRA", PerClass(43000, 73000, 126000, 206000)),
    ("DEL-NRT", PerClass(35000, 60000, 105000, 175000)),
    ("DEL-BKK", PerClass(22000, 38000, 68000, 115000)),
    ("DEL-KUL", PerClass(24000, 41000, 72000, 125000)),
    ("DEL-ICN", PerClass(32000, 55000, 95000, 160000)),
    ("DEL-HKG", PerClass(30000, 52000, 90000, 155000)),
    ("DEL-SYD", PerClass(55000, 95000, 165000, 275000)),
    ("BOM-SYD", PerClass(57000, 97000, 167000, 277000))
  ]

  const DomesticRoutePrices: seq<(string, PerClass)> := [
    ("DEL-BOM", PerClass(4500, 7500, 12500, 18500)),
    ("BOM-DEL", PerClass(4800, 7800, 12800, 18800)),
    ("DEL-BLR", PerClass(5200, 8200, 13800, 19800)),
    ("BLR-DEL", PerClass(5400, 8400, 14000, 20000)),
    ("BOM-GOI", PerClass(3200, 5500, 9200, 14200)),
    ("GOI-BOM", PerClass(3400, 5700, 9400, 14400))
  ]

  const GulfPrices: PerClass := PerClass(18000, 32000, 58000, 95000)
  const SoutheastAsiaPrices: PerClass := PerClass(25000, 43000, 78000, 135000)
  const EuropePrices: PerClass := PerClass(44000, 75000, 130000, 215000)
  const UsaPrices: PerClass := PerClass(65000, 110000, 185000, 295000)
  const GenericInternationalPrices: PerClass := PerClass(30000, 50000, 85000, 150000)
  const DomesticDefaultPrices: PerClass := PerClass(4000, 6500, 11000, 16500)

  const SoutheastAsia: seq<string> := ["SIN", "BKK", "KUL", "HKG"]
  const Europe: seq<string> := ["LHR", "CDG", "FRA"]

  /** Every row of a price table is strictly increasing from economy to first. */
  predicate TableIncreasing(table: seq<(string, PerClass)>)
  {
    forall i :: 0 <= i < |table| ==> StrictlyIncreasing(table[i].1)
  }

  /** The table's entry for `key`, if it has one. */
  function Lookup(table: seq<(string, PerClass)>, key: string): (r: Option<PerClass>)
    ensures r.Some? <==> exists i :: 0 <= i < |table| && table[i].0 == key
    ensures r.Some? ==> exists i :: 0 <= i < |table| && table[i] == (key, r.value)
  {
    if table == [] then None
    else if table[0].0 == key then Some(table[0].1)
    else
      var r := Lookup(table[1..], key);
      assert forall i :: 0 < i < |table| ==> table[1..][i - 1] == table[i];
      r
  }

  lemma {:induction false} LookupIncreasing(table: seq<(string, PerClass)>, key: string)
    requires TableIncreasing(table)
    ensures Lookup(table, key).Some? ==> StrictlyIncreasing(Lookup(table, key).value)
  {
    if table != [] && table[0].0 != key {
      LookupIncreasing(table[1..], key);
    }
  }

  /** The reverse-route markup: +500, +1000, +2000, +3000. */
  function ReverseMarkup(p: PerClass): (r: PerClass)
    ensures StrictlyIncreasing(p) ==> StrictlyIncreasing(r)
    ensures r.economy - p.economy == 500 && r.premium - p.premium == 1000
    ensures r.business - p.business == 2000 && r.first - p.first == 3000
  {
    PerClass(p.economy + 500, p.premium + 1000, p.business + 2000, p.first + 3000)
  }

  /** Which rule of the resolver set a route's base prices. */
  datatype PriceRule =
    | ExactRoute
    | ReverseRoute
    | GulfRegion
    | SoutheastAsiaRegion
    | EuropeRegion
    | UsaRegion
    | GenericInternational
    | DomesticDefault

  /**
   * `getBasePrices`: the rule that applies, tried in the source's order. A
   * listed route always takes its own entry; the reverse entry and the
   * region buckets are only for international routes, the default table
   * only for domestic ones.
   */
  function PriceRuleFor(originCode: string, destinationCode: string, international: bool): (rule: PriceRule)
    ensures var table := if international then InternationalRoutePrices else DomesticRoutePrices;
      rule == ExactRoute <==> Lookup(table, RouteKey(originCode, destinationCode)).Some?
    ensures rule == DomesticDefault <==>
      !international && Lookup(DomesticRoutePrices, RouteKey(originCode, destinationCode)).None?
    ensures rule == ReverseRoute <==> (international
      && Lookup(InternationalRoutePrices, RouteKey(originCode, destinationCode)).None?
      && Lookup(InternationalRoutePrices, RouteKey(destinationCode, originCode)).Some?)
  {
    if international then
      if Lookup(InternationalRoutePrices, RouteKey(originCode, destinationCode)).Some? then ExactRoute
      else if Lookup(InternationalRoutePrices, RouteKey(destinationCode, originCode)).Some? then ReverseRoute
      else if destinationCode == "DXB" || originCode == "DXB" then GulfRegion
      else if destinationCode in SoutheastAsia || originCode in SoutheastAsia then SoutheastAsiaRegion
      else if destinationCode in Europe || originCode in Europe then EuropeRegion
      else if destinationCode == "JFK" || originCode == "JFK" then UsaRegion
      else GenericInternational
    else if Lookup(DomesticRoutePrices, RouteKey(originCode, destinationCode)).Some? then ExactRoute
    else DomesticDefault
  }

  /** `getBasePrices`: the four base fares of a route. */
  function BasePrices(originCode: string, destinationCode: string, international: bool): (r: PerClass)
    ensures StrictlyIncreasing(r)
  {
    assert TableIncreasing(InternationalRoutePrices);
    assert TableIncreasing(DomesticRoutePrices);
    var exact := RouteKey(originCode, destinationCode);
    var reverse := RouteKey(destinationCode, originCode);
    LookupIncreasing(InternationalRoutePrices, exact);
    LookupIncreasing(InternationalRoutePrices, reverse);
    LookupIncreasing(DomesticRoutePrices, exact);
    match PriceRuleFor(originCode, destinationCode, international)
    case ExactRoute =>
      if international then Lookup(InternationalRoutePrices, exact).value
      else Lookup(DomesticRoutePrices, exact).value
    case ReverseRoute => ReverseMarkup(Lookup(InternationalRoutePrices, reverse).value)
    case GulfRegion => GulfPrices
    case SoutheastAsiaRegion => SoutheastAsiaPrices
    case EuropeRegion => EuropePrices
    case UsaRegion => UsaPrices
    case GenericInternational => GenericInternationalPrices
    case DomesticDefault => DomesticDefaultPrices
  }

  /**
   * The resolver's priority: an exact route entry wins; an international route
   * without one takes its reverse entry plus the markup; a domestic route
   * without one takes the default table; an international route with
   * neither entry takes the first region bucket either end falls in, tried
   * in the order Gulf (Dubai), Southeast Asia, Europe, USA, and the generic
   * international fares when none matches.
   */
  lemma BasePricesResolution(o: string, d: string, international: bool)
    ensures var table := if international then InternationalRoutePrices else DomesticRoutePrices;
      Lookup(table, RouteKey(o, d)).Some? ==> BasePrices(o, d, international) == Lookup(table, RouteKey(o, d)).value
    ensures (international && Lookup(InternationalRoutePrices, RouteKey(o, d)).None?
             && Lookup(InternationalRoutePrices, RouteKey(d, o)).Some?) ==>
        BasePrices(o, d, true) == ReverseMarkup(Lookup(InternationalRoutePrices, RouteKey(d, o)).value)
    ensures !international && Lookup(DomesticRoutePrices, RouteKey(o, d)).None? ==>
      BasePrices(o, d, false) == DomesticDefaultPrices
    ensures (international && Lookup(InternationalRoutePrices, RouteKey(o, d)).None?
             && Lookup(InternationalRoutePrices, RouteKey(d, o)).None? && (o == "DXB" || d == "DXB")) ==>
        BasePrices(o, d, true) == GulfPrices
    ensures var unlisted := international && Lookup(InternationalRoutePrices, RouteKey(o, d)).None?
        && Lookup(InternationalRoutePrices, RouteKey(d, o)).None? && o != "DXB" && d != "DXB";
      var asia := o in SoutheastAsia || d in SoutheastAsia;
      var europe := o in Europe || d in Europe;
      var usa := o == "JFK" || d == "JFK";
      && (unlisted && asia ==> BasePrices(o, d, true) == SoutheastAsiaPrices)
      && (unlisted && !asia && europe ==> BasePrices(o, d, true) == EuropePrices)
      && (unlisted && !asia && !europe && usa ==> BasePrices(o, d, true) == UsaPrices)
      && (unlisted && !asia && !europe && !usa ==> BasePrices(o, d, true) == GenericInternationalPrices)
    ensures PriceRuleFor(o, d, international) in {GulfRegion, SoutheastAsiaRegion, EuropeRegion, UsaRegion, GenericInternational}
      ==> international
  {
  }

  /** A reverse-priced route costs more than the listed direction, in every class. */
  lemma ReverseRouteCostsMore(o: string, d: string)
    requires PriceRuleFor(o, d, true) == ReverseRoute
    ensures var listed := Lookup(InternationalRoutePrices, RouteKey(d, o)).value;
      var p := BasePrices(o, d, true);
      p.economy > listed.economy && p.premium > listed.premium
      && p.business > listed.business && p.first > listed.first
  {
  }

  // ---------------------------------------------------------------------
  // Generated flights

  predicate InUnit(r: real)
  {
    0.0 <= r < 1.0
  }

  /** `Math.round`: halves go up. */
  function Round(x: real): (n: int)
    ensures x - 0.5 < n as real <= x + 0.5
  {
    (x + 0.5).Floor
  }

  lemma RoundMonotone(x: real, y: real)
    requires x <= y
    ensures Round(x) <= Round(y)
  {
  }

  /** The random draws one flight consumes, each in [0, 1). */
  datatype FlightDraws = FlightDraws(
    number: real,
    minute: real,
    duration: real,
    multiplier: real,
    firstStop: real,
    secondStop: real,
    economySeats: real,
    premiumSeats: real,
    businessSeats: real,
    firstSeats: real)

  predicate ValidDraws(d: FlightDraws)
  {
    InUnit(d.number) && InUnit(d.minute) && InUnit(d.duration) && InUnit(d.multiplier)
    && InUnit(d.firstStop) && InUnit(d.secondStop) && InUnit(d.economySeats)
    && InUnit(d.premiumSeats) && InUnit(d.businessSeats) && InUnit(d.firstSeats)
  }

  /** `8 + Math.floor(Math.random() * 5)`. */
  function FlightCount(draw: real): (n: nat)
    requires InUnit(draw)
    ensures 8 <= n <= 12
  {
    8 + (draw * 5.0).Floor
  }

  /** The flight-number prefix of an airline, else its first two letters upper-cased. */
  function AirlineCode(airline: string): (code: string)
    ensures |code| <= 2
  {
    if airline == "Air India" then "AI"
    else if airline == "IndiGo" then "6E"
    else if airline == "SpiceJet" then "SG"
    else if airline == "Vistara" then "UK"
    else if airline == "GoAir" then "G8"
    else if airline == "AirAsia India" then "I5"
    else if airline == "Emirates" then "EK"
    else if airline == "Singapore Airlines" then "SQ"
    else if airline == "British Airways" then "BA"
    else if airline == "Lufthansa" then "LH"
    else if airline == "Qatar Airways" then "QR"
    else if airline == "Thai Airways" then "TG"
    else if airline == "Malaysia Airlines" then "MH"
    else if airline == "Korean Air" then "KE"
    else if airline == "Cathay Pacific" then "CX"
    else ToUpper(if |airline| < 2 then airline else airline[..2])
  }

  /** `baseDuration`: 3 to 9 hours abroad, 1.5 to 4 hours at home. */
  function BaseDuration(international: bool, draw: real): (h: real)
    requires InUnit(draw)
    ensures international ==> 3.0 <= h < 9.0
    ensures !international ==> 1.5 <= h < 4.0
  {
    if international then draw * 6.0 + 3.0 else draw * 2.5 + 1.5
  }

  function DurationHours(international: bool, draw: real): (h: nat)
    requires InUnit(draw)
    ensures 1 <= h <= 8
  {
    BaseDuration(international, draw).Floor
  }

  /** The rounded minutes part; 60 when the fraction rounds up. */
  function DurationMinutes(international: bool, draw: real): (m: nat)
    requires InUnit(draw)
    ensures m <= 60
  {
    var b := BaseDuration(international, draw);
    Round((b - b.Floor as real) * 60.0)
  }

  /** The minutes part of a duration reaches 60 for a domestic draw near 0.2. */
  lemma MinutesCanReachSixty()
    ensures DurationMinutes(false, 0.1996) == 60
  {
    assert BaseDuration(false, 0.1996) == 1.999;
    assert (1.999).Floor == 1;
  }

  /** Stops: abroad 60% none, then 90% of the rest one, else two; at home 80% none, else one. */
  function Stops(international: bool, firstDraw: real, secondDraw: real): (n: nat)
    ensures international ==> n <= 2
    ensures !international ==> n <= 1
    ensures n == 0 <==> firstDraw < (if international then 0.6 else 0.8)
  {
    if international then
      if firstDraw < 0.6 then 0 else if secondDraw < 0.9 then 1 else 2
    else if firstDraw < 0.8 then 0 else 1
  }

  /** `0.8 + Math.random() * 0.5`. */
  function PriceMultiplier(draw: real): (m: real)
    requires InUnit(draw)
    ensures 0.8 <= m < 1.3
  {
    0.8 + draw * 0.5
  }

  /** One multiplier scales all four fares, each rounded. */
  function ScalePrices(base: PerClass, m: real): (p: PerClass)
    requires m > 0.0
    ensures StrictlyIncreasing(base) ==>
      p.economy <= p.premium <= p.business <= p.first
  {
    var e := base.economy as real * m;
    var pr := base.premium as real * m;
    var b := base.business as real * m;
    var f := base.first as real * m;
    var p := PerClass(Round(e), Round(pr), Round(b), Round(f));
    assert StrictlyIncreasing(base) ==> p.economy <= p.premium <= p.business <= p.first by {
      if StrictlyIncreasing(base) {
        ScaleMonotone(base.economy, base.premium, m);
        ScaleMonotone(base.premium, base.business, m);
        ScaleMonotone(base.business, base.first, m);
        RoundMonotone(e, pr);
        RoundMonotone(pr, b);
        RoundMonotone(b, f);
      }
    }
    p
  }

  lemma ScaleMonotone(x: int, y: int, m: real)
    requires x <= y && m > 0.0
    ensures x as real * m <= y as real * m
  {
    assert (y - x) as real * m >= 0.0;
  }

  function FlightId(originCode: string, destinationCode: string, searchDate: string, i: nat): string
  {
    originCode + "-" + destinationCode + "-" + searchDate + "-" + NatToString(i + 1)
  }

  /** The departure hour of the i-th flight: 5 + (2i mod 18), so between 5 and 22. */
  function DepartureHour(i: nat): (h: nat)
    ensures 5 <= h <= 22
  {
    5 + (i * 2) % 18
  }

  /**
   * The i-th flight of a route, from its draws. `dayStart` is the minute of
   * local midnight on the search date.
   */
  function MakeFlight(origin: Airport, destination: Airport, searchDate: string, dayStart: int,
                      base: PerClass, i: nat, d: FlightDraws): (f: Flight)
    requires ValidDraws(d)
    ensures var pool := AirlinePool(IsInternational(origin, destination));
      f.airline == pool[i % |pool|] && f.aircraft == AircraftTypes[i % |AircraftTypes|]
    ensures f.id == FlightId(origin.code, destination.code, searchDate, i)
    ensures f.origin == origin && f.destination == destination
    ensures StrictlyIncreasing(base) ==> f.price.economy <= f.price.premium <= f.price.business <= f.price.first
    ensures dayStart + DepartureHour(i) * 60 <= f.departureTime < dayStart + DepartureHour(i) * 60 + 60
    ensures f.departureTime + 60 <= f.arrivalTime
    ensures IsInternational(origin, destination) ==> 0 <= f.stops <= 2
    ensures !IsInternational(origin, destination) ==> 0 <= f.stops <= 1
    ensures 80 <= f.availableSeats.economy <= 129 && 15 <= f.availableSeats.premium <= 29
    ensures 10 <= f.availableSeats.business <= 19 && 4 <= f.availableSeats.first <= 9
  {
    var international := IsInternational(origin, destination);
    var pool := AirlinePool(international);
    var airline := pool[i % |pool|];
    var number := AirlineCode(airline) + NatToString(100 + i + (d.number * 800.0).Floor);
    var departure := dayStart + DepartureHour(i) * 60 + (d.minute * 60.0).Floor;
    var hours := DurationHours(international, d.duration);
    var minutes := DurationMinutes(international, d.duration);
    Flight(
      FlightId(origin.code, destination.code, searchDate, i),
      number,
      airline,
      origin,
      destination,
      departure,
      departure + hours * 60 + minutes,
      NatToString(hours) + "h " + NatToString(minutes) + "m",
      ScalePrices(base, PriceMultiplier(d.multiplier)),
      AircraftTypes[i % |AircraftTypes|],
      Stops(international, d.firstStop, d.secondStop),
      PerClass((d.economySeats * 50.0).Floor + 80, (d.premiumSeats * 15.0).Floor + 15,
               (d.businessSeats * 10.0).Floor + 10, (d.firstSeats * 6.0).Floor + 4))
  }

  /**
   * `generateFlightsForRoute`: no flights when either code is unknown;
   * otherwise `FlightCount(countDraw)` flights priced from the route's base
   * fares, the i-th built from `draws[i]`.
   */
  method GenerateFlightsForRoute(originCode: string, destinationCode: string, searchDate: string,
                                 dayStart: int, countDraw: real, draws: seq<FlightDraws>)
    returns (flights: seq<Flight>)
    requires InUnit(countDraw) && |draws| >= FlightCount(countDraw)
    requires forall i :: 0 <= i < |draws| ==> ValidDraws(draws[i])
    ensures FindAirport(originCode).None? || FindAirport(destinationCode).None? ==> flights == []
    ensures FindAirport(originCode).Some? && FindAirport(destinationCode).Some? ==>
      var origin := FindAirport(originCode).value;
      var destination := FindAirport(destinationCode).value;
      var base := BasePrices(originCode, destinationCode, IsInternational(origin, destination));
      && |flights| == FlightCount(countDraw)
      && 8 <= |flights| <= 12
      && (forall i, j :: 0 <= i < j < |flights| ==> flights[i].id != flights[j].id)
      && forall i :: 0 <= i < |flights| ==>
           flights[i] == MakeFlight(origin, destination, searchDate, dayStart, base, i, draws[i])
  {
    var origin := FindAirport(originCode);
    var destination := FindAirport(destinationCode);
    if origin.None? || destination.None? {
      return [];
    }
    var base := BasePrices(originCode, destinationCode, IsInternational(origin.value, destination.value));
    flights := BuildFlights(origin.value, destination.value, searchDate, dayStart, base, FlightCount(countDraw), draws);
  }

  /** The generator's loop: flight i of `count`, each pushed in turn. */
  method BuildFlights(origin: Airport, destination: Airport, searchDate: string, dayStart: int,
                      base: PerClass, count: nat, draws: seq<FlightDraws>) returns (flights: seq<Flight>)
    requires count <= |draws|
    requires forall i :: 0 <= i < |draws| ==> ValidDraws(draws[i])
    ensures |flights| == count
    ensures forall i :: 0 <= i < count ==>
      flights[i] == MakeFlight(origin, destination, searchDate, dayStart, base, i, draws[i])
    ensures forall i, j :: 0 <= i < j < count ==> flights[i].id != flights[j].id
  {
    flights := [];
    var i := 0;
    while i < count
      invariant 0 <= i <= count
      invariant |flights| == i
      invariant FlightsSoFar(flights, origin, destination, searchDate, dayStart, base, draws)
    {
      var next := MakeFlight(origin, destination, searchDate, dayStart, base, i, draws[i]);
      FlightsSoFarStep(flights, origin, destination, searchDate, dayStart, base, draws, next);
      flights := flights + [next];
      i := i + 1;
    }
    forall i, j | 0 <= i < j < count
      ensures flights[i].id != flights[j].id
    {
      FlightIdsDistinct(origin.code, destination.code, searchDate, i, j);
    }
  }

  /** The first flights of a route: flight `k` built from the `k`-th draws. */
  predicate FlightsSoFar(flights: seq<Flight>, origin: Airport, destination: Airport, searchDate: string,
                         dayStart: int, base: PerClass, draws: seq<FlightDraws>)
  {
    && |flights| <= |draws|
    && (forall k :: 0 <= k < |draws| ==> ValidDraws(draws[k]))
    && forall k :: 0 <= k < |flights| ==>
      flights[k] == MakeFlight(origin, destination, searchDate, dayStart, base, k, draws[k])
  }

  lemma FlightsSoFarStep(flights: seq<Flight>, origin: Airport, destination: Airport, searchDate: string,
                         dayStart: int, base: PerClass, draws: seq<FlightDraws>, next: Flight)
    requires FlightsSoFar(flights, origin, destination, searchDate, dayStart, base, draws)
    requires |flights| < |draws|
    requires next == MakeFlight(origin, destination, searchDate, dayStart, base, |flights|, draws[|flights|])
    ensures FlightsSoFar(flights + [next], origin, destination, searchDate, dayStart, base, draws)
  {
    var r := flights + [next];
    forall k | 0 <= k < |r|
      ensures r[k] == MakeFlight(origin, destination, searchDate, dayStart, base, k, draws[k])
    {
      if k < |flights| {
        assert r[k] == flights[k];
      }
    }
  }

  lemma PrefixCancel(p: string, a: string, b: string)
    requires p + a == p + b
    ensures a == b
  {
    assert a == (p + a)[|p|..];
    assert b == (p + b)[|p|..];
  }

  /** Flights of one route and date get distinct ids. */
  lemma FlightIdsDistinct(o: string, d: string, date: string, i: nat, j: nat)
    requires i != j
    ensures FlightId(o, d, date, i) != FlightId(o, d, date, j)
  {
    if FlightId(o, d, date, i) == FlightId(o, d, date, j) {
      PrefixCancel(o + "-" + d + "-" + date + "-", NatToString(i + 1), NatToString(j + 1));
      NatToStringInjective(i + 1, j + 1);
    }
  }

  // ---------------------------------------------------------------------
  // Seat map

  const RowCount: nat := 35
  const SeatLetters: seq<char> := ['A', 'B', 'C', 'D', 'E', 'F']

  /** Rows 1-4 first, 5-12 business, 13-20 premium, the rest economy. */
  function CabinForRow(row: nat): (c: TravelClass)
    ensures c == First <==> row <= 4
    ensures c == Business <==> 4 < row <= 12
    ensures c == Premium <==> 12 < row <= 20
    ensures c == Economy <==> 20 < row
  {
    if row <= 4 then First else if row <= 12 then Business else if row <= 20 then Premium else Economy
  }

  function CabinBasePrice(c: TravelClass): (p: int)
    ensures p in {0, 800, 1500, 2500}
  {
    match c
    case First => 2500
    case Business => 1500
    case Premium => 800
    case Economy => 0
  }

  function SeatNumber(row: nat, letter: nat): string
    requires letter < 6
  {
    NatToString(row) + [SeatLetters[letter]]
  }

  /** The draws one seat consumes: availability, then price variation. */
  datatype SeatDraws = SeatDraws(availability: real, surcharge: real)

  predicate ValidSeatDraws(d: SeatDraws)
  {
    InUnit(d.availability) && InUnit(d.surcharge)
  }

  function MakeSeat(flightId: string, row: nat, letter: nat, d: SeatDraws): (s: Seat)
    requires letter < 6 && ValidSeatDraws(d)
    ensures s.cabin == CabinForRow(row)
    ensures CabinBasePrice(s.cabin) <= s.price <= CabinBasePrice(s.cabin) + 499
    ensures s.id == flightId + "-" + s.seatNumber && s.seatNumber == SeatNumber(row, letter)
    ensures !s.isSelected
    ensures s.isAvailable <==> d.availability > 0.25
  {
    var number := SeatNumber(row, letter);
    var cabin := CabinForRow(row);
    Seat(flightId + "-" + number, number, cabin, d.availability > 0.25, false,
         CabinBasePrice(cabin) + (d.surcharge * 500.0).Floor)
  }

  /** Seat `letter` of row `row` is the ((row - 1) * 6 + letter)-th seat of the map. */
  lemma SeatIndex(row: nat, letter: nat)
    requires row >= 1 && letter < 6
    ensures ((row - 1) * 6 + letter) / 6 + 1 == row && ((row - 1) * 6 + letter) % 6 == letter
  {
  }

  /** `generateSeats`: 35 rows of six seats, row by row, letters A to F. */
  method GenerateSeats(flightId: string, draws: seq<SeatDraws>) returns (seats: seq<Seat>)
    requires |draws| >= RowCount * |SeatLetters|
    requires forall k :: 0 <= k < |draws| ==> ValidSeatDraws(draws[k])
    ensures |seats| == 210
    ensures forall k :: 0 <= k < |seats| ==> seats[k] == MakeSeat(flightId, k / 6 + 1, k % 6, draws[k])
  {
    seats := [];
    var row := 1;
    while row <= RowCount
      invariant 1 <= row <= RowCount + 1
      invariant |seats| == (row - 1) * 6
      invariant SeatsSoFar(seats, flightId, draws)
    {
      var letter := 0;
      while letter < |SeatLetters|
        invariant 0 <= letter <= 6
        invariant |seats| == (row - 1) * 6 + letter
        invariant SeatsSoFar(seats, flightId, draws)
      {
        SeatsSoFarStep(seats, flightId, draws, row, letter);
        seats := seats + [MakeSeat(flightId, row, letter, draws[|seats|])];
        letter := letter + 1;
      }
      row := row + 1;
    }
  }

  lemma SeatsSoFarStep(seats: seq<Seat>, flightId: string, draws: seq<SeatDraws>, row: nat, letter: nat)
    requires SeatsSoFar(seats, flightId, draws)
    requires row >= 1 && letter < 6 && |seats| == (row - 1) * 6 + letter && |seats| < |draws|
    ensures SeatsSoFar(seats + [MakeSeat(flightId, row, letter, draws[|seats|])], flightId, draws)
  {
    var next := seats + [MakeSeat(flightId, row, letter, draws[|seats|])];
    forall k | 0 <= k < |next|
      ensures next[k] == MakeSeat(flightId, k / 6 + 1, k % 6, draws[k])
    {
      if k < |seats| {
        assert next[k] == seats[k];
      } else {
        SeatIndex(row, letter);
      }
    }
  }

  /** Every seat so far is the one its position stands for: row `k / 6 + 1`, letter `k % 6`. */
  predicate SeatsSoFar(seats: seq<Seat>, flightId: string, draws: seq<SeatDraws>)
  {
    && |seats| <= |draws|
    && (forall k :: 0 <= k < |draws| ==> ValidSeatDraws(draws[k]))
    && forall k :: 0 <= k < |seats| ==> seats[k] == MakeSeat(flightId, k / 6 + 1, k % 6, draws[k])
  }

  /** The grid has 24 first, 48 business, 48 premium and 90 economy seats. */
  lemma SeatBands(k: nat)
    requires k < 210
    ensures CabinForRow(k / 6 + 1) == First <==> k < 24
    ensures CabinForRow(k / 6 + 1) == Business <==> 24 <= k < 72
    ensures CabinForRow(k / 6 + 1) == Premium <==> 72 <= k < 120
    ensures CabinForRow(k / 6 + 1) == Economy <==> 120 <= k
  {
  }
}
