/**
 * The passenger details form (src/components/BookingForm.tsx): the initial
 * passenger and infant lists, the per-field edits, the fare total, the
 * validity rule of the submit button and the submit handler.
 */
module BookingForm {
  import opened Types
  import opened Text
  import opened AppStore
  import SeatSelection

  function Count(n: int): nat
  {
    if n < 0 then 0 else n
  }

  function PassengerId(i: nat): string
  {
    "passenger-" + NatToString(i + 1)
  }

  function InfantId(i: nat): string
  {
    "infant-" + NatToString(i + 1)
  }

  /** `user?.email || ''`. */
  function UserEmail(user: Option<User>): string
  {
    if user.Some? then user.value.email else ""
  }

  function UserPhone(user: Option<User>): string
  {
    if user.Some? then user.value.phone else ""
  }

  function BlankPassenger(i: nat, user: Option<User>): Passenger
  {
    Passenger(PassengerId(i), "Mr", "", "", "", "",
              if i == 0 then UserEmail(user) else "",
              if i == 0 then UserPhone(user) else "",
              Adult)
  }

  /**
   * One blank adult per searched passenger, `passenger-1` onwards; only the
   * first carries the signed-in user's email and phone.
   */
  function InitialPassengers(n: int, user: Option<User>): (r: seq<Passenger>)
    ensures |r| == Count(n)
    ensures forall i :: 0 <= i < |r| ==>
      && r[i].id == PassengerId(i) && r[i].kind == Adult && r[i].title == "Mr"
      && r[i].firstName == "" && r[i].lastName == "" && r[i].dateOfBirth == "" && r[i].passportNumber == ""
      && r[i].email == (if i == 0 then UserEmail(user) else "")
      && r[i].phone == (if i == 0 then UserPhone(user) else "")
  {
    seq(Count(n), i requires 0 <= i => BlankPassenger(i, user))
  }

  /** Passenger ids are pairwise distinct. */
  lemma PassengerIdsDistinct(n: int, user: Option<User>)
    ensures var r := InitialPassengers(n, user);
      forall i, j :: 0 <= i < j < |r| ==> r[i].id != r[j].id
  {
    var r := InitialPassengers(n, user);
    forall i, j | 0 <= i < j < |r|
      ensures r[i].id != r[j].id
    {
      if r[i].id == r[j].id {
        assert "passenger-" + NatToString(i + 1) == "passenger-" + NatToString(j + 1);
        assert NatToString(i + 1) == ("passenger-" + NatToString(i + 1))[10..];
        assert NatToString(j + 1) == ("passenger-" + NatToString(j + 1))[10..];
        NatToStringInjective(i + 1, j + 1);
      }
    }
  }

  /** One blank infant per searched infant, each attached to the first passenger. */
  function InitialInfants(n: int): (r: seq<Infant>)
    ensures |r| == Count(n)
    ensures forall i :: 0 <= i < |r| ==>
      && r[i].id == InfantId(i) && r[i].parentId == PassengerId(0)
      && r[i].firstName == "" && r[i].lastName == "" && r[i].dateOfBirth == ""
  {
    seq(Count(n), i requires 0 <= i => Infant(InfantId(i), "", "", "", PassengerId(0)))
  }

  /** The text fields of a passenger that the form edits. */
  datatype PassengerField = PId | Title | FirstName | LastName | DateOfBirth | PassportNumber | Email | Phone

  function PassengerFieldOf(p: Passenger, f: PassengerField): string
  {
    match f
    case PId => p.id
    case Title => p.title
    case FirstName => p.firstName
    case LastName => p.lastName
    case DateOfBirth => p.dateOfBirth
    case PassportNumber => p.passportNumber
    case Email => p.email
    case Phone => p.phone
  }

  /** `{ ...passenger, [field]: value }`: the named field reads back the value, the others are unchanged. */
  function WithPassengerField(p: Passenger, f: PassengerField, value: string): (r: Passenger)
    ensures PassengerFieldOf(r, f) == value
    ensures forall g :: g != f ==> PassengerFieldOf(r, g) == PassengerFieldOf(p, g)
    ensures r.kind == p.kind
  {
    match f
    case PId => p.(id := value)
    case Title => p.(title := value)
    case FirstName => p.(firstName := value)
    case LastName => p.(lastName := value)
    case DateOfBirth => p.(dateOfBirth := value)
    case PassportNumber => p.(passportNumber := value)
    case Email => p.(email := value)
    case Phone => p.(phone := value)
  }

  datatype InfantField = IId | InfantFirstName | InfantLastName | InfantDateOfBirth | ParentId

  function InfantFieldOf(p: Infant, f: InfantField): string
  {
    match f
    case IId => p.id
    case InfantFirstName => p.firstName
    case InfantLastName => p.lastName
    case InfantDateOfBirth => p.dateOfBirth
    case ParentId => p.parentId
  }

  function WithInfantField(p: Infant, f: InfantField, value: string): (r: Infant)
    ensures InfantFieldOf(r, f) == value
    ensures forall g :: g != f ==> InfantFieldOf(r, g) == InfantFieldOf(p, g)
  {
    match f
    case IId => p.(id := value)
    case InfantFirstName => p.(firstName := value)
    case InfantLastName => p.(lastName := value)
    case InfantDateOfBirth => p.(dateOfBirth := value)
    case ParentId => p.(parentId := value)
  }

  /** `isInternationalFlight`: false without a selected flight. */
  predicate IsInternationalFlight(s: AppState)
  {
    s.selectedFlight.Some? && s.selectedFlight.value.origin.country != s.selectedFlight.value.destination.country
  }

  /**
   * `getTotalPrice`: the class fare per adult, the seat surcharges, and a
   * tenth of the fare per infant. `Count` reads a negative infant count as
   * none where the source would multiply it; the search form's select only
   * offers counts from 0 up, so the two agree on every reachable state.
   */
  function TotalPrice(s: AppState): (total: real)
    ensures var fare := SeatSelection.ClassFare(s);
      total == (fare * s.searchFilters.passengers + SeatPriceSum(s.selectedSeats)) as real
               + Count(s.searchFilters.infants) as real * fare as real / 10.0
  {
    var fare := SeatSelection.ClassFare(s);
    var infantPrice := Count(s.searchFilters.infants) as real * (fare as real * 0.1);
    (fare * s.searchFilters.passengers) as real + SeatPriceSum(s.selectedSeats) as real + infantPrice
  }

  /** Without infants, the booking total is the seat screen's total for the stored selection. */
  lemma TotalMatchesSeatScreen(s: AppState)
    requires Count(s.searchFilters.infants) == 0
    ensures TotalPrice(s) == SeatSelection.TotalPrice(s, s.selectedSeats) as real
  {
  }

  /** Each infant adds a tenth of the fare. */
  lemma InfantAddsTenth(s: AppState)
    requires s.searchFilters.infants >= 0
    ensures TotalPrice(s.(searchFilters := s.searchFilters.(infants := s.searchFilters.infants + 1)))
            == TotalPrice(s) + SeatSelection.ClassFare(s) as real / 10.0
  {
  }

  predicate PassengerComplete(p: Passenger, international: bool)
  {
    p.firstName != "" && p.lastName != "" && p.dateOfBirth != "" && p.email != ""
    && (international ==> p.passportNumber != "")
  }

  predicate InfantComplete(i: Infant)
  {
    i.firstName != "" && i.lastName != "" && i.dateOfBirth != ""
  }

  /**
   * `isFormValid`: every passenger complete (with a passport when the
   * selected flight crosses a border), every infant complete, and a contact
   * email and phone.
   */
  function IsFormValid(s: AppState, passengers: seq<Passenger>, infants: seq<Infant>, contactEmail: string,
                       contactPhone: string): (ok: bool)
    ensures ok <==>
      && (forall i :: 0 <= i < |passengers| ==> PassengerComplete(passengers[i], IsInternationalFlight(s)))
      && (forall i :: 0 <= i < |infants| ==> InfantComplete(infants[i]))
      && contactEmail != "" && contactPhone != ""
  {
    AllPassengersComplete(passengers, IsInternationalFlight(s)) && AllInfantsComplete(infants)
    && contactEmail != "" && contactPhone != ""
  }

  /**
   * The passport is checked exactly on international flights: there a
   * passenger without one makes the form invalid; on a domestic flight, or
   * with no flight selected, any passport text leaves validity as it was.
   */
  lemma PassportOnlyAbroad(s: AppState, passengers: seq<Passenger>, infants: seq<Infant>,
                           contactEmail: string, contactPhone: string, i: nat, passport: string)
    requires i < |passengers|
    ensures s.selectedFlight.None? ==> !IsInternationalFlight(s)
    ensures IsInternationalFlight(s) && passengers[i].passportNumber == "" ==>
      !IsFormValid(s, passengers, infants, contactEmail, contactPhone)
    ensures !IsInternationalFlight(s) ==>
      var edited := passengers[i := passengers[i].(passportNumber := passport)];
      IsFormValid(s, edited, infants, contactEmail, contactPhone)
        == IsFormValid(s, passengers, infants, contactEmail, contactPhone)
  {
    var edited := passengers[i := passengers[i].(passportNumber := passport)];
    if !IsInternationalFlight(s) {
      assert forall k :: 0 <= k < |passengers| ==>
        (PassengerComplete(edited[k], false) <==> PassengerComplete(passengers[k], false));
    }
  }

  function AllPassengersComplete(ps: seq<Passenger>, international: bool): (ok: bool)
    ensures ok <==> forall i :: 0 <= i < |ps| ==> PassengerComplete(ps[i], international)
  {
    if ps == [] then true else PassengerComplete(ps[0], international) && AllPassengersComplete(ps[1..], international)
  }

  function AllInfantsComplete(xs: seq<Infant>): (ok: bool)
    ensures ok <==> forall i :: 0 <= i < |xs| ==> InfantComplete(xs[i])
  {
    if xs == [] then true else InfantComplete(xs[0]) && AllInfantsComplete(xs[1..])
  }

  /** A freshly opened form with at least one passenger cannot be submitted: names are blank. */
  lemma FreshFormInvalid(s: AppState, n: int, infants: int, user: Option<User>, email: string, phone: string)
    requires n >= 1
    ensures !IsFormValid(s, InitialPassengers(n, user), InitialInfants(infants), email, phone)
  {
    assert !PassengerComplete(InitialPassengers(n, user)[0], IsInternationalFlight(s));
  }

  /**
   * `handleSubmit`: nothing without a selected flight; otherwise a pending
   * booking of the form's travellers, the stored seats and the current total,
   * then the payment view. Id, reference and creation time come from the clock
   * and the random generator.
   */
  function SubmitBooking(s: AppState, passengers: seq<Passenger>, infants: seq<Infant>,
                         bookingId: string, reference: string, createdAt: string): (actions: seq<Action>)
    ensures s.selectedFlight.None? <==> actions == []
    ensures s.selectedFlight.Some? ==>
      && |actions| == 2
      && actions[0].SetCurrentBooking? && actions[0].booking.Some?
      && actions[1] == SetCurrentView("payment")
      && (var b := actions[0].booking.value;
          && b.status == Pending && b.flight == s.selectedFlight.value
          && b.passengers == passengers && b.infants == infants && b.seats == s.selectedSeats
          && b.totalAmount == TotalPrice(s))
  {
    match s.selectedFlight
    case None => []
    case Some(f) =>
      var b := Booking(bookingId, reference, f, passengers, infants, s.selectedSeats, TotalPrice(s), Pending, createdAt);
      [SetCurrentBooking(Some(b)), SetCurrentView("payment")]
  }

  /** The form's state cells: the passenger and infant lists being edited. */
  class TravellerForm {
    var passengers: seq<Passenger>
    var infants: seq<Infant>

    constructor (s: AppState)
      ensures passengers == InitialPassengers(s.searchFilters.passengers, s.user)
      ensures infants == InitialInfants(s.searchFilters.infants)
    {
      passengers := InitialPassengers(s.searchFilters.passengers, s.user);
      infants := InitialInfants(s.searchFilters.infants);
    }

    /** `updatePassenger`: only the named field of the entry at `index` changes. */
    method UpdatePassenger(index: int, field: PassengerField, value: string)
      modifies this
      ensures |passengers| == |old(passengers)| && infants == old(infants)
      ensures forall i :: 0 <= i < |passengers| && i != index ==> passengers[i] == old(passengers)[i]
      ensures 0 <= index < |passengers| ==>
        passengers[index] == WithPassengerField(old(passengers)[index], field, value)
    {
      if 0 <= index < |passengers| {
        passengers := passengers[index := WithPassengerField(passengers[index], field, value)];
      }
    }

    /** `updateInfant`: only the named field of the entry at `index` changes. */
    method UpdateInfant(index: int, field: InfantField, value: string)
      modifies this
      ensures |infants| == |old(infants)| && passengers == old(passengers)
      ensures forall i :: 0 <= i < |infants| && i != index ==> infants[i] == old(infants)[i]
      ensures 0 <= index < |infants| ==>
        infants[index] == WithInfantField(old(infants)[index], field, value)
    {
      if 0 <= index < |infants| {
        infants := infants[index := WithInfantField(infants[index], field, value)];
      }
    }
  }
}
