/**
 * The hotel step after a flight is confirmed (src/components/HotelBooking.tsx):
 * the destination's hotels, the default stay, the rooms listed for the guest
 * count, the nights and room total, and the back and book buttons.
 * Dates are day numbers (a `YYYY-MM-DD` field read as UTC midnight); an empty
 * date field is `None`.
 */
module HotelBooking {
  import opened Types
  import opened AppStore
  import HotelData

  /** `calculateNights`: 0 unless both dates are set, else the whole days between them, either way round. */
  function CalculateNights(checkIn: Option<int>, checkOut: Option<int>): (n: nat)
    ensures checkIn.None? || checkOut.None? ==> n == 0
    ensures checkIn.Some? && checkOut.Some? ==>
      n as int == checkOut.value - checkIn.value || n as int == checkIn.value - checkOut.value
  {
    if checkIn.None? || checkOut.None? then 0
    else
      var diff := checkOut.value - checkIn.value;
      if diff < 0 then -diff else diff
  }

  /** Swapping the two dates gives the same number of nights. */
  lemma NightsSymmetric(a: Option<int>, b: Option<int>)
    ensures CalculateNights(a, b) == CalculateNights(b, a)
  {
  }

  /** `getTotalPrice`: the nightly price for every night. */
  function RoomTotal(room: HotelRoom, nights: nat): int
  {
    room.pricePerNight * nights
  }

  /** No nights cost nothing, and each extra night adds one nightly price. */
  lemma RoomTotalPerNight(room: HotelRoom, nights: nat)
    ensures RoomTotal(room, 0) == 0
    ensures RoomTotal(room, nights + 1) == RoomTotal(room, nights) + room.pricePerNight
  {
  }

  /** The rooms listed under a hotel: available ones that sleep the guest count. */
  function ListedRooms(rooms: seq<HotelRoom>, guests: int): (r: seq<HotelRoom>)
    ensures forall room :: room in r <==> room in rooms && room.available && room.maxOccupancy >= guests
    ensures |r| <= |rooms|
  {
    if rooms == [] then []
    else if rooms[0].available && rooms[0].maxOccupancy >= guests then [rooms[0]] + ListedRooms(rooms[1..], guests)
    else ListedRooms(rooms[1..], guests)
  }

  /** The listed rooms keep the order the hotel gives them. */
  lemma {:induction false} ListedRoomsInOrder(rooms: seq<HotelRoom>, guests: int)
    ensures IsSubsequence(ListedRooms(rooms, guests), rooms)
  {
    if rooms != [] {
      ListedRoomsInOrder(rooms[1..], guests);
      var r := ListedRooms(rooms, guests);
      if rooms[0].available && rooms[0].maxOccupancy >= guests {
        assert r[1..] == ListedRooms(rooms[1..], guests);
      }
    }
  }

  /** A generated hotel always lists a room for up to three guests: the deluxe room, at least. */
  lemma SomeRoomForThree(rating: real, suiteDraw: real, luxuryDraw: real, guests: int)
    requires guests <= 3
    ensures ListedRooms(HotelData.GenerateRoomsForHotel(rating, suiteDraw, luxuryDraw), guests) != []
  {
    var rooms := HotelData.GenerateRoomsForHotel(rating, suiteDraw, luxuryDraw);
    assert rooms[1] in rooms && rooms[1].available && rooms[1].maxOccupancy == 3;
  }

  /** The default stay: check in on the flight's arrival day, check out two days later. */
  function DefaultDates(arrivalMinutes: int): (dates: (int, int))
    ensures dates.1 == dates.0 + 2
    ensures dates.0 * 1440 <= arrivalMinutes < (dates.0 + 1) * 1440
  {
    var day := arrivalMinutes / 1440;
    (day, day + 2)
  }

  /** The default stay is two nights, and its total is two nightly prices. */
  lemma DefaultStayTwoNights(arrivalMinutes: int, room: HotelRoom)
    ensures var d := DefaultDates(arrivalMinutes);
      && CalculateNights(Some(d.0), Some(d.1)) == 2
      && RoomTotal(room, CalculateNights(Some(d.0), Some(d.1))) == 2 * room.pricePerNight
  {
  }

  /** The page's state cells. */
  class HotelPage {
    var hotels: seq<Hotel>
    var selectedHotel: Option<Hotel>
    var selectedRoom: Option<HotelRoom>
    var checkIn: Option<int>
    var checkOut: Option<int>
    var guests: int
    var showBookingForm: bool

    constructor ()
      ensures hotels == [] && selectedHotel.None? && selectedRoom.None?
      ensures checkIn.None? && checkOut.None? && guests == 2 && !showBookingForm
    {
      hotels := [];
      selectedHotel := None;
      selectedRoom := None;
      checkIn := None;
      checkOut := None;
      guests := 2;
      showBookingForm := false;
    }

    /**
     * The mount effect: with a selected flight, the destination's hotels and
     * the default stay from its arrival; without one, nothing changes.
     */
    method Load(s: AppState, draws: seq<HotelData.HotelDraws>)
      modifies this
      requires |draws| >= 4
      requires forall i :: 0 <= i < |draws| ==> HotelData.ValidHotelDraws(draws[i])
      ensures s.selectedFlight.None? ==>
        hotels == old(hotels) && checkIn == old(checkIn) && checkOut == old(checkOut)
      ensures s.selectedFlight.Some? ==>
        && hotels == HotelData.GenerateHotelsForCity(s.selectedFlight.value.destination.code, draws)
        && checkIn == Some(DefaultDates(s.selectedFlight.value.arrivalTime).0)
        && checkOut == Some(DefaultDates(s.selectedFlight.value.arrivalTime).1)
      ensures selectedHotel == old(selectedHotel) && selectedRoom == old(selectedRoom)
      ensures guests == old(guests) && showBookingForm == old(showBookingForm)
    {
      if s.selectedFlight.Some? {
        var f := s.selectedFlight.value;
        hotels := HotelData.GenerateHotelsForCity(f.destination.code, draws);
        var dates := DefaultDates(f.arrivalTime);
        checkIn := Some(dates.0);
        checkOut := Some(dates.1);
      }
    }

    /** `handleRoomSelect`: remember the hotel and room and open the form. */
    method RoomSelect(h: Hotel, room: HotelRoom)
      modifies this
      ensures selectedHotel == Some(h) && selectedRoom == Some(room) && showBookingForm
      ensures hotels == old(hotels) && checkIn == old(checkIn) && checkOut == old(checkOut) && guests == old(guests)
    {
      selectedHotel := Some(h);
      selectedRoom := Some(room);
      showBookingForm := true;
    }

    /**
     * `handleBack`: from the form, close it and forget the hotel and room;
     * from the list, back to the confirmation view.
     */
    method Back() returns (actions: seq<Action>)
      modifies this
      ensures old(showBookingForm) ==>
        actions == [] && !showBookingForm && selectedHotel.None? && selectedRoom.None?
      ensures !old(showBookingForm) ==>
        actions == [SetCurrentView("confirmation")]
        && selectedHotel == old(selectedHotel) && selectedRoom == old(selectedRoom) && !showBookingForm
      ensures hotels == old(hotels) && checkIn == old(checkIn) && checkOut == old(checkOut) && guests == old(guests)
    {
      if showBookingForm {
        showBookingForm := false;
        selectedHotel := None;
        selectedRoom := None;
        actions := [];
      } else {
        actions := [SetCurrentView("confirmation")];
      }
    }

    /** The total shown on the form for the selected room. */
    function SelectedTotal(): (total: Option<int>)
      reads this
      ensures selectedRoom.None? <==> total.None?
      ensures selectedRoom.Some? ==>
        total.value == selectedRoom.value.pricePerNight * CalculateNights(checkIn, checkOut)
    {
      match selectedRoom
      case None => None
      case Some(room) => Some(RoomTotal(room, CalculateNights(checkIn, checkOut)))
    }
  }

  /** `handleBookHotel`: on to the cab step. */
  function BookHotel(): (actions: seq<Action>)
    ensures actions == [SetCurrentView("cab-booking")]
  {
    [SetCurrentView("cab-booking")]
  }
}
