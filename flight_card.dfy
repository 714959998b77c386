/**
 * One flight on the results list (src/components/FlightCard.tsx): the
 * lowest fare shown, the class picker, the select button and the handler that
 * takes the chosen flight and class to the seat map.
 */
module FlightCard {
  import opened Types
  import opened AppStore

  /** `getLowestPrice`: the cheapest of the four fares, and one of them. */
  lemma LowestPriceIsAFare(f: Flight)
    ensures exists c :: f.price.Get(c) == MinPrice(f.price)
    ensures forall c :: MinPrice(f.price) <= f.price.Get(c)
  {
    var m := MinPrice(f.price);
    if m == f.price.economy {
      assert f.price.Get(Economy) == m;
    } else if m == f.price.premium {
      assert f.price.Get(Premium) == m;
    } else if m == f.price.business {
      assert f.price.Get(Business) == m;
    } else {
      assert f.price.Get(First) == m;
    }
  }

  /** `isClassAvailable`: seats left in that class. */
  predicate IsClassAvailable(f: Flight, c: TravelClass)
  {
    f.availableSeats.Get(c) > 0
  }

  /** The select button: disabled for a sold-out class, else showing the class fare for every passenger. */
  datatype SelectButton = Enabled(total: int) | ClassNotAvailable

  function ButtonFor(f: Flight, c: TravelClass, passengers: int): (b: SelectButton)
    ensures b == ClassNotAvailable <==> !IsClassAvailable(f, c)
    ensures b.Enabled? ==> b.total == f.price.Get(c) * passengers
  {
    if IsClassAvailable(f, c) then Enabled(f.price.Get(c) * passengers) else ClassNotAvailable
  }

  /**
   * `handleSelectFlight`: the filters with only the class replaced, the
   * flight, then the seat view.
   */
  function SelectFlightActions(s: AppState, f: Flight, c: TravelClass): (actions: seq<Action>)
    ensures |actions| == 3
    ensures actions[0] == SetSearchFilters(s.searchFilters.(travelClass := c))
    ensures actions[1] == SetSelectedFlight(Some(f)) && actions[2] == SetCurrentView("seats")
  {
    [SetSearchFilters(s.searchFilters.(travelClass := c)), SetSelectedFlight(Some(f)), SetCurrentView("seats")]
  }

  /**
   * After selecting, the store holds the flight, the seat view and the chosen
   * class, and every other filter and the stored data are as before.
   */
  lemma SelectingOpensSeatMap(s: Snapshot, f: Flight, c: TravelClass)
    ensures var r := RunAll(s, SelectFlightActions(s.state, f, c));
      && r.state.selectedFlight == Some(f)
      && r.state.currentView == "seats"
      && r.state.searchFilters.travelClass == c
      && r.state.searchFilters.(travelClass := s.state.searchFilters.travelClass) == s.state.searchFilters
      && r.state.selectedSeats == s.state.selectedSeats
      && r.state.bookings == s.state.bookings
      && r.storage == s.storage
  {
    var acts := SelectFlightActions(s.state, f, c);
    RunAllThree(s, acts[0], acts[1], acts[2]);
    assert acts == [acts[0], acts[1], acts[2]];
  }

  /** The card's one state cell: the class picked, starting from the searched class. */
  class CardState {
    const flight: Flight
    var selectedClass: TravelClass

    constructor (f: Flight, s: AppState)
      ensures flight == f && selectedClass == s.searchFilters.travelClass
    {
      flight := f;
      selectedClass := s.searchFilters.travelClass;
    }

    /** A class button; sold-out classes are disabled, so a click on one changes nothing. */
    method PickClass(c: TravelClass)
      modifies this
      ensures selectedClass == (if IsClassAvailable(flight, c) then c else old(selectedClass))
    {
      if IsClassAvailable(flight, c) {
        selectedClass := c;
      }
    }

    /** The select button's click: nothing while the picked class is sold out. */
    method Select(s: AppState) returns (actions: seq<Action>)
      ensures !IsClassAvailable(flight, selectedClass) <==> actions == []
      ensures IsClassAvailable(flight, selectedClass) ==> actions == SelectFlightActions(s, flight, selectedClass)
    {
      if ButtonFor(flight, selectedClass, s.searchFilters.passengers).Enabled? {
        actions := SelectFlightActions(s, flight, selectedClass);
      } else {
        actions := [];
      }
    }
  }

  /** A class picked on the card is always one with seats left, if the searched class had seats. */
  lemma {:induction false} PickedClassAvailable(f: Flight, start: TravelClass, picks: seq<TravelClass>)
    requires IsClassAvailable(f, start)
    ensures IsClassAvailable(f, LastPick(f, start, picks))
  {
    if picks != [] {
      PickedClassAvailable(f, start, picks[..|picks| - 1]);
    }
  }

  /** The class after a series of clicks on the picker. */
  function LastPick(f: Flight, start: TravelClass, picks: seq<TravelClass>): TravelClass
  {
    if picks == [] then start
    else
      var before := LastPick(f, start, picks[..|picks| - 1]);
      if IsClassAvailable(f, picks[|picks| - 1]) then picks[|picks| - 1] else before
  }
}
