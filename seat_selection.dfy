/**
 * The seat map screen (src/components/SeatSelection.tsx): the seat grid and
 * the running selection held by the component, the click and continue
 * handlers, the fare total and the grouping of seats into rows.
 */
module SeatSelection {
  import opened Types
  import opened Text
  import opened AppStore
  import FlightData

  predicate HasId(seats: seq<Seat>, id: string)
  {
    exists i :: 0 <= i < |seats| && seats[i].id == id
  }

  /** No two seats of the list share an id. */
  predicate DistinctIds(seats: seq<Seat>)
  {
    forall i, j :: 0 <= i < j < |seats| ==> seats[i].id != seats[j].id
  }

  /** `prev.filter(seat => seat.id !== id)`. */
  function RemoveId(seats: seq<Seat>, id: string): (r: seq<Seat>)
    ensures forall i :: 0 <= i < |r| ==> r[i].id != id
    ensures forall s :: s in r <==> s in seats && s.id != id
    ensures |r| <= |seats|
  {
    if seats == [] then []
    else if seats[0].id == id then RemoveId(seats[1..], id)
    else [seats[0]] + RemoveId(seats[1..], id)
  }

  lemma {:induction false} RemoveAbsent(seats: seq<Seat>, id: string)
    requires !HasId(seats, id)
    ensures RemoveId(seats, id) == seats
  {
    if seats != [] {
      assert seats[0].id != id;
      assert !HasId(seats[1..], id);
      RemoveAbsent(seats[1..], id);
    }
  }

  /** Filtering keeps a list free of repeated ids. */
  lemma {:induction false} RemoveKeepsDistinct(seats: seq<Seat>, id: string)
    requires DistinctIds(seats)
    ensures DistinctIds(RemoveId(seats, id))
  {
    if seats != [] {
      var tail := seats[1..];
      assert DistinctIds(tail);
      RemoveKeepsDistinct(tail, id);
      if seats[0].id != id {
        var rest := RemoveId(tail, id);
        HeadIdNotInTail(seats);
        var r := [seats[0]] + rest;
        forall i, j | 0 <= i < j < |r|
          ensures r[i].id != r[j].id
        {
          assert r[j] == rest[j - 1] && r[j] in tail;
          if i > 0 {
            assert r[i] == rest[i - 1];
          }
        }
      }
    }
  }

  /** In a list free of repeated ids, no later seat has the first seat's id. */
  lemma HeadIdNotInTail(seats: seq<Seat>)
    requires seats != [] && DistinctIds(seats)
    ensures forall s :: s in seats[1..] ==> s.id != seats[0].id
  {
    forall s | s in seats[1..]
      ensures s.id != seats[0].id
    {
      var k :| 0 <= k < |seats| - 1 && seats[1..][k] == s;
      assert seats[k + 1] == s;
    }
  }

  /** Filtering out an id that occurs once removes exactly one seat. */
  lemma {:induction false} RemoveCount(seats: seq<Seat>, id: string)
    requires DistinctIds(seats) && HasId(seats, id)
    ensures |RemoveId(seats, id)| == |seats| - 1
  {
    var tail := seats[1..];
    assert DistinctIds(tail);
    if seats[0].id == id {
      assert !HasId(tail, id);
      RemoveAbsent(tail, id);
    } else {
      var i :| 0 <= i < |seats| && seats[i].id == id;
      assert tail[i - 1].id == id;
      RemoveCount(tail, id);
    }
  }

  /**
   * `handleSeatClick`: an unavailable seat is ignored; a selected seat is
   * deselected; another seat is added while fewer seats than passengers are chosen.
   */
  function SeatClick(selected: seq<Seat>, seat: Seat, passengers: int): (r: seq<Seat>)
    ensures !seat.isAvailable ==> r == selected
    ensures seat.isAvailable && HasId(selected, seat.id) ==> r == RemoveId(selected, seat.id)
    ensures seat.isAvailable && !HasId(selected, seat.id) && |selected| < passengers ==>
      r == selected + [seat]
    ensures seat.isAvailable && !HasId(selected, seat.id) && |selected| >= passengers ==>
      r == selected
  {
    if !seat.isAvailable then selected
    else if HasId(selected, seat.id) then RemoveId(selected, seat.id)
    else if |selected| < passengers then selected + [seat]
    else selected
  }

  /** A click keeps the selection free of repeated seats and within the passenger count. */
  lemma SeatClickKeepsSelectionValid(selected: seq<Seat>, seat: Seat, passengers: int)
    requires DistinctIds(selected) && |selected| <= passengers
    ensures var r := SeatClick(selected, seat, passengers);
      DistinctIds(r) && |r| <= passengers
  {
    var r := SeatClick(selected, seat, passengers);
    if seat.isAvailable && HasId(selected, seat.id) {
      RemoveKeepsDistinct(selected, seat.id);
      RemoveCount(selected, seat.id);
    }
    if seat.isAvailable && !HasId(selected, seat.id) && |selected| < passengers {
      forall i, j | 0 <= i < j < |r|
        ensures r[i].id != r[j].id
      {
        if j == |selected| {
          assert r[i] == selected[i];
        }
      }
    }
  }

  /** Clicking a seat twice, when it was free to add, gives the selection back. */
  lemma SeatClickTwiceRestores(selected: seq<Seat>, seat: Seat, passengers: int)
    requires seat.isAvailable && !HasId(selected, seat.id) && |selected| < passengers
    ensures SeatClick(SeatClick(selected, seat, passengers), seat, passengers) == selected
  {
    var added := selected + [seat];
    assert added[|selected|].id == seat.id;
    assert HasId(added, seat.id);
    RemoveLast(selected, seat);
  }

  lemma {:induction false} RemoveLast(selected: seq<Seat>, seat: Seat)
    requires !HasId(selected, seat.id)
    ensures RemoveId(selected + [seat], seat.id) == selected
  {
    if selected == [] {
      assert [] + [seat] == [seat];
    } else {
      assert (selected + [seat])[1..] == selected[1..] + [seat];
      assert !HasId(selected[1..], seat.id);
      assert selected[0].id != seat.id;
      RemoveLast(selected[1..], seat);
    }
  }

  /** `handleContinue`: only a complete selection is stored, then the passenger form opens. */
  function ContinueActions(selected: seq<Seat>, passengers: int): (actions: seq<Action>)
    ensures |selected| == passengers <==> actions != []
    ensures actions != [] ==>
      actions == [SetSelectedSeats(selected), SetCurrentView("booking")]
  {
    if |selected| == passengers then [SetSelectedSeats(selected), SetCurrentView("booking")] else []
  }

  /** The fare of the chosen class, or 0 without a selected flight. */
  function ClassFare(s: AppState): (fare: int)
    ensures s.selectedFlight.None? ==> fare == 0
    ensures s.selectedFlight.Some? ==> fare == s.selectedFlight.value.price.Get(s.searchFilters.travelClass)
  {
    match s.selectedFlight
    case None => 0
    case Some(f) => f.price.Get(s.searchFilters.travelClass)
  }

  /** `getTotalPrice`: the class fare per passenger plus every chosen seat's surcharge. */
  function TotalPrice(s: AppState, selected: seq<Seat>): (total: int)
    ensures selected == [] ==> total == ClassFare(s) * s.searchFilters.passengers
    ensures s.selectedFlight.None? ==> total == SeatPriceSum(selected)
  {
    ClassFare(s) * s.searchFilters.passengers + SeatPriceSum(selected)
  }

  /** Adding a seat adds its surcharge to the total and changes nothing else. */
  lemma TotalPriceAddSeat(s: AppState, selected: seq<Seat>, seat: Seat)
    ensures TotalPrice(s, selected + [seat]) == TotalPrice(s, selected) + seat.price
  {
    SeatPriceSumAppend(selected, [seat]);
    assert SeatPriceSum([seat]) == seat.price;
  }

  // ---------------------------------------------------------------------
  // Rows

  /** `parseInt` of a row's text: its leading digits, or NaN when there are none. */
  datatype RowKey = RowNumber(n: nat) | NotANumber

  function LeadingDigits(s: string): (r: string)
    ensures AllDigits(r) && |r| <= |s| && r == s[..|r|]
    ensures |r| < |s| ==> !IsDigit(s[|r|])
  {
    if s != [] && IsDigit(s[0]) then [s[0]] + LeadingDigits(s[1..]) else []
  }

  /** The row a seat is drawn in: its seat number without the last character, as an integer. */
  function RowOf(seat: Seat): RowKey
  {
    var rowText := if seat.seatNumber == [] then [] else seat.seatNumber[..|seat.seatNumber| - 1];
    var digits := LeadingDigits(rowText);
    if digits == [] then NotANumber else RowNumber(DigitsValue(digits))
  }

  /** Generated seat numbers fall in the row they were generated for. */
  lemma RowOfGeneratedSeat(row: nat, letter: nat)
    requires letter < 6
    ensures RowOf(Seat("", FlightData.SeatNumber(row, letter), Economy, true, false, 0)) == RowNumber(row)
  {
    var rowText := NatToString(row);
    var number := FlightData.SeatNumber(row, letter);
    assert number[..|number| - 1] == rowText;
    LeadingAll(rowText);
    DigitsValueOfNatToString(row);
  }

  lemma {:induction false} LeadingAll(s: string)
    requires AllDigits(s)
    ensures LeadingDigits(s) == s
  {
    if s != [] {
      LeadingAll(s[1..]);
    }
  }

  /** The seats of one row, in list order. */
  function SeatsInRow(seats: seq<Seat>, key: RowKey): (r: seq<Seat>)
    ensures forall i :: 0 <= i < |r| ==> RowOf(r[i]) == key
    ensures |r| <= |seats|
  {
    if seats == [] then []
    else
      var init := SeatsInRow(seats[..|seats| - 1], key);
      if RowOf(seats[|seats| - 1]) == key then init + [seats[|seats| - 1]] else init
  }

  lemma SeatsInRowSnoc(seats: seq<Seat>, seat: Seat, key: RowKey)
    ensures SeatsInRow(seats + [seat], key) ==
      if RowOf(seat) == key then SeatsInRow(seats, key) + [seat] else SeatsInRow(seats, key)
  {
    assert (seats + [seat])[..|seats|] == seats;
  }

  lemma {:induction false} SeatsInRowNone(seats: seq<Seat>, key: RowKey)
    requires forall j :: 0 <= j < |seats| ==> RowOf(seats[j]) != key
    ensures SeatsInRow(seats, key) == []
  {
    if seats != [] {
      SeatsInRowNone(seats[..|seats| - 1], key);
    }
  }

  /** The rows the seats fall in. */
  function RowKeys(seats: seq<Seat>): set<RowKey>
  {
    if seats == [] then {} else RowKeys(seats[..|seats| - 1]) + {RowOf(seats[|seats| - 1])}
  }

  lemma {:induction false} RowKeysMembers(seats: seq<Seat>)
    ensures forall k :: k in RowKeys(seats) <==> exists i :: 0 <= i < |seats| && RowOf(seats[i]) == k
  {
    if seats != [] {
      var init := seats[..|seats| - 1];
      RowKeysMembers(init);
      assert forall i :: 0 <= i < |init| ==> init[i] == seats[i];
    }
  }

  /** Each row the seats fall in, with that row's seats in list order. */
  function Grouped(seats: seq<Seat>): map<RowKey, seq<Seat>>
  {
    map k | k in RowKeys(seats) :: SeatsInRow(seats, k)
  }

  /** The map has exactly the seats' rows, and each row's list is non-empty and holds that row's seats. */
  lemma GroupedRows(seats: seq<Seat>)
    ensures forall k :: k in Grouped(seats) <==> exists i :: 0 <= i < |seats| && RowOf(seats[i]) == k
    ensures forall k :: k in Grouped(seats) ==>
      Grouped(seats)[k] != [] && forall i :: 0 <= i < |Grouped(seats)[k]| ==> RowOf(Grouped(seats)[k][i]) == k
  {
    RowKeysMembers(seats);
    forall k | k in Grouped(seats)
      ensures Grouped(seats)[k] != []
    {
      var i :| 0 <= i < |seats| && RowOf(seats[i]) == k;
      SeatsInRowHas(seats, k, i);
    }
  }

  lemma {:induction false} SeatsInRowHas(seats: seq<Seat>, key: RowKey, i: nat)
    requires i < |seats| && RowOf(seats[i]) == key
    ensures SeatsInRow(seats, key) != []
  {
    if i < |seats| - 1 {
      SeatsInRowHas(seats[..|seats| - 1], key, i);
    }
  }

  /** Pushing a seat onto its row's list, starting the list when the row is new. */
  function Push(g: map<RowKey, seq<Seat>>, seat: Seat): map<RowKey, seq<Seat>>
  {
    var key := RowOf(seat);
    if key in g then g[key := g[key] + [seat]] else g[key := [seat]]
  }

  /** One more seat: its row's list grows by that seat, or the row starts with it. */
  lemma GroupedSnoc(seats: seq<Seat>, seat: Seat)
    ensures Grouped(seats + [seat]) == Push(Grouped(seats), seat)
  {
    var after := Grouped(seats + [seat]);
    var expected := Push(Grouped(seats), seat);
    GroupedSnocKeys(seats, seat);
    forall k | k in after
      ensures after[k] == expected[k]
    {
      GroupedSnocAt(seats, seat, k);
    }
  }

  lemma GroupedSnocAt(seats: seq<Seat>, seat: Seat, k: RowKey)
    requires k in RowKeys(seats) || k == RowOf(seat)
    ensures k in Push(Grouped(seats), seat)
    ensures SeatsInRow(seats + [seat], k) == Push(Grouped(seats), seat)[k]
  {
    var g := Grouped(seats);
    SeatsInRowSnoc(seats, seat, k);
    if k !in g {
      RowKeysMembers(seats);
      SeatsInRowNone(seats, k);
    }
  }

  lemma GroupedSnocKeys(seats: seq<Seat>, seat: Seat)
    ensures Grouped(seats + [seat]).Keys == Grouped(seats).Keys + {RowOf(seat)}
  {
    assert (seats + [seat])[..|seats|] == seats;
    assert RowKeys(seats + [seat]) == RowKeys(seats) + {RowOf(seat)};
  }

  /** The grouping of one more seat of the list. */
  lemma GroupedPrefixStep(seats: seq<Seat>, i: nat)
    requires i < |seats|
    ensures Grouped(seats[..i + 1]) == Push(Grouped(seats[..i]), seats[i])
  {
    assert seats[..i + 1] == seats[..i] + [seats[i]];
    GroupedSnoc(seats[..i], seats[i]);
  }

  /** `groupSeatsByRow`, the `forEach` that pushes each seat onto its row's list. */
  method GroupSeatsByRow(seats: seq<Seat>) returns (grouped: map<RowKey, seq<Seat>>)
    ensures grouped == Grouped(seats)
  {
    grouped := map[];
    var i := 0;
    while i < |seats|
      invariant 0 <= i <= |seats|
      invariant grouped == Grouped(seats[..i])
    {
      var seat := seats[i];
      var key := RowOf(seat);
      GroupedPrefixStep(seats, i);
      if key in grouped {
        grouped := grouped[key := grouped[key] + [seat]];
      } else {
        grouped := grouped[key := [seat]];
      }
      i := i + 1;
    }
    assert seats[..|seats|] == seats;
  }

  /** The numbered rows below `bound`, ascending. */
  function RowsBelow(rows: set<nat>, bound: nat): (r: seq<nat>)
    ensures forall i, j :: 0 <= i < j < |r| ==> r[i] < r[j]
    ensures forall n :: n in r <==> n in rows && n < bound
  {
    if bound == 0 then []
    else
      var init := RowsBelow(rows, bound - 1);
      assert forall i :: 0 <= i < |init| ==> init[i] in init;
      if bound - 1 in rows then init + [bound - 1] else init
  }

  /** The largest row number among the seats (0 when there is none). */
  function MaxRow(seats: seq<Seat>): (m: nat)
    ensures forall k :: k in RowKeys(seats) && k.RowNumber? ==> k.n <= m
  {
    if seats == [] then 0
    else
      var init := MaxRow(seats[..|seats| - 1]);
      var last := RowOf(seats[|seats| - 1]);
      if last.RowNumber? && last.n > init then last.n else init
  }

  /**
   * `Object.keys(seatsByRow).map(Number).sort((a, b) => a - b)` over the
   * numbered rows: every row once, in ascending order.
   */
  function AscendingRows(seats: seq<Seat>): (rows: seq<nat>)
    ensures forall i, j :: 0 <= i < j < |rows| ==> rows[i] < rows[j]
    ensures forall n :: n in rows <==> RowNumber(n) in Grouped(seats)
  {
    RowsBelow(set k | k in RowKeys(seats) && k.RowNumber? :: k.n, MaxRow(seats) + 1)
  }

  // ---------------------------------------------------------------------
  // The component

  /** The component's two state cells: the seat grid and the running selection. */
  class SeatPicker {
    var seats: seq<Seat>
    var selected: seq<Seat>

    constructor ()
      ensures seats == [] && selected == []
    {
      seats := [];
      selected := [];
    }

    /** The mount effect: the grid of the selected flight. */
    method Load(flightId: string, draws: seq<FlightData.SeatDraws>)
      requires |draws| >= 210
      requires forall k :: 0 <= k < |draws| ==> FlightData.ValidSeatDraws(draws[k])
      modifies this
      ensures selected == old(selected)
      ensures |seats| == 210
      ensures forall k :: 0 <= k < 210 ==> seats[k] == FlightData.MakeSeat(flightId, k / 6 + 1, k % 6, draws[k])
    {
      seats := FlightData.GenerateSeats(flightId, draws);
    }

    method Click(seat: Seat, passengers: int)
      modifies this
      ensures selected == SeatClick(old(selected), seat, passengers)
      ensures seats == old(seats)
      ensures old(DistinctIds(selected) && |selected| <= passengers) ==>
        DistinctIds(selected) && |selected| <= passengers
    {
      if DistinctIds(selected) && |selected| <= passengers {
        SeatClickKeepsSelectionValid(selected, seat, passengers);
      }
      selected := SeatClick(selected, seat, passengers);
    }

    method Continue(passengers: int) returns (actions: seq<Action>)
      ensures |selected| == passengers ==> actions == [SetSelectedSeats(selected), SetCurrentView("booking")]
      ensures |selected| != passengers ==> actions == []
    {
      if |selected| == passengers {
        actions := [SetSelectedSeats(selected), SetCurrentView("booking")];
      } else {
        actions := [];
      }
    }
  }
}
