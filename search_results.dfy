/**
 * The results screen (src/components/SearchResults.tsx): the filter panel's
 * state, the flight filter, the sort, the airline list and toggle, and the
 * reset button.
 */
module SearchResults {
  import opened Types
  import opened Text

  /** The class filter: every class, or flights with seats left in one class. */
  datatype ClassFilter = AllClasses | OnlyClass(travelClass: TravelClass)

  /** The panel's filter cells. */
  datatype Filters = Filters(
    priceLow: int,
    priceHigh: int,
    maxStops: int,
    airlines: seq<string>,
    classFilter: ClassFilter)

  /** The panel's initial cells, and what the reset buttons restore. */
  const DefaultFilters: Filters := Filters(0, 300000, 2, [], AllClasses)

  /** The filter's test on one flight. */
  predicate Passes(f: Flight, fl: Filters)
  {
    && f.stops <= fl.maxStops
    && MinPrice(f.price) >= fl.priceLow
    && MaxPrice(f.price) <= fl.priceHigh
    && (|fl.airlines| == 0 || f.airline in fl.airlines)
    && (fl.classFilter.OnlyClass? ==> f.availableSeats.Get(fl.classFilter.travelClass) > 0)
  }

  /** `filterFlights`. */
  function FilterFlights(flights: seq<Flight>, fl: Filters): (r: seq<Flight>)
    ensures forall f :: f in r <==> f in flights && Passes(f, fl)
    ensures |r| <= |flights|
  {
    if flights == [] then []
    else if Passes(flights[0], fl) then [flights[0]] + FilterFlights(flights[1..], fl)
    else FilterFlights(flights[1..], fl)
  }

  /** The filter keeps the surviving flights in their original order. */
  lemma {:induction false} FilterIsSubsequence(flights: seq<Flight>, fl: Filters)
    ensures IsSubsequence(FilterFlights(flights, fl), flights)
  {
    if flights != [] {
      FilterIsSubsequence(flights[1..], fl);
      var r := FilterFlights(flights, fl);
      if Passes(flights[0], fl) {
        assert r[1..] == FilterFlights(flights[1..], fl);
      }
    }
  }

  /**
   * The reset filters let a flight through exactly when it has at most two
   * stops and all its fares are between 0 and 300000.
   */
  lemma DefaultFiltersPass(f: Flight)
    ensures Passes(f, DefaultFilters) <==>
      f.stops <= 2 && MinPrice(f.price) >= 0 && MaxPrice(f.price) <= 300000
  {
  }

  // ---------------------------------------------------------------------
  // Sorting

  /**
   * The sort select's values. `ByMinutes` is not offered by the screen: it is
   * the evidently intended duration key, kept beside the one as written so
   * that the two can be compared.
   */
  datatype SortKey = ByPrice | ByDuration | ByDeparture | ByMinutes | OtherKey(name: string)
  datatype SortOrder = Ascending | Descending

  /**
   * The duration key as written: every digit of the duration text read as
   * one number, so "2h 30m" gives 230.
   */
  function DurationKey(f: Flight): nat
  {
    DigitsValue(Digits(f.duration))
  }

  /** The comparator's key: the lowest fare, the duration as written, the departure time, or 0. */
  function Key(f: Flight, key: SortKey): int
  {
    match key
    case ByPrice => MinPrice(f.price)
    case ByDuration => DurationKey(f)
    case ByMinutes => DurationMinutes(f.duration)
    case ByDeparture => f.departureTime
    case OtherKey(_) => 0
  }

  /** What the comparator compares: the key, negated for descending order. */
  function Rank(f: Flight, key: SortKey, order: SortOrder): int
  {
    if order == Ascending then Key(f, key) else -Key(f, key)
  }

  predicate SortedBy(xs: seq<Flight>, key: SortKey, order: SortOrder)
  {
    forall i, j :: 0 <= i < j < |xs| ==> Rank(xs[i], key, order) <= Rank(xs[j], key, order)
  }

  /** Insert before the first flight that ranks strictly after `f`. */
  function Insert(f: Flight, sorted: seq<Flight>, key: SortKey, order: SortOrder): (r: seq<Flight>)
    requires SortedBy(sorted, key, order)
    ensures SortedBy(r, key, order)
    ensures multiset(r) == multiset(sorted) + multiset{f}
  {
    if sorted == [] then [f]
    else if Rank(f, key, order) <= Rank(sorted[0], key, order) then
      RanksBeforeSorted(f, sorted, key, order);
      ConsSorted(f, sorted, key, order);
      [f] + sorted
    else
      var rest := Insert(f, sorted[1..], key, order);
      assert sorted == [sorted[0]] + sorted[1..];
      HeadRanksFirst(f, sorted, rest, key, order);
      ConsSorted(sorted[0], rest, key, order);
      [sorted[0]] + rest
  }

  /** A flight ranking no later than every flight of a sorted list keeps it sorted when put in front. */
  lemma ConsSorted(h: Flight, rest: seq<Flight>, key: SortKey, order: SortOrder)
    requires SortedBy(rest, key, order)
    requires forall k :: 0 <= k < |rest| ==> Rank(h, key, order) <= Rank(rest[k], key, order)
    ensures SortedBy([h] + rest, key, order)
  {
    var r := [h] + rest;
    forall i, j | 0 <= i < j < |r|
      ensures Rank(r[i], key, order) <= Rank(r[j], key, order)
    {
      assert r[j] == rest[j - 1];
      if i == 0 {
        assert r[i] == h;
        assert Rank(h, key, order) <= Rank(rest[j - 1], key, order);
      } else {
        assert r[i] == rest[i - 1];
        assert Rank(rest[i - 1], key, order) <= Rank(rest[j - 1], key, order);
      }
    }
  }

  /** A flight ranking no later than the head of a sorted list ranks no later than all of it. */
  lemma RanksBeforeSorted(f: Flight, sorted: seq<Flight>, key: SortKey, order: SortOrder)
    requires sorted != [] && SortedBy(sorted, key, order)
    requires Rank(f, key, order) <= Rank(sorted[0], key, order)
    ensures forall k :: 0 <= k < |sorted| ==> Rank(f, key, order) <= Rank(sorted[k], key, order)
  {
    forall k | 0 < k < |sorted|
      ensures Rank(sorted[0], key, order) <= Rank(sorted[k], key, order)
    {
    }
  }

  /** The head of a sorted list ranks no later than `f` and the rest of the list, in any order. */
  lemma HeadRanksFirst(f: Flight, sorted: seq<Flight>, rest: seq<Flight>, key: SortKey, order: SortOrder)
    requires sorted != [] && SortedBy(sorted, key, order)
    requires Rank(sorted[0], key, order) <= Rank(f, key, order)
    requires multiset(rest) == multiset(sorted[1..]) + multiset{f}
    ensures forall k :: 0 <= k < |rest| ==> Rank(sorted[0], key, order) <= Rank(rest[k], key, order)
  {
    forall k | 0 <= k < |rest|
      ensures Rank(sorted[0], key, order) <= Rank(rest[k], key, order)
    {
      assert rest[k] in multiset(rest);
      if rest[k] != f {
        assert rest[k] in multiset(sorted[1..]);
        var j :| 1 <= j < |sorted| && sorted[j] == rest[k];
      }
    }
  }

  /** `[...flights].sort(comparator)`, as an insertion sort. */
  function Sort(flights: seq<Flight>, key: SortKey, order: SortOrder): (r: seq<Flight>)
    ensures SortedBy(r, key, order)
    ensures multiset(r) == multiset(flights)
  {
    if flights == [] then []
    else
      assert flights == [flights[0]] + flights[1..];
      Insert(flights[0], Sort(flights[1..], key, order), key, order)
  }

  /**
   * `sortFlights`: a permutation of the input, ascending by the key for
   * ascending order and descending for descending order; an unknown key
   * leaves the list as it was.
   */
  function SortFlights(flights: seq<Flight>, key: SortKey, order: SortOrder): (r: seq<Flight>)
    ensures multiset(r) == multiset(flights) && |r| == |flights|
    ensures key.OtherKey? ==> r == flights
    ensures order == Ascending ==> forall i, j :: 0 <= i < j < |r| ==> Key(r[i], key) <= Key(r[j], key)
    ensures order == Descending ==> forall i, j :: 0 <= i < j < |r| ==> Key(r[i], key) >= Key(r[j], key)
  {
    if key.OtherKey? then flights
    else
      var r := Sort(flights, key, order);
      assert |r| == |multiset(r)| == |multiset(flights)| == |flights|;
      r
  }

  /**
   * The key as written reads "1h 59m" as 159 and "2h 5m" as 25, so the
   * screen's duration sort lists the 125-minute flight before the 119-minute
   * one.
   */
  lemma DurationKeyMisorders()
    ensures DurationKey(FlightWithDuration("1h 59m")) == 159
    ensures DurationKey(FlightWithDuration("2h 5m")) == 25
    ensures DurationMinutes("1h 59m") == 119 && DurationMinutes("2h 5m") == 125
    ensures var short, long := FlightWithDuration("1h 59m"), FlightWithDuration("2h 5m");
      SortFlights([short, long], ByDuration, Ascending) == [long, short]
  {
    ExampleDurationTexts();
    DurationTextDigits(1, 59);
    DurationTextDigits(2, 5);
    ExampleDigitValues();
    DurationMinutesOfText(1, 59);
    DurationMinutesOfText(2, 5);
    var short, long := FlightWithDuration("1h 59m"), FlightWithDuration("2h 5m");
    SortTwo(short, long, ByDuration, Ascending);
  }

  /** Two flights with different keys are sorted into the one order their keys allow. */
  lemma SortTwo(a: Flight, b: Flight, key: SortKey, order: SortOrder)
    requires Rank(b, key, order) < Rank(a, key, order)
    ensures SortFlights([a, b], key, order) == [b, a]
  {
    SortOne(b, key, order);
    InsertAfterOne(a, b, key, order);
    assert [a, b][1..] == [b];
  }

  lemma SortOne(b: Flight, key: SortKey, order: SortOrder)
    ensures Sort([b], key, order) == [b]
  {
    assert [b][1..] == [];
  }

  lemma InsertAfterOne(a: Flight, b: Flight, key: SortKey, order: SortOrder)
    requires Rank(b, key, order) < Rank(a, key, order)
    ensures Insert(a, [b], key, order) == [b, a]
  {
    assert [b][1..] == [];
  }

  lemma ExampleDurationTexts()
    ensures NatToString(1) + NatToString(59) == "159" && NatToString(2) + NatToString(5) == "25"
    ensures DurationText(1, 59) == "1h 59m" && DurationText(2, 5) == "2h 5m"
  {
    assert NatToString(1) == "1" && NatToString(2) == "2" && NatToString(5) == "5";
    assert NatToString(59) == NatToString(5) + "9";
  }

  lemma ExampleDigitValues()
    ensures DigitsValue("159") == 159 && DigitsValue("25") == 25
  {
    assert "159"[..2] == "15" && "15"[..1] == "1" && "1"[..0] == [];
    assert "25"[..1] == "2" && "2"[..0] == [];
  }

  /** The as-written key of a generator duration: the hours' digits then the minutes', read as one number. */
  lemma DurationTextDigits(hours: nat, minutes: nat)
    ensures Digits(DurationText(hours, minutes)) == NatToString(hours) + NatToString(minutes)
  {
    var h := NatToString(hours);
    var m := NatToString(minutes);
    DigitsAppend(h + "h ", m + "m");
    DigitsAppend(h, "h ");
    DigitsAppend(m, "m");
    DigitsOfDigits(h);
    DigitsOfDigits(m);
    assert Digits("h ") == [];
    assert Digits("m") == [];
    assert h + "h " + m + "m" == (h + "h ") + (m + "m");
    assert h + [] == h && m + [] == m;
  }

  /**
   * The key as written of a generator duration `<h>h <m>m`: the hours
   * shifted left by the number of the minutes' digits, plus the minutes, so
   * `2h 30m` gives 230 and `2h 5m` gives 25.
   */
  lemma DurationKeyOfText(f: Flight, hours: nat, minutes: nat)
    requires f.duration == DurationText(hours, minutes)
    ensures DurationKey(f) == hours * Pow10(|NatToString(minutes)|) + minutes
    ensures minutes < 10 ==> DurationKey(f) == hours * 10 + minutes
  {
    DurationTextDigits(hours, minutes);
    DigitsValueAppend(NatToString(hours), NatToString(minutes));
    DigitsValueOfNatToString(hours);
    DigitsValueOfNatToString(minutes);
    if minutes < 10 {
      assert |NatToString(minutes)| == 1;
    }
  }

  /**
   * What each key ranks a flight by: the cheapest fare, the departure time,
   * for a generator duration `<h>h <m>m` the digit key as written and the
   * intended minutes, and nothing for an unknown key.
   */
  lemma KeyMeaning(f: Flight, name: string, hours: nat, minutes: nat)
    ensures var k := Key(f, ByPrice);
      && k <= f.price.economy && k <= f.price.premium && k <= f.price.business && k <= f.price.first
      && (k == f.price.economy || k == f.price.premium || k == f.price.business || k == f.price.first)
    ensures Key(f, ByDeparture) == f.departureTime
    ensures f.duration == DurationText(hours, minutes) ==>
      && Key(f, ByDuration) == hours * Pow10(|NatToString(minutes)|) + minutes
      && Key(f, ByMinutes) == hours * 60 + minutes
    ensures Key(f, OtherKey(name)) == 0
  {
    if f.duration == DurationText(hours, minutes) {
      DurationKeyOfText(f, hours, minutes);
      DurationMinutesOfText(hours, minutes);
    }
  }

  /** A flight that differs from the empty one only in its duration text. */
  function FlightWithDuration(d: string): Flight
  {
    Flight("", "", "", Airport("", "", "", ""), Airport("", "", "", ""), 0, 0, d,
           PerClass(0, 0, 0, 0), "", 0, PerClass(0, 0, 0, 0))
  }

  /** The generator's duration text, `<h>h <m>m`. */
  function DurationText(hours: nat, minutes: nat): string
  {
    NatToString(hours) + "h " + NatToString(minutes) + "m"
  }

  /** The first position of `c` in `s`, or `|s|` when there is none. */
  function IndexOf(s: string, c: char): (i: nat)
    ensures i <= |s|
    ensures i < |s| ==> s[i] == c
    ensures forall j :: 0 <= j < i ==> s[j] != c
  {
    if s == [] then 0
    else if s[0] == c then 0
    else 1 + IndexOf(s[1..], c)
  }

  /**
   * The evidently intended duration key: the digits before the `h` read as
   * hours, the digits after it as minutes, combined into minutes.
   */
  function DurationMinutes(d: string): nat
  {
    var i := IndexOf(d, 'h');
    var rest := if i < |d| then d[i + 1..] else [];
    DigitsValue(Digits(d[..i])) * 60 + DigitsValue(Digits(rest))
  }

  /** The intended key reads a generator duration back as its length in minutes. */
  lemma DurationMinutesOfText(hours: nat, minutes: nat)
    ensures DurationMinutes(DurationText(hours, minutes)) == hours * 60 + minutes
  {
    var h := NatToString(hours);
    var m := NatToString(minutes);
    TextParts(h, m);
    DigitsOfDigits(h);
    DigitsValueOfNatToString(hours);
    MinutesDigits(m);
    DigitsValueOfNatToString(minutes);
  }

  /** Where a text `<h>h <m>m` with digits `h` splits: the hours, the `h`, then the rest. */
  lemma TextParts(h: string, m: string)
    requires AllDigits(h)
    ensures var d := h + "h " + m + "m";
      && IndexOf(d, 'h') == |h| < |d|
      && d[..|h|] == h
      && d[|h| + 1..] == " " + m + "m"
  {
    var tail := "h " + m + "m";
    assert h + "h " + m + "m" == h + tail;
    IndexAfterDigits(h, tail);
    SplitAfter(h, tail);
    assert tail[1..] == " " + m + "m";
  }

  lemma SplitAfter(h: string, tail: string)
    requires tail != []
    ensures (h + tail)[..|h|] == h && (h + tail)[|h| + 1..] == tail[1..]
  {
  }

  /** The first `h` after a run of digits is the one right after it. */
  lemma {:induction false} IndexAfterDigits(digits: string, tail: string)
    requires AllDigits(digits) && tail != [] && tail[0] == 'h'
    ensures IndexOf(digits + tail, 'h') == |digits|
    decreases |digits|
  {
    if digits != [] {
      assert IsDigit(digits[0]);
      assert (digits + tail)[1..] == digits[1..] + tail;
      IndexAfterDigits(digits[1..], tail);
    }
  }

  /** The digits of `" " + m + "m"` are those of `m`. */
  lemma MinutesDigits(m: string)
    requires AllDigits(m)
    ensures Digits(" " + m + "m") == m
  {
    DigitsAppend(" " + m, "m");
    DigitsAppend(" ", m);
    DigitsOfDigits(m);
    assert Digits(" ") == [] && Digits("m") == [];
    assert [] + m + [] == m;
  }

  /**
   * Sorted ascending by the intended minutes key, generator flights come
   * shortest first, which the key as written misses; on the two flights
   * above it keeps the 119-minute one first.
   */
  lemma DurationSortShortestFirst(flights: seq<Flight>, i: nat, j: nat, h1: nat, m1: nat, h2: nat, m2: nat)
    requires var r := SortFlights(flights, ByMinutes, Ascending);
      && i < j < |r|
      && r[i].duration == DurationText(h1, m1) && r[j].duration == DurationText(h2, m2)
    ensures h1 * 60 + m1 <= h2 * 60 + m2
    ensures var short, long := FlightWithDuration("1h 59m"), FlightWithDuration("2h 5m");
      SortFlights([long, short], ByMinutes, Ascending) == [short, long]
  {
    DurationMinutesOfText(h1, m1);
    DurationMinutesOfText(h2, m2);
    DurationKeyMisorders();
    SortTwo(FlightWithDuration("2h 5m"), FlightWithDuration("1h 59m"), ByMinutes, Ascending);
  }

  // ---------------------------------------------------------------------
  // Airlines

  /** `[...new Set(results.map(f => f.airline))]`: each airline once, in first-seen order. */
  function UniqueAirlines(flights: seq<Flight>): (r: seq<string>)
    ensures forall a :: a in r <==> exists i :: 0 <= i < |flights| && flights[i].airline == a
    ensures forall i, j :: 0 <= i < j < |r| ==> r[i] != r[j]
  {
    if flights == [] then []
    else
      var init := flights[..|flights| - 1];
      var d := UniqueAirlines(init);
      var a := flights[|flights| - 1].airline;
      assert forall i :: 0 <= i < |init| ==> init[i] == flights[i];
      if a in d then d else d + [a]
  }

  /** An airline is listed before another exactly when it is first seen earlier. */
  lemma {:induction false} UniqueAirlinesFirstSeenOrder(flights: seq<Flight>, i: nat, j: nat)
    requires i < j < |UniqueAirlines(flights)|
    ensures FirstSeen(flights, UniqueAirlines(flights)[i]) < FirstSeen(flights, UniqueAirlines(flights)[j])
  {
    var init := flights[..|flights| - 1];
    var d := UniqueAirlines(init);
    var r := UniqueAirlines(flights);
    assert forall k :: 0 <= k < |init| ==> init[k] == flights[k];
    if j < |d| {
      UniqueAirlinesFirstSeenOrder(init, i, j);
      FirstSeenPrefix(flights, r[i]);
      FirstSeenPrefix(flights, r[j]);
    } else {
      FirstSeenPrefix(flights, r[i]);
      var last := flights[|flights| - 1].airline;
      assert r[j] == last && last !in d;
      assert FirstSeen(flights, last) == |flights| - 1 by {
        FirstSeenLast(flights);
      }
    }
  }

  /** The index of the first flight of airline `a`, or the length when there is none. */
  function FirstSeen(flights: seq<Flight>, a: string): (k: nat)
    ensures k <= |flights|
    ensures k < |flights| ==> flights[k].airline == a
    ensures forall i :: 0 <= i < k ==> flights[i].airline != a
  {
    if flights == [] then 0
    else if flights[0].airline == a then 0
    else 1 + FirstSeen(flights[1..], a)
  }

  lemma FirstSeenPrefix(flights: seq<Flight>, a: string)
    requires flights != []
    requires a in UniqueAirlines(flights[..|flights| - 1])
    ensures FirstSeen(flights, a) == FirstSeen(flights[..|flights| - 1], a)
    ensures FirstSeen(flights, a) < |flights| - 1
  {
    var init := flights[..|flights| - 1];
    var k := FirstSeen(init, a);
    var i :| 0 <= i < |init| && init[i].airline == a;
    assert k <= i;
    forall j | 0 <= j < k
      ensures flights[j].airline != a
    {
      assert init[j] == flights[j];
    }
    assert flights[k] == init[k];
    FirstSeenAt(flights, a, k);
  }

  /** The first flight of `a` is the one at `k` when none before it is of `a`. */
  lemma FirstSeenAt(flights: seq<Flight>, a: string, k: nat)
    requires k < |flights| && flights[k].airline == a
    requires forall j :: 0 <= j < k ==> flights[j].airline != a
    ensures FirstSeen(flights, a) == k
  {
    var f := FirstSeen(flights, a);
    assert f <= k;
  }

  lemma FirstSeenLast(flights: seq<Flight>)
    requires flights != []
    requires flights[|flights| - 1].airline !in UniqueAirlines(flights[..|flights| - 1])
    ensures FirstSeen(flights, flights[|flights| - 1].airline) == |flights| - 1
  {
    var n := |flights|;
    var a := flights[n - 1].airline;
    var init := flights[..n - 1];
    forall i | 0 <= i < n - 1
      ensures flights[i].airline != a
    {
      assert init[i] == flights[i];
    }
  }

  /** `toggleAirline`: drop the airline if listed, else append it. */
  function ToggleAirline(airlines: seq<string>, a: string): (r: seq<string>)
    ensures a in airlines ==> a !in r && forall b :: b != a ==> (b in r <==> b in airlines)
    ensures a !in airlines ==> r == airlines + [a]
  {
    if a in airlines then Without(airlines, a) else airlines + [a]
  }

  /** `prev.filter(x => x !== a)`. */
  function Without(xs: seq<string>, a: string): (r: seq<string>)
    ensures forall b :: b in r <==> b in xs && b != a
    ensures a !in xs ==> r == xs
  {
    if xs == [] then []
    else if xs[0] == a then Without(xs[1..], a)
    else [xs[0]] + Without(xs[1..], a)
  }

  /** Toggling twice restores which airlines are listed; from an unlisted airline, the very list. */
  lemma ToggleTwice(airlines: seq<string>, a: string)
    ensures var r := ToggleAirline(ToggleAirline(airlines, a), a);
      forall b :: b in r <==> b in airlines
    ensures a !in airlines ==> ToggleAirline(ToggleAirline(airlines, a), a) == airlines
  {
    if a !in airlines {
      WithoutLast(airlines, a);
    }
  }

  lemma {:induction false} WithoutLast(xs: seq<string>, a: string)
    requires a !in xs
    ensures Without(xs + [a], a) == xs
  {
    if xs == [] {
      assert [] + [a] == [a];
    } else {
      assert (xs + [a])[1..] == xs[1..] + [a];
      WithoutLast(xs[1..], a);
    }
  }

  // ---------------------------------------------------------------------
  // The component

  /** The screen's state cells. */
  class ResultsPanel {
    var sortBy: SortKey
    var sortOrder: SortOrder
    var filters: Filters

    constructor ()
      ensures sortBy == ByPrice && sortOrder == Ascending && filters == DefaultFilters
    {
      sortBy := ByPrice;
      sortOrder := Ascending;
      filters := DefaultFilters;
    }

    /** The flights listed: the search results that pass the filters, in the chosen order. */
    function Shown(results: seq<Flight>): (r: seq<Flight>)
      reads this
      ensures forall f :: f in r <==> f in results && Passes(f, filters)
      ensures sortBy.OtherKey? ==> r == FilterFlights(results, filters)
      ensures sortOrder == Ascending ==> forall i, j :: 0 <= i < j < |r| ==> Key(r[i], sortBy) <= Key(r[j], sortBy)
      ensures sortOrder == Descending ==> forall i, j :: 0 <= i < j < |r| ==> Key(r[i], sortBy) >= Key(r[j], sortBy)
    {
      var filtered := FilterFlights(results, filters);
      var r := SortFlights(filtered, sortBy, sortOrder);
      assert forall f :: f in r <==> f in multiset(r);
      assert forall f :: f in filtered <==> f in multiset(filtered);
      r
    }

    method Toggle(a: string)
      modifies this
      ensures filters == old(filters).(airlines := ToggleAirline(old(filters).airlines, a))
      ensures sortBy == old(sortBy) && sortOrder == old(sortOrder)
    {
      filters := filters.(airlines := ToggleAirline(filters.airlines, a));
    }

    /** Either reset button: price range, stops, airlines and class back to their defaults. */
    method ResetFilters()
      modifies this
      ensures filters == DefaultFilters
      ensures sortBy == old(sortBy) && sortOrder == old(sortOrder)
    {
      filters := DefaultFilters;
    }

    /** A listed flight is a search result that passes every filter, in the chosen order. */
    method ListedFlights(results: seq<Flight>) returns (listed: seq<Flight>)
      ensures forall f :: f in listed <==> f in results && Passes(f, filters)
      ensures |listed| <= |results|
      ensures sortOrder == Ascending ==>
        forall i, j :: 0 <= i < j < |listed| ==> Key(listed[i], sortBy) <= Key(listed[j], sortBy)
      ensures sortOrder == Descending ==>
        forall i, j :: 0 <= i < j < |listed| ==> Key(listed[i], sortBy) >= Key(listed[j], sortBy)
    {
      var filtered := FilterFlights(results, filters);
      listed := SortFlights(filtered, sortBy, sortOrder);
      assert forall f :: f in listed <==> f in multiset(listed);
      assert forall f :: f in filtered <==> f in multiset(filtered);
    }
  }
}
