/**
 * The bookings screen (src/components/BookingsList.tsx): the tab filter over
 * the state's bookings, the status badge and the upcoming-trip actions.
 * "Now" is a parameter, in the same minutes as departure times.
 */
module BookingsList {
  import opened Types

  /** The tabs: the `filter` state cell. */
  datatype Tab = AllTab | UpcomingTab | PastTab | CancelledTab

  /** `isUpcoming`: the flight departs after now. */
  predicate IsUpcoming(b: Booking, now: int)
  {
    b.flight.departureTime > now
  }

  /** Whether a booking is listed under one of the three filtering tabs. */
  predicate Listed(b: Booking, tab: Tab, now: int)
  {
    match tab
    case AllTab => true
    case UpcomingTab => IsUpcoming(b, now) && b.status != Cancelled
    case PastTab => !IsUpcoming(b, now) && b.status != Cancelled
    case CancelledTab => b.status == Cancelled
  }

  /** `bookings.filter(...)` with the tab's test. */
  function Keep(bookings: seq<Booking>, tab: Tab, now: int): (r: seq<Booking>)
    ensures forall b :: b in r <==> b in bookings && Listed(b, tab, now)
    ensures |r| <= |bookings|
  {
    if bookings == [] then []
    else if Listed(bookings[0], tab, now) then [bookings[0]] + Keep(bookings[1..], tab, now)
    else Keep(bookings[1..], tab, now)
  }

  /** `filterBookings`: the whole list for `all`, else the bookings the tab's test keeps. */
  function FilterBookings(bookings: seq<Booking>, tab: Tab, now: int): (r: seq<Booking>)
    ensures tab == AllTab ==> r == bookings
    ensures forall b :: b in r <==> b in bookings && Listed(b, tab, now)
  {
    if tab == AllTab then bookings else Keep(bookings, tab, now)
  }

  /** Every tab lists its bookings in the order they were made. */
  lemma {:induction false} FilterIsSubsequence(bookings: seq<Booking>, tab: Tab, now: int)
    ensures IsSubsequence(FilterBookings(bookings, tab, now), bookings)
  {
    if tab == AllTab {
      SubsequenceOfSelf(bookings);
    } else {
      KeepIsSubsequence(bookings, tab, now);
    }
  }

  lemma {:induction false} KeepIsSubsequence(bookings: seq<Booking>, tab: Tab, now: int)
    ensures IsSubsequence(Keep(bookings, tab, now), bookings)
  {
    if bookings != [] {
      KeepIsSubsequence(bookings[1..], tab, now);
      var r := Keep(bookings, tab, now);
      if Listed(bookings[0], tab, now) {
        assert r[1..] == Keep(bookings[1..], tab, now);
      }
    }
  }

  lemma {:induction false} SubsequenceOfSelf(xs: seq<Booking>)
    ensures IsSubsequence(xs, xs)
  {
    if xs != [] {
      SubsequenceOfSelf(xs[1..]);
    }
  }

  /**
   * The upcoming, past and cancelled tabs split the bookings: every booking
   * is on exactly one of them, and together they hold each booking as often
   * as the list does.
   */
  lemma {:induction false} TabsPartition(bookings: seq<Booking>, now: int)
    ensures multiset(Keep(bookings, UpcomingTab, now)) + multiset(Keep(bookings, PastTab, now))
            + multiset(Keep(bookings, CancelledTab, now)) == multiset(bookings)
    ensures |Keep(bookings, UpcomingTab, now)| + |Keep(bookings, PastTab, now)|
            + |Keep(bookings, CancelledTab, now)| == |bookings|
  {
    if bookings != [] {
      TabsPartition(bookings[1..], now);
      assert bookings == [bookings[0]] + bookings[1..];
    }
  }

  /** One booking is on exactly one of the three filtering tabs. */
  lemma ExactlyOneTab(b: Booking, now: int)
    ensures Listed(b, UpcomingTab, now) || Listed(b, PastTab, now) || Listed(b, CancelledTab, now)
    ensures !(Listed(b, UpcomingTab, now) && Listed(b, PastTab, now))
    ensures !(Listed(b, UpcomingTab, now) && Listed(b, CancelledTab, now))
    ensures !(Listed(b, PastTab, now) && Listed(b, CancelledTab, now))
  {
  }

  datatype Badge = CancelledBadge | UpcomingBadge | CompletedBadge

  /** `getStatusBadge`: cancelled first, then upcoming, else completed. */
  function StatusBadge(b: Booking, now: int): (badge: Badge)
    ensures badge == CancelledBadge <==> b.status == Cancelled
    ensures badge == UpcomingBadge <==> b.status != Cancelled && IsUpcoming(b, now)
    ensures badge == CompletedBadge <==> b.status != Cancelled && !IsUpcoming(b, now)
  {
    if b.status == Cancelled then CancelledBadge
    else if IsUpcoming(b, now) then UpcomingBadge
    else CompletedBadge
  }

  /** The badge names the tab a booking is listed on. */
  lemma BadgeMatchesTab(b: Booking, now: int)
    ensures StatusBadge(b, now) == CancelledBadge <==> Listed(b, CancelledTab, now)
    ensures StatusBadge(b, now) == UpcomingBadge <==> Listed(b, UpcomingTab, now)
    ensures StatusBadge(b, now) == CompletedBadge <==> Listed(b, PastTab, now)
  {
  }

  /** Check-in and cancel buttons: only on a confirmed booking whose flight is still ahead. */
  function ShowsTripActions(b: Booking, now: int): (shown: bool)
    ensures shown <==> IsUpcoming(b, now) && b.status == Confirmed
    ensures shown ==> StatusBadge(b, now) == UpcomingBadge
  {
    IsUpcoming(b, now) && b.status == Confirmed
  }
}
