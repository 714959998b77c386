/**
 * The payment screen (src/components/PaymentForm.tsx): card-number and expiry
 * formatting as the user types, and the submit handler that confirms the
 * pending booking.
 */
module PaymentForm {
  import opened Types
  import opened Text
  import opened AppStore
  import BookingForm

  function Min(a: int, b: int): int
  {
    if a <= b then a else b
  }

  /** Consecutive pieces of at most four characters, as the source's `for` loop cuts them. */
  function Chunks(m: string): (parts: seq<string>)
    ensures forall j :: 0 <= j < |parts| ==> 0 < |parts[j]| <= 4
    ensures m == [] <==> parts == []
    decreases |m|
  {
    if m == [] then []
    else if |m| <= 4 then [m]
    else [m[..4]] + Chunks(m[4..])
  }

  /** `parts.join(' ')`. */
  function Join(parts: seq<string>): string
  {
    if parts == [] then []
    else if |parts| == 1 then parts[0]
    else parts[0] + " " + Join(parts[1..])
  }

  lemma JoinChunksStep(m: string)
    requires |m| > 4
    ensures Join(Chunks(m)) == m[..4] + " " + Join(Chunks(m[4..]))
  {
    var rest := Chunks(m[4..]);
    assert rest != [];
    assert ([m[..4]] + rest)[1..] == rest;
  }

  /**
   * The grouped text of a non-empty string: every fifth character is a space
   * and the others are the string's characters in order, so its length is
   * `|m| + (|m| - 1) / 4`.
   */
  lemma {:induction false} GroupedLayout(m: string)
    requires m != []
    ensures var g := Join(Chunks(m));
      && |g| == |m| + (|m| - 1) / 4
      && forall k :: 0 <= k < |g| ==> g[k] == if k % 5 == 4 then ' ' else m[k - k / 5]
    decreases |m|
  {
    if |m| > 4 {
      JoinChunksStep(m);
      GroupedLayout(m[4..]);
      var g := Join(Chunks(m));
      var tail := Join(Chunks(m[4..]));
      assert g == m[..4] + " " + tail;
      forall k | 0 <= k < |g|
        ensures g[k] == if k % 5 == 4 then ' ' else m[k - k / 5]
      {
        LayoutStep(m, tail, k);
      }
    }
  }

  /** One character of `m[..4] + " " + tail`, where `tail` is the grouped rest of `m`. */
  lemma LayoutStep(m: string, tail: string, k: int)
    requires |m| > 4
    requires |tail| == |m| - 4 + (|m| - 5) / 4
    requires forall j :: 0 <= j < |tail| ==> tail[j] == if j % 5 == 4 then ' ' else m[4..][j - j / 5]
    requires 0 <= k < |tail| + 5
    ensures (m[..4] + " " + tail)[k] == if k % 5 == 4 then ' ' else m[k - k / 5]
  {
    var g := m[..4] + " " + tail;
    if k >= 5 {
      var j := k - 5;
      assert g[k] == tail[j];
      assert j % 5 == k % 5 && j / 5 == k / 5 - 1;
    } else {
      assert k % 5 == k && k / 5 == 0;
    }
  }

  lemma {:induction false} GroupedDigits(m: string)
    requires AllDigits(m)
    ensures Digits(Join(Chunks(m))) == m
    decreases |m|
  {
    if |m| > 4 {
      var tail := Join(Chunks(m[4..]));
      JoinChunksStep(m);
      GroupedDigits(m[4..]);
      DigitsAppend(m[..4] + " ", tail);
      DigitsAppend(m[..4], " ");
      DigitsOfDigits(m[..4]);
      assert Digits(" ") == [];
      assert m[..4] + [] == m[..4];
      assert m[..4] + m[4..] == m;
    } else if m != [] {
      DigitsOfDigits(m);
    }
  }

  /** The first run of 4 to 16 digits: all of `v`, up to 16 digits, when it has at least four. */
  function CardMatch(v: string): string
  {
    if |v| >= 4 then v[..Min(|v|, 16)] else []
  }

  /** `formatCardNumber`: the grouped digit run, or the bare digits when there is none. */
  function CardFormat(value: string): string
  {
    var v := Digits(value);
    var parts := Chunks(CardMatch(v));
    if |parts| > 0 then Join(parts) else v
  }

  /** Cutting the next piece off at position i. */
  lemma ChunksStep(m: string, i: nat)
    requires i < |m|
    ensures Chunks(m[i..]) == [m[i..Min(i + 4, |m|)]] + Chunks(m[Min(i + 4, |m|)..])
  {
    if |m[i..]| > 4 {
      assert m[i..][..4] == m[i..i + 4] && m[i..][4..] == m[i + 4..];
    } else {
      assert m[|m|..] == [];
      assert m[i..|m|] == m[i..];
    }
  }

  /** `formatCardNumber`, with its loop over four-digit steps. */
  method FormatCardNumber(value: string) returns (r: string)
    ensures r == CardFormat(value)
  {
    var v := Digits(value);
    var m := CardMatch(v);
    var parts: seq<string> := [];
    var i := 0;
    while i < |m|
      invariant 0 <= i && i % 4 == 0
      invariant i <= |m| ==> parts + Chunks(m[i..]) == Chunks(m)
      invariant i > |m| ==> parts == Chunks(m)
    {
      var end := Min(i + 4, |m|);
      ChunksStep(m, i);
      parts := parts + [m[i..end]];
      i := i + 4;
      if i > |m| {
        assert m[end..] == [];
      } else {
        assert end == i;
      }
    }
    if i <= |m| {
      assert m[i..] == [];
    }
    assert parts == Chunks(CardMatch(Digits(value)));
    if |parts| > 0 {
      r := Join(parts);
    } else {
      r := v;
    }
  }

  /**
   * With four or more digits the result is the first (at most 16) of them in
   * groups of four separated by single spaces, and dropping the spaces gives
   * those digits back; with fewer it is the digits alone.
   */
  lemma CardFormatShape(value: string)
    ensures var v := Digits(value);
      var r := CardFormat(value);
      && (|v| < 4 ==> r == v)
      && (|v| >= 4 ==>
            var m := v[..Min(|v|, 16)];
            && |r| == |m| + (|m| - 1) / 4
            && Digits(r) == m
            && forall k :: 0 <= k < |r| ==> r[k] == if k % 5 == 4 then ' ' else m[k - k / 5])
  {
    var v := Digits(value);
    if |v| >= 4 {
      var m := v[..Min(|v|, 16)];
      assert AllDigits(m);
      GroupedLayout(m);
      GroupedDigits(m);
    }
  }

  /** A character of grouped digits is a digit, or a space with a digit on each side. */
  lemma GroupedCharAt(m: string, g: string, k: int)
    requires AllDigits(m) && m != []
    requires |g| == |m| + (|m| - 1) / 4
    requires forall j :: 0 <= j < |g| ==> g[j] == if j % 5 == 4 then ' ' else m[j - j / 5]
    requires 0 <= k < |g|
    ensures IsDigit(g[k]) || g[k] == ' '
    ensures g[k] == ' ' ==> 0 < k < |g| - 1 && IsDigit(g[k - 1]) && IsDigit(g[k + 1])
  {
    if k % 5 == 4 {
      assert g[k - 1] == m[(k - 1) - (k - 1) / 5];
      assert k + 1 < |g|;
      assert g[k + 1] == m[(k + 1) - (k + 1) / 5];
    } else {
      assert g[k] == m[k - k / 5];
    }
  }

  /** Grouped digits hold only digits and single spaces between digits. */
  lemma GroupedChars(m: string, g: string)
    requires AllDigits(m) && m != []
    requires |g| == |m| + (|m| - 1) / 4
    requires forall j :: 0 <= j < |g| ==> g[j] == if j % 5 == 4 then ' ' else m[j - j / 5]
    ensures forall k :: 0 <= k < |g| ==> IsDigit(g[k]) || g[k] == ' '
    ensures forall k :: 0 <= k < |g| && g[k] == ' ' ==> 0 < k < |g| - 1 && IsDigit(g[k - 1]) && IsDigit(g[k + 1])
  {
    forall k | 0 <= k < |g|
      ensures IsDigit(g[k]) || g[k] == ' '
      ensures g[k] == ' ' ==> 0 < k < |g| - 1 && IsDigit(g[k - 1]) && IsDigit(g[k + 1])
    {
      GroupedCharAt(m, g, k);
    }
  }

  /** Only digits and single spaces between digits, at most 19 characters. */
  lemma CardFormatCharacters(value: string)
    ensures var r := CardFormat(value);
      && |r| <= 19
      && (forall k :: 0 <= k < |r| ==> IsDigit(r[k]) || r[k] == ' ')
      && (forall k :: 0 <= k < |r| && r[k] == ' ' ==> 0 < k < |r| - 1 && IsDigit(r[k - 1]) && IsDigit(r[k + 1]))
  {
    CardFormatShape(value);
    var v := Digits(value);
    var r := CardFormat(value);
    if |v| >= 4 {
      var m := v[..Min(|v|, 16)];
      assert AllDigits(m);
      GroupedChars(m, r);
    } else {
      assert r == v;
    }
  }

  /** Formatting an already formatted number changes nothing. */
  lemma CardFormatIdempotent(value: string)
    ensures CardFormat(CardFormat(value)) == CardFormat(value)
  {
    CardFormatShape(value);
    var v := Digits(value);
    var r := CardFormat(value);
    if |v| >= 4 {
      var m := v[..Min(|v|, 16)];
      assert Digits(r) == m && |m| >= 4 && |m| <= 16;
      assert m[..Min(|m|, 16)] == m;
    } else {
      DigitsOfDigits(v);
    }
  }

  /** `formatExpiry`: two digits, a slash, then up to two more digits. */
  function ExpiryFormat(value: string): (r: string)
    ensures var v := Digits(value);
      && (|v| < 2 ==> r == v)
      && (|v| >= 2 ==> 3 <= |r| <= 5 && r[2] == '/' && Digits(r) == v[..Min(|v|, 4)]
                       && AllDigits(r[..2]) && AllDigits(r[3..]))
  {
    var v := Digits(value);
    if |v| >= 2 then
      var r := v[..2] + "/" + v[2..Min(4, |v|)];
      assert Digits(r) == v[..Min(|v|, 4)] by {
        DigitsAppend(v[..2] + "/", v[2..Min(4, |v|)]);
        DigitsAppend(v[..2], "/");
        assert Digits("/") == [];
        assert v[..2] + [] == v[..2];
        DigitsOfDigits(v[..2]);
        DigitsOfDigits(v[2..Min(4, |v|)]);
        assert v[..2] + v[2..Min(4, |v|)] == v[..Min(|v|, 4)];
      }
      r
    else v
  }

  lemma ExpiryFormatIdempotent(value: string)
    ensures ExpiryFormat(ExpiryFormat(value)) == ExpiryFormat(value)
  {
    var v := Digits(value);
    var r := ExpiryFormat(value);
    if |v| >= 2 {
      var w := v[..Min(|v|, 4)];
      assert Digits(r) == w;
      assert w[..2] == v[..2] && w[2..Min(4, |w|)] == v[2..Min(4, |v|)];
    } else {
      DigitsOfDigits(v);
    }
  }

  /**
   * `handleSubmit` once the payment delay has passed: nothing without a
   * pending booking, else the booking re-added as confirmed and the
   * confirmation view.
   */
  function SubmitPayment(s: AppState): (actions: seq<Action>)
    ensures s.currentBooking.None? <==> actions == []
    ensures s.currentBooking.Some? ==>
      && |actions| == 2
      && actions[0].AddBooking?
      && actions[0].added == s.currentBooking.value.(status := Confirmed)
      && actions[1] == SetCurrentView("confirmation")
  {
    match s.currentBooking
    case None => []
    case Some(b) => [AddBooking(b.(status := Confirmed)), SetCurrentView("confirmation")]
  }

  /**
   * After paying, the bookings list ends with the pending booking marked
   * confirmed, the view is the confirmation, and the pending booking itself
   * is still there, still pending.
   */
  lemma PaymentConfirms(s: Snapshot)
    requires s.state.currentBooking.Some?
    requires s.state.user.None? || StoredBookings(s.storage, BookingsKey(s.state.user.value.id)).Some?
    ensures var r := RunAll(s, SubmitPayment(s.state));
      var b := s.state.currentBooking.value;
      && r.state.bookings == s.state.bookings + [b.(status := Confirmed)]
      && r.state.bookings[|r.state.bookings| - 1].status == Confirmed
      && r.state.bookings[|r.state.bookings| - 1].id == b.id
      && r.state.currentView == "confirmation"
      && r.state.currentBooking == s.state.currentBooking
      && r.state.user == s.state.user
  {
    var b := s.state.currentBooking.value;
    AddBookingAppends(s, b.(status := Confirmed));
    RunAllTwo(s, AddBooking(b.(status := Confirmed)), SetCurrentView("confirmation"));
  }

  /**
   * The booking form's submit followed by payment: the bookings grow by one
   * confirmed booking of the selected flight that carries the form's
   * passengers and infants and the stored seats.
   */
  lemma BookThenPay(s: Snapshot, passengers: seq<Passenger>, infants: seq<Infant>,
                    bookingId: string, reference: string, createdAt: string)
    requires s.state.selectedFlight.Some?
    requires s.state.user.None? || StoredBookings(s.storage, BookingsKey(s.state.user.value.id)).Some?
    ensures var s1 := RunAll(s, BookingForm.SubmitBooking(s.state, passengers, infants, bookingId, reference, createdAt));
      var s2 := RunAll(s1, SubmitPayment(s1.state));
      && |s2.state.bookings| == |s.state.bookings| + 1
      && s2.state.bookings[..|s.state.bookings|] == s.state.bookings
      && (var last := s2.state.bookings[|s.state.bookings|];
          && last.status == Confirmed && last.flight == s.state.selectedFlight.value
          && last.passengers == passengers && last.infants == infants
          && last.seats == s.state.selectedSeats)
      && s2.state.currentView == "confirmation"
  {
    var acts := BookingForm.SubmitBooking(s.state, passengers, infants, bookingId, reference, createdAt);
    assert acts == [acts[0], acts[1]];
    RunAllTwo(s, acts[0], acts[1]);
    var s1 := RunAll(s, acts);
    PaymentConfirms(s1);
  }
}
