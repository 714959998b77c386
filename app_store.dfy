/**
 * The application store (src/context/AppContext.tsx): one state record, a
 * reducer over nine tagged actions that also writes through to the browser's
 * key-value storage, and the start-up routine that rehydrates the session
 * from storage and seeds the demo account.
 */
module AppStore {
  import opened Types

  const CurrentUserKey: string := "skyways_current_user"
  const UsersKey: string := "skyways_users"
  const BookingsKeyPrefix: string := "skyways_bookings_"

  function BookingsKey(userId: string): (k: string)
    ensures k != CurrentUserKey && k != UsersKey
  {
    assert (BookingsKeyPrefix + userId)[8] == 'b' && CurrentUserKey[8] == 'c' && UsersKey[8] == 'u';
    BookingsKeyPrefix + userId
  }

  /**
   * A stored value, as the JSON text under a key parses. `Unreadable` stands
   * for text JSON.parse rejects, and for a value of another shape than the
   * reader expects.
   */
  datatype Value =
    | UserRecord(user: User)
    | UserList(users: seq<StoredUser>)
    | BookingList(bookings: seq<Booking>)
    | Unreadable

  type Storage = map<string, Value>

  datatype AppState = AppState(
    user: Option<User>,
    searchFilters: SearchFilters,
    searchResults: seq<Flight>,
    selectedFlight: Option<Flight>,
    selectedSeats: seq<Seat>,
    currentBooking: Option<Booking>,
    bookings: seq<Booking>,
    isLoading: bool,
    currentView: string)

  /** The nine actions, plus any other tag a caller might dispatch. */
  datatype Action =
    | SetUser(newUser: Option<User>)
    | SetSearchFilters(filters: SearchFilters)
    | SetSearchResults(results: seq<Flight>)
    | SetSelectedFlight(flight: Option<Flight>)
    | SetSelectedSeats(seats: seq<Seat>)
    | SetCurrentBooking(booking: Option<Booking>)
    | AddBooking(added: Booking)
    | SetLoading(loading: bool)
    | SetCurrentView(view: string)
    | Unrecognised(tag: string)

  /** What a dispatch acts on: the state and the browser storage it writes through to. */
  datatype Snapshot = Snapshot(state: AppState, storage: Storage)

  const InitialFilters: SearchFilters :=
    SearchFilters("", "", "", None, 1, 0, Economy, OneWay)

  const InitialState: AppState :=
    AppState(None, InitialFilters, [], None, [], None, [], false, "search")

  /** The start-up state: signed out, one adult, no infant, economy, one-way, nothing chosen. */
  lemma InitialStateShape()
    ensures InitialState.user.None? && InitialState.currentView == "search"
    ensures InitialState.searchFilters.passengers == 1 && InitialState.searchFilters.infants == 0
    ensures InitialState.searchFilters.travelClass == Economy
    ensures InitialState.searchFilters.tripType == OneWay
    ensures InitialState.searchResults == [] && InitialState.selectedSeats == []
    ensures InitialState.bookings == [] && !InitialState.isLoading
    ensures InitialState.selectedFlight.None? && InitialState.currentBooking.None?
  {
  }

  /** `JSON.parse(localStorage.getItem(key) || '[]')` read as a booking list; None when it throws. */
  function StoredBookings(storage: Storage, key: string): (r: Option<seq<Booking>>)
    ensures key !in storage ==> r == Some([])
    ensures r.Some? && key in storage ==> storage[key] == BookingList(r.value)
  {
    if key !in storage then Some([])
    else match storage[key]
      case BookingList(list) => Some(list)
      case _ => None
  }

  /** `JSON.parse(localStorage.getItem('skyways_users') || '[]')`; None when it throws. */
  function ReadUsers(storage: Storage): (r: Option<seq<StoredUser>>)
    ensures UsersKey !in storage ==> r == Some([])
    ensures r.Some? && UsersKey in storage ==> storage[UsersKey] == UserList(r.value)
  {
    if UsersKey !in storage then Some([])
    else match storage[UsersKey]
      case UserList(list) => Some(list)
      case _ => None
  }

  /**
   * `appReducer` with its storage side effects. An ADD_BOOKING whose stored
   * list cannot be read throws in the source; here that dispatch changes nothing.
   */
  function Reduce(s: Snapshot, a: Action): (r: Snapshot)
    // every action replaces its own field and no other
    ensures !a.SetUser? ==> r.state.user == s.state.user
    ensures !a.SetSearchFilters? ==> r.state.searchFilters == s.state.searchFilters
    ensures !a.SetSearchResults? ==> r.state.searchResults == s.state.searchResults
    ensures !a.SetSelectedFlight? ==> r.state.selectedFlight == s.state.selectedFlight
    ensures !a.SetSelectedSeats? ==> r.state.selectedSeats == s.state.selectedSeats
    ensures !a.SetCurrentBooking? ==> r.state.currentBooking == s.state.currentBooking
    ensures !a.AddBooking? ==> r.state.bookings == s.state.bookings
    ensures !a.SetLoading? ==> r.state.isLoading == s.state.isLoading
    ensures !a.SetCurrentView? ==> r.state.currentView == s.state.currentView
    ensures a.SetUser? ==> r.state.user == a.newUser
    ensures a.SetSearchFilters? ==> r.state.searchFilters == a.filters
    ensures a.SetSearchResults? ==> r.state.searchResults == a.results
    ensures a.SetSelectedFlight? ==> r.state.selectedFlight == a.flight
    ensures a.SetSelectedSeats? ==> r.state.selectedSeats == a.seats
    ensures a.SetCurrentBooking? ==> r.state.currentBooking == a.booking
    ensures a.SetLoading? ==> r.state.isLoading == a.loading
    ensures a.SetCurrentView? ==> r.state.currentView == a.view
    // only SET_USER and a signed-in ADD_BOOKING touch the storage
    ensures r.storage != s.storage ==> a.SetUser? || (a.AddBooking? && s.state.user.Some?)
    // an unrecognised tag returns the state unchanged
    ensures a.Unrecognised? ==> r == s
  {
    var st := s.state;
    match a
    case SetUser(u) =>
      var storage := if u.Some? then s.storage[CurrentUserKey := UserRecord(u.value)]
                     else s.storage - {CurrentUserKey};
      Snapshot(st.(user := u), storage)
    case SetSearchFilters(f) => Snapshot(st.(searchFilters := f), s.storage)
    case SetSearchResults(fs) => Snapshot(st.(searchResults := fs), s.storage)
    case SetSelectedFlight(f) => Snapshot(st.(selectedFlight := f), s.storage)
    case SetSelectedSeats(seats) => Snapshot(st.(selectedSeats := seats), s.storage)
    case SetCurrentBooking(b) => Snapshot(st.(currentBooking := b), s.storage)
    case AddBooking(b) =>
      if st.user.None? then Snapshot(st.(bookings := st.bookings + [b]), s.storage)
      else
        var key := BookingsKey(st.user.value.id);
        (match StoredBookings(s.storage, key)
         case None => s
         case Some(list) =>
           Snapshot(st.(bookings := st.bookings + [b]), s.storage[key := BookingList(list + [b])]))
    case SetLoading(l) => Snapshot(st.(isLoading := l), s.storage)
    case SetCurrentView(v) => Snapshot(st.(currentView := v), s.storage)
    case Unrecognised(_) => s
  }

  /** SET_USER writes the session key for a user and removes it for null. */
  lemma SetUserWritesSession(s: Snapshot, u: Option<User>)
    ensures var r := Reduce(s, SetUser(u));
      && (u.Some? ==> r.storage == s.storage[CurrentUserKey := UserRecord(u.value)])
      && (u.None? ==> r.storage == s.storage - {CurrentUserKey} && CurrentUserKey !in r.storage)
  {
  }

  /**
   * ADD_BOOKING appends at the end of the state's list; for a signed-in user it
   * also appends to the stored list under that user's key, and touches no other key.
   */
  lemma AddBookingAppends(s: Snapshot, b: Booking)
    requires s.state.user.None? || StoredBookings(s.storage, BookingsKey(s.state.user.value.id)).Some?
    ensures var r := Reduce(s, AddBooking(b));
      && r.state.bookings == s.state.bookings + [b]
      && |r.state.bookings| == |s.state.bookings| + 1
      && (s.state.user.None? ==> r.storage == s.storage)
      && (s.state.user.Some? ==>
            var key := BookingsKey(s.state.user.value.id);
            && key in r.storage
            && r.storage[key] == BookingList(StoredBookings(s.storage, key).value + [b])
            && (forall k :: k != key ==>
                  (k in r.storage <==> k in s.storage) && (k in r.storage ==> r.storage[k] == s.storage[k])))
  {
  }

  /** The effect of a sequence of dispatches, in order. */
  function RunAll(s: Snapshot, actions: seq<Action>): Snapshot
    decreases |actions|
  {
    if actions == [] then s else RunAll(Reduce(s, actions[0]), actions[1..])
  }

  lemma {:induction false} RunAllSnoc(s: Snapshot, actions: seq<Action>, a: Action)
    ensures RunAll(s, actions + [a]) == Reduce(RunAll(s, actions), a)
    decreases |actions|
  {
    if actions == [] {
      assert actions + [a] == [a];
    } else {
      assert (actions + [a])[1..] == actions[1..] + [a];
      RunAllSnoc(Reduce(s, actions[0]), actions[1..], a);
    }
  }

  lemma RunAllTwo(s: Snapshot, a: Action, b: Action)
    ensures RunAll(s, [a, b]) == Reduce(Reduce(s, a), b)
  {
    assert [a, b][1..] == [b];
    assert [b][1..] == [];
    assert RunAll(s, [a, b]) == RunAll(Reduce(s, a), [b]);
    assert RunAll(Reduce(s, a), [b]) == RunAll(Reduce(Reduce(s, a), b), []);
  }

  lemma RunAllThree(s: Snapshot, a: Action, b: Action, c: Action)
    ensures RunAll(s, [a, b, c]) == Reduce(Reduce(Reduce(s, a), b), c)
  {
    assert [a, b, c][1..] == [b, c];
    RunAllTwo(Reduce(s, a), b, c);
  }

  lemma {:induction false} RunAllAppend(s: Snapshot, xs: seq<Action>, ys: seq<Action>)
    ensures RunAll(s, xs + ys) == RunAll(RunAll(s, xs), ys)
    decreases |xs|
  {
    if xs == [] {
      assert xs + ys == ys;
    } else {
      assert (xs + ys)[1..] == xs[1..] + ys;
      RunAllAppend(Reduce(s, xs[0]), xs[1..], ys);
    }
  }

  /** One ADD_BOOKING per booking, in list order (the rehydration `forEach`). */
  function AddAll(bookings: seq<Booking>): (r: seq<Action>)
    ensures |r| == |bookings|
    ensures bookings != [] ==> r[0] == AddBooking(bookings[0])
  {
    if bookings == [] then [] else [AddBooking(bookings[0])] + AddAll(bookings[1..])
  }

  lemma {:induction false} AddAllSnoc(bookings: seq<Booking>, b: Booking)
    ensures AddAll(bookings + [b]) == AddAll(bookings) + [AddBooking(b)]
  {
    if bookings != [] {
      assert (bookings + [b])[1..] == bookings[1..] + [b];
      AddAllSnoc(bookings[1..], b);
    }
  }

  /** One signed-in ADD_BOOKING over a readable stored list, spelled out. */
  lemma SignedInAddBooking(s: Snapshot, b: Booking, stored: seq<Booking>)
    requires s.state.user.Some?
    requires StoredBookings(s.storage, BookingsKey(s.state.user.value.id)) == Some(stored)
    ensures Reduce(s, AddBooking(b)) ==
      Snapshot(s.state.(bookings := s.state.bookings + [b]),
               s.storage[BookingsKey(s.state.user.value.id) := BookingList(stored + [b])])
  {
  }

  /**
   * Replaying bookings through ADD_BOOKING while a user is signed in appends
   * them both to the state and, a second time, to that user's stored list.
   */
  lemma {:induction false} ReplayAppendsTwice(s: Snapshot, replayed: seq<Booking>, stored: seq<Booking>)
    requires s.state.user.Some?
    requires StoredBookings(s.storage, BookingsKey(s.state.user.value.id)) == Some(stored)
    ensures var r := RunAll(s, AddAll(replayed));
      && r.state == s.state.(bookings := s.state.bookings + replayed)
      && StoredBookings(r.storage, BookingsKey(s.state.user.value.id)) == Some(stored + replayed)
      && r.storage - {BookingsKey(s.state.user.value.id)} == s.storage - {BookingsKey(s.state.user.value.id)}
    decreases |replayed|
  {
    if replayed == [] {
      assert s.state.bookings + replayed == s.state.bookings;
      assert stored + replayed == stored;
    } else {
      var init := replayed[..|replayed| - 1];
      var b := replayed[|replayed| - 1];
      assert replayed == init + [b];
      ReplayAppendsTwice(s, init, stored);
      AddAllSnoc(init, b);
      RunAllSnoc(s, AddAll(init), AddBooking(b));
      SignedInAddBooking(RunAll(s, AddAll(init)), b, stored + init);
      assert s.state.bookings + init + [b] == s.state.bookings + replayed;
      assert stored + init + [b] == stored + replayed;
    }
  }


  /**
   * The start-up rehydration: sign the saved user in, then replay that
   * user's saved bookings. Without a readable saved user nothing changes;
   * with one, the user is signed in and the saved bookings are appended to
   * the state and, a second time, to the stored list.
   */
  function Rehydrate(s: Snapshot): (r: Snapshot)
    ensures !(CurrentUserKey in s.storage && s.storage[CurrentUserKey].UserRecord?) ==> r == s
    ensures CurrentUserKey in s.storage && s.storage[CurrentUserKey].UserRecord? ==>
      var u := s.storage[CurrentUserKey].user;
      var saved := StoredBookings(s.storage, BookingsKey(u.id));
      && r.state.user == Some(u)
      && r.state.(user := s.state.user, bookings := s.state.bookings) == s.state
      && r.storage - {CurrentUserKey, BookingsKey(u.id)} == s.storage - {CurrentUserKey, BookingsKey(u.id)}
      && (saved.Some? ==> r.state.bookings == s.state.bookings + saved.value
                          && StoredBookings(r.storage, BookingsKey(u.id)) == Some(saved.value + saved.value))
      && (saved.None? ==> r.state.bookings == s.state.bookings)
  {
    if CurrentUserKey in s.storage && s.storage[CurrentUserKey].UserRecord? then
      var u := s.storage[CurrentUserKey].user;
      var signedIn := Reduce(s, SetUser(Some(u)));
      var key := BookingsKey(u.id);
      if key in s.storage && s.storage[key].BookingList? then
        var saved := s.storage[key].bookings;
        assert StoredBookings(signedIn.storage, key) == Some(saved);
        ReplayAppendsTwice(signedIn, saved, saved);
        var r := RunAll(signedIn, AddAll(saved));
        FrameTwo(r.storage, signedIn.storage, s.storage, CurrentUserKey, key);
        r
      else
        var none: seq<Booking> := [];
        assert s.state.bookings + none == s.state.bookings && none + none == none;
        FrameTwo(signedIn.storage, signedIn.storage, s.storage, CurrentUserKey, key);
        signedIn
    else s
  }

  /** Two writes, each to its own key, leave every other key as it was. */
  lemma FrameTwo(r: Storage, mid: Storage, s: Storage, k1: string, k2: string)
    requires r - {k2} == mid - {k2}
    requires mid - {k1} == s - {k1}
    ensures r - {k1, k2} == s - {k1, k2}
  {
    assert r - {k1, k2} == (r - {k2}) - {k1};
    assert (mid - {k2}) - {k1} == (mid - {k1}) - {k2};
    assert s - {k1, k2} == (s - {k1}) - {k2};
  }

  /**
   * The rehydration defect: starting from the initial state with a saved user
   * and n saved bookings, the state ends up with those n bookings while the
   * stored list has grown to the same n bookings twice over.
   */
  lemma RehydrationDuplicatesStoredBookings(storage: Storage, u: User, saved: seq<Booking>)
    requires CurrentUserKey in storage && storage[CurrentUserKey] == UserRecord(u)
    requires BookingsKey(u.id) in storage && storage[BookingsKey(u.id)] == BookingList(saved)
    ensures var r := Rehydrate(Snapshot(InitialState, storage));
      && r.state.user == Some(u)
      && r.state.bookings == saved
      && StoredBookings(r.storage, BookingsKey(u.id)) == Some(saved + saved)
      && |saved + saved| == 2 * |saved|
  {
    var s := Snapshot(InitialState, storage);
    var signedIn := Reduce(s, SetUser(Some(u)));
    assert StoredBookings(signedIn.storage, BookingsKey(u.id)) == Some(saved);
    ReplayAppendsTwice(signedIn, saved, saved);
    assert [] + saved == saved;
  }

  const DemoEmail: string := "demo@skyways.com"

  function DemoAccount(now: string): (u: StoredUser)
    ensures u.email == DemoEmail
  {
    StoredUser("demo-user-123", DemoEmail, "demo123", "Demo", "User", "+91 98765 43210", "1990-01-01", now)
  }

  predicate HasEmail(users: seq<StoredUser>, email: string)
  {
    exists i :: 0 <= i < |users| && users[i].email == email
  }

  /** Demo seeding: append the demo account unless some stored account already has its email. */
  function SeedDemo(storage: Storage, now: string): (r: Storage)
    ensures ReadUsers(storage).None? ==> r == storage
    ensures ReadUsers(storage).Some? ==>
      var users := ReadUsers(storage).value;
      && ReadUsers(r).Some?
      && HasEmail(ReadUsers(r).value, DemoEmail)
      && (HasEmail(users, DemoEmail) <==> r == storage)
      && (!HasEmail(users, DemoEmail) ==> ReadUsers(r).value == users + [DemoAccount(now)])
    ensures forall k :: k != UsersKey ==> (k in r <==> k in storage) && (k in r ==> r[k] == storage[k])
  {
    match ReadUsers(storage)
    case None => storage
    case Some(users) =>
      if HasEmail(users, DemoEmail) then storage
      else
        var seeded := users + [DemoAccount(now)];
        assert seeded[|users|].email == DemoEmail;
        storage[UsersKey := UserList(seeded)]
  }

  /** Seeding twice adds the demo account once. */
  lemma SeedDemoIdempotent(storage: Storage, now: string, later: string)
    ensures SeedDemo(SeedDemo(storage, now), later) == SeedDemo(storage, now)
  {
  }

  /**
   * The whole start-up effect: rehydration, then demo seeding, which leaves
   * the rehydrated state and every key but the account list as they were.
   */
  function StartUp(s: Snapshot, now: string): (r: Snapshot)
    ensures r.state == Rehydrate(s).state
    ensures forall k :: k != UsersKey ==>
      (k in r.storage <==> k in Rehydrate(s).storage) && (k in r.storage ==> r.storage[k] == Rehydrate(s).storage[k])
    ensures ReadUsers(Rehydrate(s).storage).Some? ==>
      ReadUsers(r.storage).Some? && HasEmail(ReadUsers(r.storage).value, DemoEmail)
  {
    var r := Rehydrate(s);
    Snapshot(r.state, SeedDemo(r.storage, now))
  }

  /**
   * A start with a saved session: the saved user is signed in with their
   * saved bookings, the stored list holds those bookings twice, and a
   * readable account list ends up holding the demo account.
   */
  lemma StartUpFromSavedSession(storage: Storage, u: User, saved: seq<Booking>, now: string)
    requires CurrentUserKey in storage && storage[CurrentUserKey] == UserRecord(u)
    requires BookingsKey(u.id) in storage && storage[BookingsKey(u.id)] == BookingList(saved)
    ensures var r := StartUp(Snapshot(InitialState, storage), now);
      && r.state.user == Some(u)
      && r.state.bookings == saved
      && StoredBookings(r.storage, BookingsKey(u.id)) == Some(saved + saved)
      && (ReadUsers(r.storage).Some? ==> HasEmail(ReadUsers(r.storage).value, DemoEmail))
  {
    RehydrationDuplicatesStoredBookings(storage, u, saved);
  }

  /** "Book another flight": back to search with the flight, seats and pending booking cleared. */
  lemma NewSearchResets(s: Snapshot)
    ensures var r := RunAll(s, [SetCurrentView("search"), SetSelectedFlight(None),
                                SetSelectedSeats([]), SetCurrentBooking(None)]);
      && r.state == s.state.(currentView := "search", selectedFlight := None,
                             selectedSeats := [], currentBooking := None)
      && r.storage == s.storage
  {
  }

  /** The running store: the reducer's state and the browser storage it writes to. */
  class App {
    var state: AppState
    var storage: Storage

    constructor (saved: Storage)
      ensures state == InitialState && storage == saved
    {
      state := InitialState;
      storage := saved;
    }

    function Current(): Snapshot
      reads this
    {
      Snapshot(state, storage)
    }

    method Dispatch(a: Action)
      modifies this
      ensures Current() == Reduce(old(Current()), a)
    {
      var r := Reduce(Current(), a);
      state, storage := r.state, r.storage;
    }

    /** The provider's mount effect: rehydrate the session, then seed the demo account. */
    method Start(now: string)
      modifies this
      ensures Current() == StartUp(old(Current()), now)
    {
      ghost var s0 := Current();
      if CurrentUserKey in storage && storage[CurrentUserKey].UserRecord? {
        var u := storage[CurrentUserKey].user;
        var key := BookingsKey(u.id);
        var saved := storage;
        Dispatch(SetUser(Some(u)));
        if key in saved && saved[key].BookingList? {
          var list := saved[key].bookings;
          ghost var signedIn := Current();
          var i := 0;
          while i < |list|
            invariant 0 <= i <= |list|
            invariant Current() == RunAll(signedIn, AddAll(list[..i]))
          {
            Dispatch(AddBooking(list[i]));
            assert list[..i + 1] == list[..i] + [list[i]];
            AddAllSnoc(list[..i], list[i]);
            RunAllSnoc(signedIn, AddAll(list[..i]), AddBooking(list[i]));
            i := i + 1;
          }
          assert list[..|list|] == list;
        }
      }
      assert Current() == Rehydrate(s0);
      var users := ReadUsers(storage);
      if users.Some? {
        var list := users.value;
        var demoExists := HasEmail(list, DemoEmail);
        if !demoExists {
          list := list + [DemoAccount(now)];
          storage := storage[UsersKey := UserList(list)];
        }
      }
    }
  }
}
