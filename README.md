# SkyWays booking flow in Dafny

A model of the client-side core of the SkyWays airline-reservation demo, a
React/TypeScript single-page app. The app lets a traveller sign in, search a
route, filter and sort the generated flights, pick seats, enter passenger
details, pay, and then optionally add a hotel and a cab. Everything runs in
the browser against mock data. The only persistence is `localStorage`: the
session user, the account list and one booking list per user.

The model has one Dafny module per source file:

- `AppStore`: the reducer, the storage writes, start-up rehydration and demo seeding, and the running store.
- `AppRouter`: the view switch.
- `FlightData` and `HotelData`: the mock generators.
- One module per screen component.
- `Types`: the shared records.
- `Text`: the string operations the source relies on (`toLowerCase`, `trim`, `includes`, digit filtering, decimal printing).

The modelling choices:

- **State:** component state cells and the store are classes whose methods update their fields.
- **Data and dispatches:** the generators and pure handlers are functions. A handler that only dispatches returns the list of actions it dispatches, and `RunAll` replays such a list through the reducer.
- **Randomness:** every `Math.random()` draw is an explicit real in `[0, 1)` passed in by the caller.
- **Storage:** browser storage is a map from keys to stored values. A value of the wrong shape stands for JSON that does not parse.
- **Time:** flight times are minutes from a fixed epoch, and hotel dates are day numbers.

Where the behaviour the app is meant to have and the code differ, the model
follows the code:

- Reloading a signed-in session replays the saved bookings through `ADD_BOOKING`, which also writes them back. The stored list therefore doubles on every reload, while the state holds each booking once. This is modelled as written and proved in `AppStore.RehydrationDuplicatesStoredBookings`.
- The duration sort and the sign-up duplicate check behave differently from what their authors evidently intended. The screen and dialog members model them as written. A corrected version sits beside each (`SortKey.ByMinutes`, `SignIn.CorrectedSubmitOutcome`). See "## Findings".

## Model

| member | source | states |
|---|---|---|
| AppStore.BookingsKey | src/context/AppContext.tsx:75-79 | a user's booking key never collides with the session key or the account-list key |
| AppStore.InitialStateShape | src/context/AppContext.tsx:27-45 | the store starts signed out, on the search view, with one adult, no infants, economy, one-way, and empty results, seats and bookings |
| AppStore.StoredBookings | src/context/AppContext.tsx:75-79 | a missing key reads as an empty list; a readable stored list is read back as exactly what was stored |
| AppStore.ReadUsers | src/context/AppContext.tsx:117 | a missing account list reads as empty; a readable one is read back as stored |
| AppStore.Reduce | src/context/AppContext.tsx:52-88 | every action replaces its own field of the state and no other; only SET_USER, and ADD_BOOKING while signed in, touch storage; an unknown action changes nothing |
| AppStore.SetUserWritesSession | src/context/AppContext.tsx:54-61 | signing in stores the user under the session key; signing out removes that key |
| AppStore.AddBookingAppends | src/context/AppContext.tsx:72-80 | ADD_BOOKING appends the booking to the state; when signed in, it also appends it to that user's stored list and leaves every other key alone |
| AppStore.SignedInAddBooking | src/context/AppContext.tsx:72-80 | the whole new snapshot of a signed-in ADD_BOOKING: state list and stored list both extended by the booking |
| AppStore.RunAllAppend | src/context/AppContext.tsx:52-88 | replaying two dispatch lists one after the other equals replaying their concatenation |
| AppStore.ReplayAppendsTwice | src/context/AppContext.tsx:107-109 | replaying n bookings for a signed-in user appends them to the state's bookings and to the stored list that already holds the saved ones; every other state field and every other key stay as they were |
| AppStore.Rehydrate | src/context/AppContext.tsx:96-114 | without a readable saved user nothing changes; with one, the user is restored and the saved bookings are appended to the state, while the stored list becomes the saved list twice over (a missing list leaves the bookings alone); every other state field and every key but the session key and that user's booking key stay as they were |
| AppStore.RehydrationDuplicatesStoredBookings | src/context/AppContext.tsx:96-114 | rehydrating a saved session restores the user and the saved bookings into the state, while the stored list becomes the saved bookings twice over |
| AppStore.DemoAccount | src/context/AppContext.tsx:121-130 | the seeded account carries the demo email |
| AppStore.SeedDemo | src/context/AppContext.tsx:116-134 | the demo account is appended exactly when no stored account has its email; afterwards a readable account list always holds it; an unreadable list and every other key are untouched |
| AppStore.SeedDemoIdempotent | src/context/AppContext.tsx:116-134 | seeding twice, at any times, stores the same as seeding once |
| AppStore.StartUp | src/context/AppContext.tsx:94-135 | the mount effect leaves the state as rehydration makes it, touches no key but the account list, and a readable account list then holds the demo account |
| AppStore.StartUpFromSavedSession | src/context/AppContext.tsx:94-135 | the whole mount effect on a saved session: the user and saved bookings are restored, the stored list is doubled, and a readable account list holds the demo account |
| AppStore.NewSearchResets | src/components/BookingConfirmation.tsx:11-16 | "book another flight" goes back to search with flight, seats and pending booking cleared; everything else and storage are unchanged |
| AppStore.App.constructor | src/context/AppContext.tsx:90-91 | the provider starts from the initial state over the saved storage |
| AppStore.App.Dispatch | src/context/AppContext.tsx:52-88 | the store's state and storage become the reducer's result for the action |
| AppStore.App.Start | src/context/AppContext.tsx:94-135 | the mount effect, with its rehydration loop, leaves the store as rehydration followed by demo seeding (see StartUpFromSavedSession for what that means) |
| AppRouter.RenderView | src/App.tsx:19-61 | each named tag shows its screen, `bookings` and `history` share the bookings screen, and any other tag falls back to the search screen |
| AppRouter.NamedViewsDistinct | src/App.tsx:21-49 | two different named tags show different screens, except the `bookings`/`history` pair |
| AppRouter.OnlySearchShowsSearch | src/App.tsx:21-59 | among the named tags, only `search` shows the search screen |
| AppRouter.PackageConfirmationShowsSearch | src/components/TravelPackage.tsx:41 | the tag set by the package screen's last button has no case and so shows the search screen |
| AppRouter.StartsOnSearch | src/context/AppContext.tsx:27-45 | the initial state renders the search screen |
| BookingForm.InitialPassengers | src/components/BookingForm.tsx:10-22 | one blank adult titled `Mr` per searched passenger (none for a negative count), ids `passenger-1` onwards, names, birth date and passport empty; only the first carries the user's email and phone |
| BookingForm.PassengerIdsDistinct | src/components/BookingForm.tsx:10-22 | the initial passenger ids are pairwise distinct |
| BookingForm.InitialInfants | src/components/BookingForm.tsx:24-32 | one blank infant per searched infant (none for a negative count), names and birth date empty, each attached to `passenger-1` |
| BookingForm.WithPassengerField | src/components/BookingForm.tsx:48-52 | editing one field of a passenger sets that field and leaves every other field and the passenger type as they were |
| BookingForm.WithInfantField | src/components/BookingForm.tsx:54-58 | editing one field of an infant sets that field and leaves the others |
| BookingForm.TotalPrice | src/components/BookingForm.tsx:95-100 | the total is the class fare per adult, plus the seat surcharges, plus a tenth of the fare per infant |
| BookingForm.TotalMatchesSeatScreen | src/components/BookingForm.tsx:95-100 | without infants, the booking total equals the seat screen's total for the stored seats |
| BookingForm.InfantAddsTenth | src/components/BookingForm.tsx:98 | one more infant adds exactly a tenth of the class fare |
| BookingForm.IsFormValid | src/components/BookingForm.tsx:102-114 | the form is valid iff every passenger has names, birth date and email (and a passport on an international flight), every infant has names and birth date, and contact email and phone are set |
| BookingForm.PassportOnlyAbroad | src/components/BookingForm.tsx:69-72 | without a selected flight the form is never treated as international; on an international flight any passenger with an empty passport makes the form invalid; otherwise editing a passport never changes validity |
| BookingForm.FreshFormInvalid | src/components/BookingForm.tsx:10-22 | a freshly opened form with at least one passenger cannot be submitted |
| BookingForm.SubmitBooking | src/components/BookingForm.tsx:74-93 | no flight means no dispatch; otherwise a pending booking of the form's travellers, the stored seats and the current total, then the payment view |
| BookingForm.TravellerForm.constructor | src/components/BookingForm.tsx:10-32 | the form opens with the initial passenger and infant lists |
| BookingForm.TravellerForm.UpdatePassenger | src/components/BookingForm.tsx:48-52 | only the named field of the passenger at that index changes; the list length and the infants are kept |
| BookingForm.TravellerForm.UpdateInfant | src/components/BookingForm.tsx:54-58 | only the named field of the infant at that index changes; the passengers are kept |
| BookingsList.Keep | src/components/BookingsList.tsx:34-45 | a booking is kept iff it is in the list and passes the tab's test |
| BookingsList.FilterBookings | src/components/BookingsList.tsx:34-45 | the `all` tab lists everything; the others list exactly the bookings their test accepts |
| BookingsList.FilterIsSubsequence | src/components/BookingsList.tsx:34-45 | every tab keeps the bookings in the order they were made |
| BookingsList.TabsPartition | src/components/BookingsList.tsx:36-41 | the upcoming, past and cancelled tabs together hold every booking exactly as often as the list does |
| BookingsList.ExactlyOneTab | src/components/BookingsList.tsx:30-41 | each booking is on exactly one of the three filtering tabs |
| BookingsList.StatusBadge | src/components/BookingsList.tsx:49-59 | cancelled first, then upcoming if the flight is still ahead, else completed |
| BookingsList.BadgeMatchesTab | src/components/BookingsList.tsx:30-59 | the badge names the tab on which the booking is listed |
| BookingsList.ShowsTripActions | src/components/BookingsList.tsx:208 | check-in and cancel show only for confirmed bookings still ahead, which always carry the upcoming badge |
| CabBooking.OrDefault | src/components/CabBooking.tsx:39 | typed text wins over the placeholder when it is not empty |
| CabBooking.PickupLocation | src/components/CabBooking.tsx:34-45 | the arrival airport's name for an airport pickup, else the typed pickup or its placeholder |
| CabBooking.DropLocation | src/components/CabBooking.tsx:47-58 | the departure airport's name for an airport drop, else the typed drop or its placeholder |
| CabBooking.AirportTransferDistance | src/components/CabBooking.tsx:60-62 | an airport pickup or drop whose airport name ends in `Airport` is priced as a 15-44 km trip |
| CabBooking.PlainTransferDistance | src/components/CabBooking.tsx:60-62 | a hotel transfer between typed places that mention neither an airport nor a hotel is priced at the flat 15 km |
| CabBooking.CabPage.constructor | src/components/CabBooking.tsx:9-15 | the page opens on airport pickup with no service, no typed places, the searched passenger count and the form closed |
| CabBooking.CabPage.Estimate | src/components/CabBooking.tsx:60-62 | the estimate for this page's pickup and drop; its fare is the base price plus distance times the per-km rate |
| CabBooking.CabPage.ServiceSelect | src/components/CabBooking.tsx:64-67 | remembers the service and opens the form; nothing else changes |
| CabBooking.CabPage.Back | src/components/CabBooking.tsx:17-24 | from the form, closes it and forgets the service; from the list, goes back to the hotel view |
| CabBooking.BookCab | src/components/CabBooking.tsx:69-72 | booking goes on to the package summary |
| CabBooking.SkipCab | src/components/CabBooking.tsx:424 | skipping goes to the same place as booking |
| FlightCard.LowestPriceIsAFare | src/components/FlightCard.tsx:38-40 | the lowest price shown is one of the four class fares and no fare is lower |
| FlightCard.ButtonFor | src/components/FlightCard.tsx:224-232 | the select button is disabled exactly for a sold-out class, and otherwise shows the class fare times the passenger count |
| FlightCard.SelectFlightActions | src/components/FlightCard.tsx:47-55 | selecting dispatches the filters with only the class replaced, the flight, then the seat view |
| FlightCard.SelectingOpensSeatMap | src/components/FlightCard.tsx:47-55 | after selecting, the store holds the flight, the seat view and the chosen class; other filters, seats, bookings and storage are unchanged |
| FlightCard.CardState.constructor | src/components/FlightCard.tsx:12 | the card starts on the searched class |
| FlightCard.CardState.PickClass | src/components/FlightCard.tsx:151-152 | clicking a class with seats left picks it; a disabled class changes nothing |
| FlightCard.CardState.Select | src/components/FlightCard.tsx:224-226 | the select button dispatches nothing while the picked class is sold out, and the selection actions otherwise |
| FlightCard.PickedClassAvailable | src/components/FlightCard.tsx:85-87 | after any series of clicks, the picked class still has seats, when the searched one had |
| FlightData.FindAirport | src/data/mockData.ts:49-50 | finds the table's airport with that code, and fails exactly when no airport has it |
| FlightData.AirlinePool | src/data/mockData.ts:37-38 | ten international carriers, six domestic ones |
| FlightData.Lookup | src/data/mockData.ts:113-117 | a route key is found iff the price table lists it, and then with that table row's prices |
| FlightData.LookupIncreasing | src/data/mockData.ts:78-111 | every listed route's prices rise strictly from economy to first |
| FlightData.ReverseMarkup | src/data/mockData.ts:119-129 | the reverse route adds 500, 1000, 2000 and 3000 per class and keeps the prices strictly increasing |
| FlightData.PriceRuleFor | src/data/mockData.ts:113-169 | the exact entry is chosen iff the route is listed in its table; an unlisted domestic route falls to the domestic default; the reverse entry is chosen iff an international route is unlisted and its reverse is listed |
| FlightData.BasePrices | src/data/mockData.ts:70-170 | the base fares of every route, however resolved, rise strictly from economy to first |
| FlightData.BasePricesResolution | src/data/mockData.ts:113-169 | an exact route wins; an international route with only its reverse listed gets the marked-up reverse; an unlisted domestic route gets the domestic default; otherwise an international route touching Dubai gets the Gulf fares, then South-East Asia, then Europe, then New York, then the generic international fares, in that order |
| FlightData.ReverseRouteCostsMore | src/data/mockData.ts:119-129 | a route priced from its reverse costs more than the reverse in every class |
| FlightData.Round | src/data/mockData.ts:240-243 | `Math.round` lands within half a unit of its argument |
| FlightData.RoundMonotone | src/data/mockData.ts:240-243 | rounding never reverses the order of two amounts |
| FlightData.FlightCount | src/data/mockData.ts:176 | between 8 and 12 flights |
| FlightData.AirlineCode | src/data/mockData.ts:184-199 | the flight-number prefix is at most two characters |
| FlightData.BaseDuration | src/data/mockData.ts:208-210 | 3 to 9 hours international, 1.5 to 4 hours domestic |
| FlightData.DurationHours | src/data/mockData.ts:212 | whole hours between 1 and 8 |
| FlightData.DurationMinutes | src/data/mockData.ts:213 | the rounded minutes part is at most 60 |
| FlightData.MinutesCanReachSixty | src/data/mockData.ts:212-213 | the rounded minutes part does reach 60 for some draw, so a duration text like `1h 60m` occurs |
| FlightData.Stops | src/data/mockData.ts:226-228 | at most two stops international, one domestic; non-stop exactly when the first draw is under 0.6 or 0.8 |
| FlightData.PriceMultiplier | src/data/mockData.ts:223 | the fare multiplier lies in [0.8, 1.3) |
| FlightData.ScalePrices | src/data/mockData.ts:239-244 | scaling strictly increasing base fares by one positive multiplier keeps the classes ordered |
| FlightData.DepartureHour | src/data/mockData.ts:204 | departures fall between 5:00 and 22:59 |
| FlightData.MakeFlight | src/data/mockData.ts:179-255 | the i-th flight gets the round-robin airline and aircraft, the route's airports and id, ordered class fares, a departure in its hour, an arrival at least an hour later, the stop bound and the seat-count ranges |
| FlightData.GenerateFlightsForRoute | src/data/mockData.ts:42-268 | an unknown airport yields no flights; otherwise 8 to 12 flights with distinct ids, the i-th built from the route's base fares and the i-th draw |
| FlightData.BuildFlights | src/data/mockData.ts:179-264 | the generation loop produces exactly count flights, the i-th from the i-th draw, with distinct ids |
| FlightData.FlightIdsDistinct | src/data/mockData.ts:231 | two flights of one search have different ids |
| FlightData.CabinForRow | src/data/mockData.ts:297 | rows 1-4 first, 5-12 business, 13-20 premium, the rest economy |
| FlightData.CabinBasePrice | src/data/mockData.ts:298 | the seat surcharge base is 2500, 1500, 800 or 0 |
| FlightData.MakeSeat | src/data/mockData.ts:296-307 | a seat's cabin follows its row, its price lies in its cabin's 500-wide band, its id is the flight id and seat number, it starts unselected, and it is free exactly when the draw exceeds 0.25 |
| FlightData.GenerateSeats | src/data/mockData.ts:289-311 | exactly 210 seats, the k-th in row k/6+1 and letter k%6 |
| FlightData.SeatBands | src/data/mockData.ts:291-297 | the grid has 24 first, 48 business, 48 premium and 90 economy seats, in that order |
| HotelBooking.CalculateNights | src/components/HotelBooking.tsx:51-57 | zero unless both dates are set, else the whole days between them, either way round |
| HotelBooking.NightsSymmetric | src/components/HotelBooking.tsx:55 | swapping the dates gives the same number of nights |
| HotelBooking.RoomTotalPerNight | src/components/HotelBooking.tsx:59-61 | no nights cost nothing, and each extra night adds one nightly price |
| HotelBooking.ListedRooms | src/components/HotelBooking.tsx:307 | a room is listed iff it is available and sleeps the guest count |
| HotelBooking.ListedRoomsInOrder | src/components/HotelBooking.tsx:307 | the listed rooms keep the hotel's room order |
| HotelBooking.SomeRoomForThree | src/components/HotelBooking.tsx:307 | a generated hotel always lists a room for up to three guests |
| HotelBooking.DefaultDates | src/components/HotelBooking.tsx:23-29 | check-in is the arrival day and check-out two days later |
| HotelBooking.DefaultStayTwoNights | src/components/HotelBooking.tsx:23-29 | the default stay is two nights and costs two nightly prices |
| HotelBooking.HotelPage.constructor | src/components/HotelBooking.tsx:9-15 | no hotels, no selection, no dates, two guests, form closed |
| HotelBooking.HotelPage.Load | src/components/HotelBooking.tsx:17-31 | with a selected flight, the destination's hotels and the default stay; without one, nothing changes |
| HotelBooking.HotelPage.RoomSelect | src/components/HotelBooking.tsx:63-67 | remembers hotel and room and opens the form; the list, dates and guests are kept |
| HotelBooking.HotelPage.Back | src/components/HotelBooking.tsx:33-41 | from the form, closes it and forgets hotel and room; from the list, goes back to the confirmation view |
| HotelBooking.HotelPage.SelectedTotal | src/components/HotelBooking.tsx:59-61 | the selected room's nightly price times the nights, and nothing without a room |
| HotelBooking.BookHotel | src/components/HotelBooking.tsx:69-72 | booking goes on to the cab view |
| HotelData.CityHotels | src/data/hotelData.ts:4-155 | the table has hotels for a city code exactly when it is one of the listed cities |
| HotelData.BaseHotels | src/data/hotelData.ts:157-172 | four hotels for a listed city, else the two fallback hotels, all with table ratings |
| HotelData.GetCityName | src/data/hotelData.ts:256-274 | a listed code gets its city name; any other gets `City`, and only then |
| HotelData.HotelCitiesAreNamed | src/data/hotelData.ts:177-178 | every city with listed hotels has a real name in the city table |
| HotelData.GenerateRoomsForHotel | src/data/hotelData.ts:201-254 | standard, deluxe, suite, luxury, in that order, with their occupancies and rating-based prices; the first two are always available, the suite iff its draw exceeds 0.3, the luxury iff its draw exceeds 0.6 |
| HotelData.RoomsAscend | src/data/hotelData.ts:205-252 | each room type sleeps more and costs at least as much as the one before |
| HotelData.HalfStarPrices | src/data/hotelData.ts:202-249 | for half-star ratings the rounded nightly prices are exact multiples: 800, 1200, 1800 and 3000 per half star |
| HotelData.MakeHotel | src/data/hotelData.ts:174-198 | a hotel keeps its seed's name, rating, description and distances, gets its id and city name, its generated rooms, 100-1099 reviews and an average within 0.2 of its rating |
| HotelData.GenerateHotelsForCity | src/data/hotelData.ts:3-199 | four hotels for a listed city and two otherwise, the i-th made from the i-th seed and draw |
| HotelData.HotelIdsDistinct | src/data/hotelData.ts:175 | hotels of one city have different ids |
| HotelData.Ceil | src/data/hotelData.ts:342 | `Math.ceil` is the least integer not below its argument |
| HotelData.TripDistance | src/data/hotelData.ts:333-339 | 15-44 km when either end mentions an airport, else 5-24 km when either mentions a hotel, else 15 km |
| HotelData.EstimateCab | src/data/hotelData.ts:327-348 | the fare is base price plus distance times the per-km rate, and the duration text is twice the distance in minutes |
| HotelData.CabFareOrder | src/data/hotelData.ts:276-325 | for one trip, economy is the cheapest service and luxury the dearest, with premium and SUV between |
| HotelData.AirportFareBounds | src/data/hotelData.ts:333-341 | an airport trip costs between base plus 15 and base plus 44 per-km rates |
| PaymentForm.FormatCardNumber | src/components/PaymentForm.tsx:53-66 | the loop computes the specification `CardFormat` of the typed text |
| PaymentForm.CardFormatShape | src/components/PaymentForm.tsx:53-66 | with four or more digits, the first (at most 16) digits in groups of four separated by single spaces, and removing spaces gives those digits back; with fewer, the digits alone |
| PaymentForm.CardFormatCharacters | src/components/PaymentForm.tsx:53-66 | the result has at most 19 characters, only digits and spaces, and every space sits between two digits |
| PaymentForm.CardFormatIdempotent | src/components/PaymentForm.tsx:53-66 | formatting an already formatted number changes nothing |
| PaymentForm.GroupedLayout | src/components/PaymentForm.tsx:57-62 | grouped digits put a space at every fifth position and the digits, in order, everywhere else |
| PaymentForm.GroupedDigits | src/components/PaymentForm.tsx:57-62 | removing the spaces from grouped digits gives the digits back |
| PaymentForm.ExpiryFormat | src/components/PaymentForm.tsx:68-74 | with two or more digits, the first two typed digits, a slash, then the next up to two typed digits (only digits around the slash); with fewer, the digits alone |
| PaymentForm.ExpiryFormatIdempotent | src/components/PaymentForm.tsx:68-74 | formatting an already formatted expiry changes nothing |
| PaymentForm.SubmitPayment | src/components/PaymentForm.tsx:34-51 | no pending booking means no dispatch; otherwise the booking added as confirmed, then the confirmation view |
| PaymentForm.PaymentConfirms | src/components/PaymentForm.tsx:41-50 | after paying, the bookings end with the pending booking marked confirmed, the view is confirmation, and the pending booking and user are unchanged |
| PaymentForm.BookThenPay | src/components/PaymentForm.tsx:41-50 | submitting the passenger form and then paying adds exactly one booking: confirmed, for the selected flight, with the form's passengers and infants and the stored seats, and ends on the confirmation view |
| SearchForm.FilterAirports | src/components/SearchForm.tsx:43-47 | an airport is listed iff the term occurs, case-blind, in its city, code or name |
| SearchForm.EmptyTermListsAll | src/components/SearchForm.tsx:43-47 | an empty term lists every airport in table order |
| SearchForm.Swap | src/components/SearchForm.tsx:211-217 | the swap exchanges origin and destination and keeps every other filter |
| SearchForm.SwapTwice | src/components/SearchForm.tsx:211-217 | swapping twice restores the filters |
| SearchForm.InfantOptions | src/components/SearchForm.tsx:383-385 | the infant selector offers 0 up to the smaller of the adult count and 4 |
| SearchForm.SearchGuard | src/components/SearchForm.tsx:149-172 | the first failing check decides the refusal: not signed in, a missing airport, the same airport twice, no adults, or more infants than adults |
| SearchForm.SearchActions | src/components/SearchForm.tsx:177-207 | loading on and the filters first, loading off last, and the results and results view exactly when there are flights |
| SearchForm.SearchDate | src/components/SearchForm.tsx:185 | the chosen departure date, or today's when none is chosen |
| SearchForm.HandleSearch | src/components/SearchForm.tsx:145-209 | a refused search reports its reason and dispatches nothing; an accepted one dispatches the search actions for its results; an unknown airport gives none; otherwise the results are the route's generated flights for the search date (today without one), the i-th built from the i-th draw |
| SearchForm.AcceptedSearchShowsResults | src/components/SearchForm.tsx:177-207 | after an accepted search with flights, the store shows them on the results view with the searched filters and is not loading |
| SearchResults.FilterFlights | src/components/SearchResults.tsx:54-73 | a flight is kept iff it passes the stops, price-range, airline and class filters |
| SearchResults.FilterIsSubsequence | src/components/SearchResults.tsx:54-73 | filtering keeps the results' order |
| SearchResults.DefaultFiltersPass | src/components/SearchResults.tsx:12-15 | under the default filters a flight is listed iff it has at most two stops and all its fares lie in 0-300000 |
| SearchResults.KeyMeaning | src/components/SearchResults.tsx:32-47 | the price key is the cheapest fare, the departure key the departure time, an unknown key ranks every flight as 0; for a generator duration `Hh Mm` the duration key as written is H shifted by M's digits plus M, while the intended `ByMinutes` key is 60H + M |
| SearchResults.Insert | src/components/SearchResults.tsx:28-52 | inserting into a sorted list keeps it sorted and adds exactly that flight |
| SearchResults.Sort | src/components/SearchResults.tsx:28-52 | the result is sorted by the key and order and is a permutation of the input |
| SearchResults.SortFlights | src/components/SearchResults.tsx:28-52 | a permutation of the flights, ascending or descending by the chosen key (for duration the digit key as written); an unknown key keeps the order |
| SearchResults.DurationKeyMisorders | src/components/SearchResults.tsx:38-40 | the digit-concatenating key ranks `1h 59m` (159) after `2h 5m` (25), so the screen's ascending duration sort lists the longer flight first |
| SearchResults.SortTwo | src/components/SearchResults.tsx:28-52 | two flights whose keys are out of order come back swapped |
| SearchResults.DurationTextDigits | src/data/mockData.ts:238 | the digits of a duration text are the hours' digits followed by the minutes' digits |
| SearchResults.DurationKeyOfText | src/components/SearchResults.tsx:38-40 | the digit key of `Hh Mm` is H shifted by the digits of M, plus M; for single-digit minutes, 10H + M |
| SearchResults.IndexOf | src/components/SearchResults.tsx:39 | the first position of a character, or the length when absent |
| SearchResults.DurationMinutesOfText | src/data/mockData.ts:238 | reading a generated duration text back gives hours times 60 plus minutes |
| SearchResults.DurationSortShortestFirst | src/components/SearchResults.tsx:38-50 | sorting ascending by the total-minutes key puts every flight before any longer one, and lists `1h 59m` before `2h 5m` |
| SearchResults.UniqueAirlines | src/components/SearchResults.tsx:76 | each airline of the results is listed exactly once |
| SearchResults.UniqueAirlinesFirstSeenOrder | src/components/SearchResults.tsx:76 | airlines are listed in the order they first appear in the results |
| SearchResults.FirstSeen | src/components/SearchResults.tsx:76 | the first result flown by an airline, or the length when none is |
| SearchResults.FirstSeenPrefix | src/components/SearchResults.tsx:76 | adding a result does not move an airline's first appearance |
| SearchResults.ToggleAirline | src/components/SearchResults.tsx:87-93 | a ticked airline is removed and the others kept; an unticked one is appended |
| SearchResults.Without | src/components/SearchResults.tsx:90 | removes every copy of that airline and nothing else |
| SearchResults.ToggleTwice | src/components/SearchResults.tsx:87-93 | toggling twice gives back the same airlines, and exactly the same list when the airline was not ticked |
| SearchResults.ResultsPanel.constructor | src/components/SearchResults.tsx:10-15 | the screen starts sorting by price ascending with the default filters |
| SearchResults.ResultsPanel.Toggle | src/components/SearchResults.tsx:87-93 | toggling changes only the airline filter |
| SearchResults.ResultsPanel.ResetFilters | src/components/SearchResults.tsx:319-324 | either reset button restores the default filters and keeps the sort |
| SearchResults.ResultsPanel.Shown | src/components/SearchResults.tsx:75 | a flight is shown iff it is a result that passes every filter; an unknown key keeps the filtered order; otherwise the list is ordered by the chosen key and direction |
| SearchResults.ResultsPanel.ListedFlights | src/components/SearchResults.tsx:75 | a listed flight is a search result that passes every filter, and the list is ordered by the chosen key and direction |
| SeatSelection.RemoveId | src/components/SeatSelection.tsx:29 | removes exactly the seats with that id |
| SeatSelection.RemoveAbsent | src/components/SeatSelection.tsx:29 | removing an id that is not selected changes nothing |
| SeatSelection.RemoveKeepsDistinct | src/components/SeatSelection.tsx:29 | removal keeps selected ids distinct |
| SeatSelection.RemoveCount | src/components/SeatSelection.tsx:29 | removing a selected seat shortens the selection by one |
| SeatSelection.SeatClick | src/components/SeatSelection.tsx:23-33 | a taken seat changes nothing; a selected seat is deselected; a new seat is appended while fewer seats than passengers are held, and ignored otherwise |
| SeatSelection.SeatClickKeepsSelectionValid | src/components/SeatSelection.tsx:23-33 | clicks keep the selection free of duplicates and never above the passenger count |
| SeatSelection.SeatClickTwiceRestores | src/components/SeatSelection.tsx:23-33 | selecting and then deselecting a seat restores the selection |
| SeatSelection.ContinueActions | src/components/SeatSelection.tsx:35-40 | continuing dispatches the seats and the booking view exactly when one seat per passenger is held |
| SeatSelection.ClassFare | src/components/SeatSelection.tsx:73 | the searched class's fare of the selected flight, 0 without a flight |
| SeatSelection.TotalPrice | src/components/SeatSelection.tsx:72-76 | with no seats chosen the total is the class fare per passenger; without a flight it is just the seat surcharges |
| SeatSelection.TotalPriceAddSeat | src/components/SeatSelection.tsx:72-76 | adding a seat raises the total by its surcharge |
| SeatSelection.LeadingDigits | src/components/SeatSelection.tsx:81 | `parseInt` reads the longest run of digits at the start of the seat number |
| SeatSelection.RowOfGeneratedSeat | src/components/SeatSelection.tsx:81 | a generated seat number is grouped under its row |
| SeatSelection.SeatsInRow | src/components/SeatSelection.tsx:78-86 | the seats grouped under a row all belong to it |
| SeatSelection.GroupedRows | src/components/SeatSelection.tsx:78-86 | a row appears in the grouping iff some seat is in it, and its group is non-empty and holds only its seats |
| SeatSelection.GroupedSnoc | src/components/SeatSelection.tsx:80-84 | grouping one more seat appends it to its row's group |
| SeatSelection.GroupSeatsByRow | src/components/SeatSelection.tsx:78-86 | the loop builds the grouping of the seats by row |
| SeatSelection.RowsBelow | src/components/SeatSelection.tsx:89 | the row numbers below a bound, strictly ascending |
| SeatSelection.MaxRow | src/components/SeatSelection.tsx:89 | no seat's row exceeds it |
| SeatSelection.AscendingRows | src/components/SeatSelection.tsx:89 | the numeric rows of the grouping, each once, in ascending order |
| SeatSelection.SeatPicker.constructor | src/components/SeatSelection.tsx:9-10 | no seats and nothing selected |
| SeatSelection.SeatPicker.Load | src/components/SeatSelection.tsx:12-17 | loads the flight's 210 generated seats and keeps the selection |
| SeatSelection.SeatPicker.Click | src/components/SeatSelection.tsx:23-33 | the selection becomes the click's result and stays valid; the map is kept |
| SeatSelection.SeatPicker.Continue | src/components/SeatSelection.tsx:35-40 | dispatches the seats and the booking view iff one seat per passenger is held |
| SignIn.GetStoredUsers | src/components/SignInModal.tsx:41-47 | the stored accounts, or none when the list is missing or unreadable |
| SignIn.SaveUser | src/components/SignInModal.tsx:50-54 | appends the account to the stored list and touches no other key |
| SignIn.SaveUserKeepsAccounts | src/components/SignInModal.tsx:50-54 | saving keeps every earlier account in place and puts the new one last |
| SignIn.FindUser | src/components/SignInModal.tsx:57-60 | the first account whose email and password both match, and none iff no account matches |
| SignIn.EmailExists | src/components/SignInModal.tsx:63-66 | true iff some stored account has exactly that email |
| SignIn.BasicCheck | src/components/SignInModal.tsx:72-85 | missing credentials first, then an email without `@` or `.`, then a password under six UTF-16 code units, as JavaScript's `length` counts them |
| SignIn.EmojiPasswordLongEnough | src/components/SignInModal.tsx:82 | a password of three emoji is three characters but six code units, and passes the length check |
| SignIn.ValidateForm | src/components/SignInModal.tsx:68-115 | the basic check, then for sign-up the name, phone, birth-date, password-match and duplicate-email checks in order; valid iff all pass |
| SignIn.NormalEmail | src/components/SignInModal.tsx:133 | the stored email is the typed one trimmed and then lower-cased character by character, so it has the trimmed length, no surrounding whitespace and no upper-case ASCII letter |
| SignIn.NewAccount | src/components/SignInModal.tsx:131-140 | the new account stores the lower-cased, trimmed email, the password, trimmed names and phone, and the given id and time |
| SignIn.WithoutPassword | src/components/SignInModal.tsx:145 | the session user keeps every account field except the password |
| SignIn.Decide | src/components/SignInModal.tsx:117-179 | for a given duplicate-check email: refused iff validation fails, with its reason; created iff valid sign-up, with the new account; found only on sign-in, a stored account with the normalised email and the password; bad credentials iff valid sign-in and no account matches |
| SignIn.SubmitOutcome | src/components/SignInModal.tsx:117-179 | as written, the duplicate check uses the typed email: a sign-up is created iff the basic checks and sign-up fields pass and no stored account has exactly the typed email; a sign-in finds a stored account with the normalised email and that password, or reports bad credentials iff none matches |
| SignIn.CorrectedSubmitOutcome | src/components/SignInModal.tsx:108 | with the duplicate check on the email as it will be stored, a sign-up is created iff no stored account has the normalised email; it agrees with the as-written outcome on every sign-in and whenever the typed email is already normalised |
| SignIn.SignUpThenSignIn | src/components/SignInModal.tsx:131-171 | after a sign-up, signing in with the same form finds the account |
| SignIn.SignInDialog.constructor | src/components/SignInModal.tsx:23-36 | the dialog opens on sign-in with an empty form and no message |
| SignIn.SignInDialog.Submit | src/components/SignInModal.tsx:117-179 | a refusal or bad credentials leaves the store alone and shows the error; a sign-up saves the account and signs in without the password; a sign-in signs the found user in; either success shows its welcome; the form and the mode are kept until the dialog closes |
| SignIn.SignInDialog.Close | src/components/SignInModal.tsx:181-194 | closing resets the form to empty, clears the message and returns to sign-in mode |
| SignIn.SignInDialog.Input | src/components/SignInModal.tsx:196-199 | typing sets that one field and clears an error message; a welcome message and the mode are kept |
| SignIn.SignInDialog.ToggleMode | src/components/SignInModal.tsx:201-214 | switching mode flips it, clears the message and every field except the email |
| SignIn.NormalisedDuplicateAccepted | src/components/SignInModal.tsx:108 | when a typed email differs from a stored one only in case or spaces, the as-written sign-up is created and saving it breaks email uniqueness, while the corrected outcome refuses it as taken |
| SignIn.DuplicateEmailAccepted | src/components/SignInModal.tsx:108 | concretely: with `a@b.c` stored, `A@b.c` passes the as-written duplicate check, the saved list holds `a@b.c` twice, and the corrected outcome refuses it |
| SignIn.NormalisedSignUpKeepsEmailsUnique | src/components/SignInModal.tsx:133 | when the corrected outcome creates an account, saving it keeps stored emails unique |
| Types.MinPrice | src/components/FlightCard.tsx:39 | the lowest of the four fares, and one of them |
| Types.MaxPrice | src/components/SearchResults.tsx:58 | the highest of the four fares, and one of them |
| Types.SeatPriceSumAppend | src/components/SeatSelection.tsx:74 | the surcharge sum of two seat lists is the sum of their sums |
| Text.NatToString | src/data/mockData.ts:238 | the decimal text of a number is non-empty and all digits |
| Text.DigitsValueOfNatToString | src/components/SearchResults.tsx:39 | parsing a number's decimal text gives the number back |
| Text.DigitsValueAppend | src/components/SearchResults.tsx:39 | the value of two digit strings joined is the first shifted by the second's length plus the second |
| Text.NatToStringInjective | src/components/BookingForm.tsx:12 | different numbers print differently |
| Text.Digits | src/components/PaymentForm.tsx:54 | removing non-digits leaves only digits and never lengthens the text |
| Text.DigitsOfDigits | src/components/PaymentForm.tsx:54 | removing non-digits from digits changes nothing |
| Text.DigitsAppend | src/components/PaymentForm.tsx:54 | digit filtering distributes over concatenation |
| Text.ToLower | src/components/SearchForm.tsx:44-46 | lower-casing keeps the length and maps each character |
| Text.Utf16Length | src/components/SignInModal.tsx:82 | `length` counts one unit per character and two above U+FFFF, so it lies between the character count and twice it |
| Text.Utf16LengthAppend | src/components/SignInModal.tsx:82 | code units add up over concatenation |
| Text.Utf16LengthBmp | src/components/SignInModal.tsx:82 | for text within the Basic Multilingual Plane, `length` is the character count |
| Text.LeadingSpace | src/components/SignInModal.tsx:133 | the length of the leading whitespace run: all whitespace before it, and a non-whitespace character at it |
| Text.TrailingSpace | src/components/SignInModal.tsx:133 | the length of the trailing whitespace run: all whitespace after it, and a non-whitespace character before it |
| Text.TrimStart | src/components/SignInModal.tsx:133 | the result is a suffix of the text, does not start with whitespace, and what was removed is all whitespace |
| Text.TrimEnd | src/components/SignInModal.tsx:133 | the result is a prefix of the text, does not end with whitespace, and what was removed is all whitespace |
| Text.Trim | src/components/SignInModal.tsx:133 | the trimmed text neither starts nor ends with whitespace and is the text with only whitespace removed from each end; whitespace is the ECMAScript set |
| Text.ContainsAt | src/components/SearchForm.tsx:44 | text occurring at some position is found by `includes` |
| Text.ContainsEmpty | src/components/SearchForm.tsx:44 | every text includes the empty text |

## Left out

- AppStore.SeedDemo: an unreadable account list makes the source's start-up effect throw, because its `JSON.parse` sits outside the try at src/context/AppContext.tsx:117. The model leaves storage unchanged instead.
- JSON parsing and serialisation are not modelled. A stored value of the wrong shape stands for text that does not parse. ADD_BOOKING over an unreadable stored list, where the source throws, is modelled as changing nothing.
- `Date`, time zones and `toISOString` are not modelled. Flight times are minutes from a fixed epoch, the search date's day start is a parameter, and hotel dates are day numbers. Booking ids, references and creation times are passed in as strings.
- `Math.random()` draws are explicit parameters in `[0, 1)`, and floating point is exact real arithmetic.
- The `setTimeout` delays of the search, payment and sign-in are not modelled. Each callback is taken as one step after the handler.
- Tabs sharing `localStorage` are not modelled; the app is single-threaded.
- Currency, date and time formatting, `console` logging, alerts and the `isLoading` spinner are not modelled.
- Hotel images, amenities and review highlights are not modelled.
- The dropdown's open and close and display-text cells (`SearchableSelect`) are not modelled.
- The trip-type, date and passenger-count inputs and the quick-route buttons of the search form are not modelled. The quick-route date comes from the clock.
- The `SET_SEARCH_FILTERS` state they feed is modelled.
- The contact and emergency-contact cells of the booking form are not modelled. Only their email and phone feed the validity rule, as parameters.
- The payment method radio, card details and billing address cells are not modelled. They are display-only.
- The pre-generated `mockFlights` of popular routes is not modelled. Nothing in the core reads it.
- `TravelPackage`, the PDF ticket export, the `api/` proxy, `Header` and `HeroSection` are not part of this model.
- HotelData.EstimateCab: the duration is stated as exactly twice the distance. In IEEE doubles `Math.ceil(distance / 30 * 60)` can round up one minute more, for example 63 for 31 km.
- HotelData.GenerateHotelsForCity: requires four hotel draws even for a city that gets the two fallback hotels. Only the first two draws are then used.
- HotelBooking.HotelPage.Load: requires four hotel draws, for the same reason.
- SearchResults.SortFlights: states sortedness and permutation but not which of two equal-key flights comes first. `Array.prototype.sort`'s stability is not modelled.
- SearchResults.KeyMeaning: the duration key assumes the duration text has digits, as every generated one does. A text without digits would give `NaN` in the source.
- FlightData.AirlineCode: states only that the prefix is at most two characters. The per-airline codes are in the body.
- Text.ToLower: lower-cases ASCII letters only. `toLowerCase` also folds other scripts.
- SeatSelection.LeadingDigits: does not skip leading whitespace or a sign as `parseInt` does. Generated seat numbers have neither.

## Findings

| source | as written | input that shows it | evidently intended | confidence | as-written member | corrected member |
|---|---|---|---|---|---|---|
| src/components/SearchResults.tsx:38-40 | the duration key removes every non-digit and parses the rest, concatenating hours and minutes | `1h 59m` gets key 159 and `2h 5m` gets key 25, so the longer flight sorts first | sort by total minutes | not executed | SearchResults.DurationKeyMisorders | SearchResults.DurationSortShortestFirst |
| src/components/SignInModal.tsx:108 | the duplicate check looks up the email as typed, while the account stores it lower-cased and trimmed (line 133) | with `a@b.c` stored, signing up as `A@b.c` passes the check and stores `a@b.c` a second time | look up the email as it will be stored | not executed | SignIn.DuplicateEmailAccepted | SignIn.NormalisedSignUpKeepsEmailsUnique |
