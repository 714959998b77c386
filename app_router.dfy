/**
 * The top-level view switch (src/App.tsx): which screen the store's
 * `currentView` tag shows.
 */
module AppRouter {
  import opened Types
  import opened AppStore

  datatype Screen =
    | SearchScreen
    | ResultsScreen
    | SeatScreen
    | BookingScreen
    | PaymentScreen
    | ConfirmationScreen
    | HotelScreen
    | CabScreen
    | PackageScreen
    | BookingsScreen

  /** The eleven tags the switch names. */
  const NamedViews: seq<string> := ["search", "results", "seats", "booking", "payment", "confirmation",
                                    "hotel-booking", "cab-booking", "travel-package", "bookings", "history"]

  /** `renderCurrentView`: a screen for every tag, the search screen for any tag not named. */
  function RenderView(view: string): (screen: Screen)
    ensures view !in NamedViews ==> screen == SearchScreen
    ensures view == "bookings" || view == "history" <==> screen == BookingsScreen
    ensures view == "search" ==> screen == SearchScreen
  {
    if view == "results" then ResultsScreen
    else if view == "seats" then SeatScreen
    else if view == "booking" then BookingScreen
    else if view == "payment" then PaymentScreen
    else if view == "confirmation" then ConfirmationScreen
    else if view == "hotel-booking" then HotelScreen
    else if view == "cab-booking" then CabScreen
    else if view == "travel-package" then PackageScreen
    else if view == "bookings" || view == "history" then BookingsScreen
    else SearchScreen
  }

  /**
   * Two different named tags show different screens, except `bookings` and
   * `history`, which share one; and only `search` among them shows the
   * search screen.
   */
  lemma NamedViewsDistinct(a: string, b: string)
    requires a in NamedViews && b in NamedViews && a != b
    requires !(a in ["bookings", "history"] && b in ["bookings", "history"])
    ensures RenderView(a) != RenderView(b)
  {
  }

  lemma OnlySearchShowsSearch(view: string)
    requires view in NamedViews
    ensures RenderView(view) == SearchScreen <==> view == "search"
  {
  }

  /** The tag the package screen's last button sets has no case: it shows the search screen. */
  lemma PackageConfirmationShowsSearch()
    ensures RenderView("package-confirmation") == SearchScreen
  {
    assert "package-confirmation" !in NamedViews;
  }

  /** The initial state shows the search screen. */
  lemma StartsOnSearch()
    ensures RenderView(InitialState.currentView) == SearchScreen
  {
  }
}
