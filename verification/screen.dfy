/**
  The trips screen as a whole: the stored trips, the selected trip, the
  panel detent, the detail-navigation flag and the search field, with the
  event handlers that change them and the rules for what is shown.
 */
module TripsScreen {

  import opened Options
  import opened TripModel
  import opened SheetDetent
  import opened TripSearch
  import TripStore

  datatype Screen = Screen(
    trips: seq<Trip>,
    selectedTrip: Trip,
    detent: Detent,
    showTripDetail: bool,
    searchText: string,
    isSearchFocused: bool)

  /**
    The screen as first shown. The selection is passed in on its own: it is
    not required to be one of the stored trips.
   */
  function Initial(trips: seq<Trip>, selection: Trip): (s: Screen)
    ensures s.trips == trips && s.selectedTrip == selection
    ensures IsCollapsed(s.detent) && MapAcceptsTouches(s.detent)
    ensures !s.showTripDetail && !s.isSearchFocused && s.searchText == []
    ensures ShowsLastTrip(s) && !ShowsList(s) && !ShowsLastTripTitle(s)
  {
    Screen(trips, selection, InitialDetent, false, "", false)
  }

  /** Whether the "last trip" row is shown. */
  predicate ShowsLastTrip(s: Screen)
  {
    !(s.isSearchFocused && !IsCollapsed(s.detent))
  }

  /** Whether the divider, the search field and the trip list are shown. */
  predicate ShowsList(s: Screen)
  {
    !IsCollapsed(s.detent)
  }

  /**
    The last-trip row carries a "Last Trip" title only when it is shown with
    the panel open; when collapsed the row appears without a title.
   */
  function ShowsLastTripTitle(s: Screen): (b: bool)
    ensures b <==> s.detent == Large && !s.isSearchFocused
  {
    ShowsLastTrip(s) && !IsCollapsed(s.detent)
  }

  /** The trip rows on screen: the search results while the list is shown, none otherwise. */
  function VisibleRows(fmt: TripFormatter, s: Screen): (r: seq<Trip>)
    ensures forall t :: t in r ==> t in s.trips
    ensures ShowsList(s) ==> r == FilteredTrips(fmt, s.trips, s.searchText)
    ensures ShowsList(s) && s.searchText == [] ==> r == s.trips
    ensures ShowsList(s) && s.searchText != [] ==>
              IsSubsequence(r, s.trips) && forall t :: t in r <==> t in s.trips && MatchesQuery(fmt, t, s.searchText)
    ensures !ShowsList(s) ==> r == []
  {
    if ShowsList(s) then FilteredTrips(fmt, s.trips, s.searchText) else []
  }

  /** While the list is shown, a trip has a row exactly when it is stored and passes the search. */
  lemma VisibleRowsIff(fmt: TripFormatter, s: Screen, t: Trip)
    requires ShowsList(s)
    ensures t in VisibleRows(fmt, s) <==> t in s.trips && (s.searchText == [] || MatchesQuery(fmt, t, s.searchText))
  {
  }

  /**
    The "no results" placeholder appears when the list is shown and no row
    is: the collection is empty, or a non-empty search matches no stored trip.
   */
  function ShowsNoResults(fmt: TripFormatter, s: Screen): (b: bool)
    ensures b <==> ShowsList(s) &&
                   (if s.searchText == [] then s.trips == []
                    else forall t :: t in s.trips ==> !MatchesQuery(fmt, t, s.searchText))
  {
    var r := FilteredTrips(fmt, s.trips, s.searchText);
    assert r != [] ==> r[0] in r;
    ShowsList(s) && r == []
  }

  /** With the list shown, a search nothing matches brings up the placeholder and no rows. */
  lemma NoMatchShowsPlaceholder(fmt: TripFormatter, s: Screen)
    requires ShowsList(s) && s.searchText != []
    requires forall t :: t in s.trips ==> !MatchesQuery(fmt, t, s.searchText)
    ensures ShowsNoResults(fmt, s)
    ensures VisibleRows(fmt, s) == []
  {
    NoMatchGivesEmptyList(fmt, s.trips, s.searchText);
  }

  /** The map gate is closed exactly when the panel is large. */
  lemma MapGateIff(s: Screen)
    ensures !MapAcceptsTouches(s.detent) <==> s.detent == Large
  {
  }

  /** The last-trip row is hidden exactly when the search field is focused and the panel is large. */
  lemma LastTripHiddenIff(s: Screen)
    ensures !ShowsLastTrip(s) <==> s.isSearchFocused && s.detent == Large
  {
  }

  /** The panel is never blank: when the last-trip row is hidden the list is shown. */
  lemma PanelNeverBlank(s: Screen)
    ensures ShowsLastTrip(s) || ShowsList(s)
    ensures ShowsList(s) <==> s.detent == Large
  {
  }

  /**
    A drag ended with vertical translation `translation`. The detent moves
    as `AfterDrag` says; a panel that ends up collapsed removes the search
    field, which drops its focus. Nothing else changes.
   */
  function DragEnded(s: Screen, translation: real): (r: Screen)
    ensures r.detent == AfterDrag(s.detent, translation)
    ensures r.isSearchFocused <==> s.isSearchFocused && r.detent == Large
    ensures r.(detent := s.detent, isSearchFocused := s.isSearchFocused) == s
  {
    var d := AfterDrag(s.detent, translation);
    s.(detent := d, isSearchFocused := s.isSearchFocused && !IsCollapsed(d))
  }

  /**
    The star of `trip` was tapped. The first stored copy has its star
    flipped; if the selection has the same id it is replaced by that stored
    copy. A trip that is not stored changes nothing.
   */
  function StarTapped(s: Screen, trip: Trip): (r: Screen)
    ensures r.trips == TripStore.ToggleStar(s.trips, trip)
    ensures trip !in s.trips ==> r == s
    ensures trip in s.trips && s.selectedTrip.id == trip.id ==> r.selectedTrip == ToggledStar(trip)
    ensures !(trip in s.trips && s.selectedTrip.id == trip.id) ==> r.selectedTrip == s.selectedTrip
    ensures r.(trips := s.trips, selectedTrip := s.selectedTrip) == s
  {
    match TripStore.FirstIndexOf(s.trips, trip)
    case None => s
    case Some(i) =>
      var trips := TripStore.ToggleStar(s.trips, trip);
      assert trips[i] != s.trips[i];
      s.(trips := trips, selectedTrip := if s.selectedTrip.id == trip.id then trips[i] else s.selectedTrip)
  }

  /** A trip row was tapped: it becomes the selection and its detail is requested. */
  function RowTapped(s: Screen, trip: Trip): (r: Screen)
    ensures r.selectedTrip == trip && r.showTripDetail
    ensures r.(selectedTrip := s.selectedTrip, showTripDetail := s.showTripDetail) == s
  {
    s.(selectedTrip := trip, showTripDetail := true)
  }

  /** The last-trip row was tapped: the selection's detail is requested. */
  function LastTripTapped(s: Screen): (r: Screen)
    ensures r.showTripDetail && r.selectedTrip == s.selectedTrip
    ensures r.(showTripDetail := s.showTripDetail) == s
  {
    s.(showTripDetail := true)
  }

  /**
    Collapsing the panel drops the search focus, so opening it again shows
    the last-trip row.
   */
  lemma CollapseThenExpandShowsLastTrip(s: Screen)
    requires s.detent == Large
    ensures !DragEnded(s, 100.0).isSearchFocused
    ensures var e := DragEnded(DragEnded(s, 100.0), -100.0);
            e.detent == Large && ShowsLastTrip(e) && ShowsLastTripTitle(e)
  {
  }

  /** Returning from the trip detail clears the navigation flag. */
  function DetailDismissed(s: Screen): (r: Screen)
    ensures !r.showTripDetail
    ensures r.(showTripDetail := s.showTripDetail) == s
  {
    s.(showTripDetail := false)
  }

  /** Opening a row's detail and coming back leaves only the new selection behind. */
  lemma TapThenBack(s: Screen, trip: Trip)
    requires !s.showTripDetail
    ensures DetailDismissed(RowTapped(s, trip)) == s.(selectedTrip := trip)
  {
  }

  /** One user input. */
  datatype Event =
    | Drag(translation: real)
    | Star(trip: Trip)
    | TapRow(trip: Trip)
    | TapLastTrip
    | EditSearch(text: string)
    | Focus(focused: bool)
    | BackFromDetail

  /**
    An input the screen can receive in state `s`: taps only land on what is
    shown, the search field can only be edited or focused while it is shown,
    and back navigation needs a detail on screen.
   */
  predicate Enabled(fmt: TripFormatter, s: Screen, e: Event)
  {
    match e
    case Star(t) => t in VisibleRows(fmt, s)
    case TapRow(t) => t in VisibleRows(fmt, s)
    case TapLastTrip => ShowsLastTrip(s)
    case EditSearch(_) => ShowsList(s)
    case Focus(b) => b ==> ShowsList(s)
    case BackFromDetail => s.showTripDetail
    case Drag(_) => true
  }

  function Step(s: Screen, e: Event): Screen
  {
    match e
    case Drag(t) => DragEnded(s, t)
    case Star(t) => StarTapped(s, t)
    case TapRow(t) => RowTapped(s, t)
    case TapLastTrip => LastTripTapped(s)
    case EditSearch(text) => s.(searchText := text)
    case Focus(b) => s.(isSearchFocused := b)
    case BackFromDetail => DetailDismissed(s)
  }

  /** The screen after a series of inputs, oldest first. */
  function Run(s: Screen, events: seq<Event>): Screen
    decreases |events|
  {
    if events == [] then s else Run(Step(s, events[0]), events[1..])
  }

  /** Every input in `events` is enabled in the state it reaches. */
  predicate Feasible(fmt: TripFormatter, s: Screen, events: seq<Event>)
    decreases |events|
  {
    events == [] || (Enabled(fmt, s, events[0]) && Feasible(fmt, Step(s, events[0]), events[1..]))
  }

  /**
    The selection never disagrees with the stored trip of the same id: if a
    stored trip has the selection's id, it is the selection.
   */
  predicate SelectionInSync(s: Screen)
  {
    forall i :: 0 <= i < |s.trips| && s.trips[i].id == s.selectedTrip.id ==> s.trips[i] == s.selectedTrip
  }

  /**
    What every reachable screen satisfies: unique ids, a selection in sync
    with the store, and search focus only while the search field is shown.
   */
  predicate Consistent(s: Screen)
  {
    TripStore.UniqueIds(s.trips) && SelectionInSync(s) && (s.isSearchFocused ==> ShowsList(s))
  }

  /** On a consistent screen the last-trip row is hidden exactly when the search field is focused. */
  lemma LastTripHiddenIffFocused(s: Screen)
    requires Consistent(s)
    ensures !ShowsLastTrip(s) <==> s.isSearchFocused
  {
  }

  /** The initial screen is consistent, whether or not the selection is stored. */
  lemma InitialConsistent(trips: seq<Trip>, selection: Trip)
    requires TripStore.UniqueIds(trips)
    requires selection in trips || forall t :: t in trips ==> t.id != selection.id
    ensures Consistent(Initial(trips, selection))
  {
  }

  /** Tapping the star of the selected stored trip flips the selection's star too. */
  lemma StarOnSelectionFlipsSelection(s: Screen)
    requires s.selectedTrip in s.trips
    ensures StarTapped(s, s.selectedTrip).selectedTrip == ToggledStar(s.selectedTrip)
    ensures StarTapped(s, s.selectedTrip).selectedTrip in StarTapped(s, s.selectedTrip).trips
  {
    var k := TripStore.FirstIndexOf(s.trips, s.selectedTrip).value;
    assert StarTapped(s, s.selectedTrip).trips[k] == ToggledStar(s.selectedTrip);
  }

  /** A selection whose id is not stored is never touched by a star tap. */
  lemma StarKeepsUnstoredSelection(s: Screen, trip: Trip)
    requires forall t :: t in s.trips ==> t.id != s.selectedTrip.id
    ensures StarTapped(s, trip).selectedTrip == s.selectedTrip
  {
  }

  lemma StarPreservesConsistency(s: Screen, trip: Trip)
    requires Consistent(s)
    ensures Consistent(StarTapped(s, trip))
  {
    var r := StarTapped(s, trip);
    TripStore.ToggleKeepsIds(s.trips, trip);
    if trip in s.trips {
      var k := TripStore.FirstIndexOf(s.trips, trip).value;
      assert r.trips[k] == ToggledStar(trip);
      forall i | 0 <= i < |r.trips| && r.trips[i].id == r.selectedTrip.id
        ensures r.trips[i] == r.selectedTrip
      {
        assert r.trips[i].id == s.trips[i].id;
        if s.selectedTrip.id == trip.id {
          assert s.trips[k].id == trip.id;
          assert i == k;
        } else {
          assert r.trips[k].id == trip.id;
          assert i != k;
          assert r.trips[i] == s.trips[i];
        }
      }
    }
  }

  lemma RowTapPreservesConsistency(s: Screen, trip: Trip)
    requires Consistent(s)
    requires trip in s.trips
    ensures Consistent(RowTapped(s, trip))
  {
  }

  /** Every feasible series of inputs keeps the screen consistent and the stored ids fixed. */
  lemma {:induction false} RunPreservesConsistency(fmt: TripFormatter, s: Screen, events: seq<Event>)
    requires Consistent(s)
    requires Feasible(fmt, s, events)
    ensures Consistent(Run(s, events))
    ensures TripStore.Ids(Run(s, events).trips) == TripStore.Ids(s.trips)
    decreases |events|
  {
    if events != [] {
      var e := events[0];
      var next := Step(s, e);
      match e {
        case Star(t) =>
          StarPreservesConsistency(s, t);
          TripStore.ToggleKeepsIds(s.trips, t);
        case TapRow(t) =>
          RowTapPreservesConsistency(s, t);
        case _ =>
      }
      RunPreservesConsistency(fmt, next, events[1..]);
    }
  }
}
