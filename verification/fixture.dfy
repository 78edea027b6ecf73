/**
  The four mock trips the trips screen is seeded with, and the search and
  star scenario run against them.
 */
module MockTrips {

  import opened Text
  import opened TripModel
  import opened SheetDetent
  import opened TripSearch
  import opened TripsScreen
  import TripStore
  import opened Options

  /** The shared route of every mock trip. */
  const BaseRoute: seq<Coordinate> := [
    Coordinate(-28.0116, 153.4052),
    Coordinate(-28.0408, 153.3991),
    Coordinate(-28.0700, 153.3930),
    Coordinate(-28.0780, 153.4075),
    Coordinate(-28.0860, 153.4220),
    Coordinate(-28.0930, 153.4310),
    Coordinate(-28.1000, 153.4400)]

  /**
    The mock trips relative to the current time `now`; `ids` stands for the
    freshly generated UUIDs.
   */
  function Mock(ids: seq<TripId>, now: Date): (r: seq<Trip>)
    requires |ids| == 4
    ensures |r| == 4
    ensures forall i :: 0 <= i < 4 ==> r[i].id == ids[i] && !r[i].isStarred && r[i].route == BaseRoute
  {
    [ Trip(ids[0], "Burleigh", "Bundall", now - 3600.0, now, 44.0, 45, BaseRoute, 3, 1, 2, false),
      Trip(ids[1], "Miami", "Ashmore", now - 7200.0, now - 3600.0, 32.0, 38, BaseRoute, 1, 0, 1, false),
      Trip(ids[2], "Burleigh", "Southport", now - 7200.0, now - 3600.0, 32.0, 38, BaseRoute, 1, 0, 1, false),
      Trip(ids[3], "Arundel", "Southport", now - 7200.0, now - 3600.0, 32.0, 38, BaseRoute, 1, 0, 1, false) ]
  }

  /** The formatted dates of the mock trips do not contain `query`. */
  predicate DatesAvoid(fmt: TripFormatter, now: Date, query: string)
  {
    && !ContainsIgnoringCase(fmt.dateString(now - 3600.0, now), query)
    && !ContainsIgnoringCase(fmt.timeRangeString(now - 3600.0, now), query)
    && !ContainsIgnoringCase(fmt.dateString(now - 7200.0, now - 3600.0), query)
    && !ContainsIgnoringCase(fmt.timeRangeString(now - 7200.0, now - 3600.0), query)
  }

  lemma LabelsOfMock()
    ensures IntToString(Truncate(44.0)) == "44" && IntToString(Truncate(32.0)) == "32"
    ensures IntToString(45) == "45" && IntToString(38) == "38"
  {
    assert Truncate(44.0) == 44 && Truncate(32.0) == 32;
    assert NatToString(4) == "4";
    assert NatToString(44) == NatToString(4) + [DigitChar(4)];
    assert NatToString(3) == "3";
    assert NatToString(32) == NatToString(3) + [DigitChar(2)];
    assert NatToString(45) == NatToString(4) + [DigitChar(5)];
    assert NatToString(38) == NatToString(3) + [DigitChar(8)];
  }

  /** "southport" is found only in the two trips that end at Southport. */
  lemma SouthportMatches(fmt: TripFormatter, ids: seq<TripId>, now: Date)
    requires |ids| == 4
    requires DatesAvoid(fmt, now, "southport")
    ensures !MatchesQuery(fmt, Mock(ids, now)[0], "southport")
    ensures !MatchesQuery(fmt, Mock(ids, now)[1], "southport")
    ensures MatchesQuery(fmt, Mock(ids, now)[2], "southport")
    ensures MatchesQuery(fmt, Mock(ids, now)[3], "southport")
  {
    var m := Mock(ids, now);
    LabelsOfMock();
    forall i | 0 <= i < 4
      ensures |DistanceLabel(m[i])| < 9 && |DurationLabel(m[i])| < 9
    {
    }
    assert |m[0].startLocationName| < 9 && |m[0].endLocationName| < 9;
    assert |m[1].startLocationName| < 9 && |m[1].endLocationName| < 9;
    LongerNotContained(DistanceLabel(m[0]), "southport");
    LongerNotContained(DurationLabel(m[0]), "southport");
    LongerNotContained(DistanceLabel(m[1]), "southport");
    LongerNotContained(DurationLabel(m[1]), "southport");
    assert Lower("Southport") == Lower("southport");
    ContainsItselfIgnoringCase(m[2].endLocationName, "southport");
    ContainsItselfIgnoringCase(m[3].endLocationName, "southport");
  }

  /** Of four trips, only the last two match: those two are kept, in order. */
  lemma {:induction false} KeepLastTwoOfFour(fmt: TripFormatter, m: seq<Trip>, query: string)
    requires |m| == 4
    requires !MatchesQuery(fmt, m[0], query) && !MatchesQuery(fmt, m[1], query)
    requires MatchesQuery(fmt, m[2], query) && MatchesQuery(fmt, m[3], query)
    ensures KeepMatching(fmt, m, query) == [m[2], m[3]]
  {
    assert m[1..][1..][1..][1..] == [];
    calc {
      KeepMatching(fmt, m, query);
      KeepMatching(fmt, m[1..], query);
      KeepMatching(fmt, m[1..][1..], query);
      [m[2]] + KeepMatching(fmt, m[1..][1..][1..], query);
      [m[2]] + ([m[3]] + KeepMatching(fmt, m[1..][1..][1..][1..], query));
    }
  }

  /** Starring the third mock trip flips exactly that trip. */
  lemma StarThirdMock(ids: seq<TripId>, now: Date)
    requires |ids| == 4
    ensures var m := Mock(ids, now);
            TripStore.ToggleStar(m, m[2]) == [m[0], m[1], ToggledStar(m[2]), m[3]]
  {
    var m := Mock(ids, now);
    assert m[2] !in m[..2] by {
      assert m[..2] == [m[0], m[1]];
    }
    assert TripStore.FirstIndexOf(m, m[2]) == Some(2);
  }

  /**
    Searching the mock trips for "southport" lists exactly the two trips that
    end at Southport, in their stored order; starring the first of them and
    searching again still lists both, the first now starred.
   */
  lemma SouthportScenario(fmt: TripFormatter, ids: seq<TripId>, now: Date)
    requires |ids| == 4
    requires DatesAvoid(fmt, now, "southport")
    ensures var m := Mock(ids, now);
            FilteredTrips(fmt, m, "southport") == [m[2], m[3]]
    ensures var m := Mock(ids, now);
            var starred := TripStore.ToggleStar(m, m[2]);
            FilteredTrips(fmt, starred, "southport") == [ToggledStar(m[2]), m[3]]
            && FilteredTrips(fmt, starred, "southport")[0].isStarred
  {
    var m := Mock(ids, now);
    SouthportMatches(fmt, ids, now);
    KeepLastTwoOfFour(fmt, m, "southport");
    StarThirdMock(ids, now);
    var starred := [m[0], m[1], ToggledStar(m[2]), m[3]];
    MatchingIgnoresStar(fmt, m[2], "southport");
    KeepLastTwoOfFour(fmt, starred, "southport");
  }

  /** Upper- and lower-case spellings of a search give the same mock results. */
  lemma BurleighIgnoresCase(fmt: TripFormatter, ids: seq<TripId>, now: Date)
    requires |ids| == 4
    ensures FilteredTrips(fmt, Mock(ids, now), "BURLEIGH") == FilteredTrips(fmt, Mock(ids, now), "burleigh")
  {
    assert Lower("BURLEIGH") == Lower("burleigh");
    FilterIgnoresCase(fmt, Mock(ids, now), "BURLEIGH", "burleigh");
  }

  /**
    On the seeded screen, expanding the panel and searching for "southport"
    shows the two Southport rows; tapping the first one's star shows it starred.
   */
  lemma ScreenScenario(fmt: TripFormatter, ids: seq<TripId>, now: Date, selection: Trip)
    requires |ids| == 4
    requires DatesAvoid(fmt, now, "southport")
    ensures var m := Mock(ids, now);
            var s := Run(Initial(m, selection), [Drag(-120.0), EditSearch("southport")]);
            && s.detent == Large && !MapAcceptsTouches(s.detent)
            && VisibleRows(fmt, s) == [m[2], m[3]]
            && VisibleRows(fmt, StarTapped(s, m[2])) == [ToggledStar(m[2]), m[3]]
  {
    var m := Mock(ids, now);
    var s0 := Initial(m, selection);
    var s := Screen(m, selection, Large, false, "southport", false);
    assert Run(s0, [Drag(-120.0), EditSearch("southport")]) == s by {
      assert Step(s0, Drag(-120.0)) == s.(searchText := "");
      assert Step(s.(searchText := ""), EditSearch("southport")) == s;
      assert [Drag(-120.0), EditSearch("southport")][1..] == [EditSearch("southport")];
    }
    var t := StarTapped(s, m[2]);
    assert t.trips == TripStore.ToggleStar(m, m[2]) && t.detent == Large && t.searchText == "southport";
    assert VisibleRows(fmt, s) == FilteredTrips(fmt, m, "southport");
    assert VisibleRows(fmt, t) == FilteredTrips(fmt, TripStore.ToggleStar(m, m[2]), "southport");
    SouthportScenario(fmt, ids, now);
  }
}
