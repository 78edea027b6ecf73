/**
  The trips search: a trip is kept when any of six strings derived from it
  contains the search text, ignoring case; an empty search text keeps the
  collection as it is.
 */
module TripSearch {

  import opened Text
  import opened TripModel

  /**
    The date formatting the search reads, defined outside this model: the
    trip's date string and its time-range string, each computed from the
    trip's start and end dates.
   */
  datatype TripFormatter = TripFormatter(
    dateString: (Date, Date) -> string,
    timeRangeString: (Date, Date) -> string)

  function DateString(fmt: TripFormatter, t: Trip): string
  {
    fmt.dateString(t.startDate, t.endDate)
  }

  function TimeRangeString(fmt: TripFormatter, t: Trip): string
  {
    fmt.timeRangeString(t.startDate, t.endDate)
  }

  /** "<whole kilometres> km", the distance truncated towards zero. */
  function DistanceLabel(t: Trip): string
  {
    IntToString(Truncate(t.distanceKM)) + " km"
  }

  /** "<minutes> mins". */
  function DurationLabel(t: Trip): string
  {
    IntToString(t.durationMinutes) + " mins"
  }

  /** The distance label ends in " km" and what precedes it reads back as the truncated distance. */
  lemma DistanceLabelRoundTrip(t: Trip)
    ensures |DistanceLabel(t)| >= 4
    ensures DistanceLabel(t)[|DistanceLabel(t)| - 3..] == " km"
    ensures var n := DistanceLabel(t)[..|DistanceLabel(t)| - 3];
            ((|n| >= 1 && n[0] == '-' && AllDigits(n[1..])) || AllDigits(n)) && ParseInt(n) == Truncate(t.distanceKM)
  {
    var n := IntToString(Truncate(t.distanceKM));
    assert DistanceLabel(t)[..|DistanceLabel(t)| - 3] == n;
    IntToStringRoundTrip(Truncate(t.distanceKM));
  }

  /** The duration label ends in " mins" and what precedes it reads back as the minutes. */
  lemma DurationLabelRoundTrip(t: Trip)
    ensures |DurationLabel(t)| >= 6
    ensures DurationLabel(t)[|DurationLabel(t)| - 5..] == " mins"
    ensures var n := DurationLabel(t)[..|DurationLabel(t)| - 5];
            ((|n| >= 1 && n[0] == '-' && AllDigits(n[1..])) || AllDigits(n)) && ParseInt(n) == t.durationMinutes
  {
    var n := IntToString(t.durationMinutes);
    assert DurationLabel(t)[..|DurationLabel(t)| - 5] == n;
    IntToStringRoundTrip(t.durationMinutes);
  }

  /** The trip matches `query` when one of its six search strings contains it, ignoring case. */
  predicate MatchesQuery(fmt: TripFormatter, t: Trip, query: string)
  {
    || ContainsIgnoringCase(t.startLocationName, query)
    || ContainsIgnoringCase(t.endLocationName, query)
    || ContainsIgnoringCase(DateString(fmt, t), query)
    || ContainsIgnoringCase(TimeRangeString(fmt, t), query)
    || ContainsIgnoringCase(DistanceLabel(t), query)
    || ContainsIgnoringCase(DurationLabel(t), query)
  }

  /** `a` is `b` with some elements left out, the rest in their original order. */
  predicate IsSubsequence<T(==)>(a: seq<T>, b: seq<T>)
    decreases |b|
  {
    if a == [] then true
    else if b == [] then false
    else if a[0] == b[0] then IsSubsequence(a[1..], b[1..])
    else IsSubsequence(a, b[1..])
  }

  /** The matching trips, in collection order. */
  function KeepMatching(fmt: TripFormatter, trips: seq<Trip>, query: string): (r: seq<Trip>)
    ensures IsSubsequence(r, trips)
    ensures forall t :: t in r <==> t in trips && MatchesQuery(fmt, t, query)
    ensures forall t :: multiset(r)[t] == if MatchesQuery(fmt, t, query) then multiset(trips)[t] else 0
    decreases |trips|
  {
    if trips == [] then []
    else
      var rest := KeepMatching(fmt, trips[1..], query);
      assert trips == [trips[0]] + trips[1..];
      if MatchesQuery(fmt, trips[0], query) then
        assert ([trips[0]] + rest)[1..] == rest;
        [trips[0]] + rest
      else
        assert rest != [] ==> rest[0] != trips[0] by {
          if rest != [] { assert rest[0] in rest; }
        }
        rest
  }

  /** The trips the list shows for the current search text. */
  function FilteredTrips(fmt: TripFormatter, trips: seq<Trip>, searchText: string): (r: seq<Trip>)
    ensures searchText == [] ==> r == trips
    ensures searchText != [] ==> IsSubsequence(r, trips)
    ensures searchText != [] ==> forall t :: t in r <==> t in trips && MatchesQuery(fmt, t, searchText)
    ensures searchText != [] ==>
              forall t :: multiset(r)[t] == if MatchesQuery(fmt, t, searchText) then multiset(trips)[t] else 0
  {
    if searchText == [] then trips else KeepMatching(fmt, trips, searchText)
  }

  /** A search text that no trip matches leaves the list empty. */
  lemma NoMatchGivesEmptyList(fmt: TripFormatter, trips: seq<Trip>, searchText: string)
    requires searchText != []
    requires forall t :: t in trips ==> !MatchesQuery(fmt, t, searchText)
    ensures FilteredTrips(fmt, trips, searchText) == []
  {
  }

  /** Matching depends on the search text only through its folded form. */
  lemma MatchesDependsOnFoldedQuery(fmt: TripFormatter, t: Trip, q1: string, q2: string)
    requires Lower(q1) == Lower(q2)
    ensures MatchesQuery(fmt, t, q1) == MatchesQuery(fmt, t, q2)
  {
  }

  /** Search texts that differ only in ASCII case give the same list. */
  lemma {:induction false} FilterIgnoresCase(fmt: TripFormatter, trips: seq<Trip>, q1: string, q2: string)
    requires Lower(q1) == Lower(q2)
    ensures FilteredTrips(fmt, trips, q1) == FilteredTrips(fmt, trips, q2)
  {
    assert |q1| == |Lower(q1)| == |Lower(q2)| == |q2|;
    if q1 != [] {
      KeepMatchingIgnoresCase(fmt, trips, q1, q2);
    }
  }

  lemma {:induction false} KeepMatchingIgnoresCase(fmt: TripFormatter, trips: seq<Trip>, q1: string, q2: string)
    requires Lower(q1) == Lower(q2)
    ensures KeepMatching(fmt, trips, q1) == KeepMatching(fmt, trips, q2)
    decreases |trips|
  {
    if trips != [] {
      MatchesDependsOnFoldedQuery(fmt, trips[0], q1, q2);
      KeepMatchingIgnoresCase(fmt, trips[1..], q1, q2);
    }
  }

  /** Typing the search text in lower case gives the same list. */
  lemma FilterByFoldedText(fmt: TripFormatter, trips: seq<Trip>, searchText: string)
    ensures FilteredTrips(fmt, trips, Lower(searchText)) == FilteredTrips(fmt, trips, searchText)
  {
    LowerIdempotent(searchText);
    FilterIgnoresCase(fmt, trips, Lower(searchText), searchText);
  }

  /** Searching the search results again for the same text changes nothing. */
  lemma {:induction false} FilterIdempotent(fmt: TripFormatter, trips: seq<Trip>, searchText: string)
    ensures FilteredTrips(fmt, FilteredTrips(fmt, trips, searchText), searchText) == FilteredTrips(fmt, trips, searchText)
  {
    if searchText != [] {
      KeepMatchingIdempotent(fmt, trips, searchText);
    }
  }

  lemma {:induction false} KeepMatchingIdempotent(fmt: TripFormatter, trips: seq<Trip>, query: string)
    ensures KeepMatching(fmt, KeepMatching(fmt, trips, query), query) == KeepMatching(fmt, trips, query)
    decreases |trips|
  {
    if trips != [] {
      var rest := KeepMatching(fmt, trips[1..], query);
      KeepMatchingIdempotent(fmt, trips[1..], query);
      if MatchesQuery(fmt, trips[0], query) {
        var r := [trips[0]] + rest;
        assert r[1..] == rest;
      }
    }
  }

  /** The trip with its star flag reset, i.e. everything the search can see. */
  function Unstarred(t: Trip): Trip
  {
    t.(isStarred := false)
  }

  /** The star flag plays no part in matching. */
  lemma MatchingIgnoresStar(fmt: TripFormatter, t: Trip, query: string)
    ensures MatchesQuery(fmt, t, query) == MatchesQuery(fmt, ToggledStar(t), query)
  {
    assert DistanceLabel(t) == DistanceLabel(ToggledStar(t));
  }

  /** Two collections that differ only in star flags give lists that differ only in star flags. */
  lemma {:induction false} FilterIgnoresStars(fmt: TripFormatter, a: seq<Trip>, b: seq<Trip>, searchText: string)
    requires |a| == |b|
    requires forall i :: 0 <= i < |a| ==> Unstarred(a[i]) == Unstarred(b[i])
    ensures |FilteredTrips(fmt, a, searchText)| == |FilteredTrips(fmt, b, searchText)|
    ensures forall i :: 0 <= i < |FilteredTrips(fmt, a, searchText)| ==>
              Unstarred(FilteredTrips(fmt, a, searchText)[i]) == Unstarred(FilteredTrips(fmt, b, searchText)[i])
  {
    if searchText != [] {
      KeepMatchingIgnoresStars(fmt, a, b, searchText);
    }
  }

  lemma {:induction false} KeepMatchingIgnoresStars(fmt: TripFormatter, a: seq<Trip>, b: seq<Trip>, query: string)
    requires |a| == |b|
    requires forall i :: 0 <= i < |a| ==> Unstarred(a[i]) == Unstarred(b[i])
    ensures |KeepMatching(fmt, a, query)| == |KeepMatching(fmt, b, query)|
    ensures forall i :: 0 <= i < |KeepMatching(fmt, a, query)| ==>
              Unstarred(KeepMatching(fmt, a, query)[i]) == Unstarred(KeepMatching(fmt, b, query)[i])
    decreases |a|
  {
    if a != [] {
      KeepMatchingIgnoresStars(fmt, a[1..], b[1..], query);
      assert Unstarred(a[0]) == Unstarred(b[0]);
      assert MatchesQuery(fmt, a[0], query) == MatchesQuery(fmt, b[0], query) by {
        assert MatchesQuery(fmt, a[0], query) == MatchesQuery(fmt, Unstarred(a[0]), query) by {
          assert DistanceLabel(a[0]) == DistanceLabel(Unstarred(a[0]));
        }
        assert MatchesQuery(fmt, b[0], query) == MatchesQuery(fmt, Unstarred(b[0]), query) by {
          assert DistanceLabel(b[0]) == DistanceLabel(Unstarred(b[0]));
        }
      }
    }
  }

  /** The separator between the fields of a trip row's second line. */
  const MetaSeparator: string := "  •  "

  /** The second line of a trip row: distance, duration and the relative end time. */
  function RowMeta(t: Trip, relativeEnd: string): (r: string)
    ensures var n, m := |DistanceLabel(t)|, |DurationLabel(t)|;
            && |r| == n + |MetaSeparator| + m + |MetaSeparator| + |relativeEnd|
            && r[..n] == DistanceLabel(t)
            && r[n..n + 5] == MetaSeparator
            && r[n + 5..n + 5 + m] == DurationLabel(t)
            && r[n + 5 + m..n + 10 + m] == MetaSeparator
            && r[n + 10 + m..] == relativeEnd
  {
    DistanceLabel(t) + MetaSeparator + DurationLabel(t) + MetaSeparator + relativeEnd
  }

  /**
    Reading a row's meta line back: the first field is "<n> km" with n the
    truncated distance, the second is "<m> mins" with m the minutes.
   */
  lemma RowMetaReadsBack(t: Trip, relativeEnd: string)
    ensures var r, n, m := RowMeta(t, relativeEnd), |DistanceLabel(t)|, |DurationLabel(t)|;
            && n >= 4 && m >= 6
            && r[n - 3..n] == " km"
            && r[n + m..n + 5 + m] == " mins"
            && ((r[0] == '-' && AllDigits(r[1..n - 3])) || AllDigits(r[..n - 3]))
            && ParseInt(r[..n - 3]) == Truncate(t.distanceKM)
            && ((r[n + 5] == '-' && AllDigits(r[n + 6..n + m])) || AllDigits(r[n + 5..n + m]))
            && ParseInt(r[n + 5..n + m]) == t.durationMinutes
  {
    var r, n, m := RowMeta(t, relativeEnd), |DistanceLabel(t)|, |DurationLabel(t)|;
    var d, u := DistanceLabel(t), DurationLabel(t);
    DistanceLabelRoundTrip(t);
    DurationLabelRoundTrip(t);
    assert r[..n - 3] == d[..n - 3];
    assert r[n - 3..n] == d[n - 3..];
    assert r[n + 5..n + m] == u[..m - 5];
    assert r[n + m..n + 5 + m] == u[m - 5..];
  }
}
