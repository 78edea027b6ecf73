/**
  The stored trip collection and the star toggle applied to it. A trip is
  looked up by whole-value equality, the first equal element wins, and a trip
  that is not stored is silently ignored.
 */
module TripStore {

  import opened Options
  import opened TripModel

  /** Position of the first element equal to `trip`, if there is one. */
  function FirstIndexOf(trips: seq<Trip>, trip: Trip): (r: Option<nat>)
    ensures r.None? <==> trip !in trips
    ensures r.Some? ==> r.value < |trips| && trips[r.value] == trip && trip !in trips[..r.value]
    decreases |trips|
  {
    if trips == [] then None
    else if trips[0] == trip then Some(0)
    else
      match FirstIndexOf(trips[1..], trip)
      case None => None
      case Some(i) =>
        assert trips[..i + 1] == [trips[0]] + trips[1..][..i];
        Some(i + 1)
  }

  /**
    The collection after the star of `trip` is tapped: the star flag of its
    first occurrence is flipped; nothing happens when it is not stored.
   */
  function ToggleStar(trips: seq<Trip>, trip: Trip): (r: seq<Trip>)
    ensures |r| == |trips|
    ensures trip !in trips ==> r == trips
    ensures forall i :: 0 <= i < |trips| ==>
              (r[i] != trips[i] <==> trips[i] == trip && trip !in trips[..i])
    ensures forall i :: 0 <= i < |trips| && r[i] != trips[i] ==> r[i] == ToggledStar(trips[i])
    ensures forall i :: 0 <= i < |trips| ==> r[i].(isStarred := trips[i].isStarred) == trips[i]
  {
    match FirstIndexOf(trips, trip)
    case None => trips
    case Some(k) =>
      assert forall i :: k < i < |trips| ==> trip in trips[..i] by {
        forall i | k < i < |trips| ensures trip in trips[..i] {
          assert trips[..i][k] == trip;
        }
      }
      trips[k := ToggledStar(trips[k])]
  }

  /** The ids of the stored trips, in order. */
  function Ids(trips: seq<Trip>): (r: seq<TripId>)
    ensures |r| == |trips|
    ensures forall i :: 0 <= i < |trips| ==> r[i] == trips[i].id
  {
    seq(|trips|, i requires 0 <= i < |trips| => trips[i].id)
  }

  /** No two stored trips share an id. */
  predicate UniqueIds(trips: seq<Trip>)
  {
    forall i, j :: 0 <= i < j < |trips| ==> trips[i].id != trips[j].id
  }

  /** Toggling never changes which trip sits where, only star flags. */
  lemma ToggleKeepsIds(trips: seq<Trip>, trip: Trip)
    ensures Ids(ToggleStar(trips, trip)) == Ids(trips)
    ensures UniqueIds(trips) ==> UniqueIds(ToggleStar(trips, trip))
  {
    var r := ToggleStar(trips, trip);
    assert forall i :: 0 <= i < |trips| ==> r[i].id == trips[i].id by {
      forall i | 0 <= i < |trips| ensures r[i].id == trips[i].id {
        assert r[i].(isStarred := trips[i].isStarred) == trips[i];
      }
    }
  }

  /** With unique ids a stored trip's toggled copy is not stored as well. */
  lemma UniqueIdsExcludeToggledCopy(trips: seq<Trip>, trip: Trip)
    requires UniqueIds(trips)
    requires trip in trips
    ensures ToggledStar(trip) !in trips
  {
    var i :| 0 <= i < |trips| && trips[i] == trip;
    forall j | 0 <= j < |trips| ensures trips[j] != ToggledStar(trip) {
      if j != i {
        assert trips[j].id != trips[i].id;
      }
    }
  }

  /**
    Tapping the star again, on the row now showing the toggled trip, restores
    the collection, provided the toggled copy was not already stored.
   */
  lemma ToggleTwiceRestores(trips: seq<Trip>, trip: Trip)
    requires ToggledStar(trip) !in trips
    ensures ToggleStar(ToggleStar(trips, trip), ToggledStar(trip)) == trips
  {
    var once := ToggleStar(trips, trip);
    var back := ToggleStar(once, ToggledStar(trip));
    if trip in trips {
      var k := FirstIndexOf(trips, trip).value;
      assert once[k] == ToggledStar(trip);
      assert forall i :: 0 <= i < k ==> once[i] == trips[i] by {
        forall i | 0 <= i < k ensures once[i] == trips[i] {
          assert trips[..k][i] == trips[i];
        }
      }
      assert ToggledStar(trip) !in once[..k];
      assert FirstIndexOf(once, ToggledStar(trip)) == Some(k);
      assert back == once[k := ToggledStar(once[k])];
      ToggledStarTwice(trip);
      assert back == trips;
    } else {
      assert once == trips;
    }
  }

  /** With unique ids, tapping a stored trip's star twice restores the collection. */
  lemma ToggleTwiceRestoresUnique(trips: seq<Trip>, trip: Trip)
    requires UniqueIds(trips)
    requires trip in trips
    ensures ToggleStar(ToggleStar(trips, trip), ToggledStar(trip)) == trips
  {
    UniqueIdsExcludeToggledCopy(trips, trip);
    ToggleTwiceRestores(trips, trip);
  }
}
