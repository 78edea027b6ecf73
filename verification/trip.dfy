/**
  The Trip record shown on the trips screen, its star flag, and the route
  marker rule the map uses for the selected trip.
 */
module TripModel {

  import opened Options

  /** Stands for the trip's UUID; only equality of ids matters. */
  type TripId = nat

  /** A point in time, in seconds. */
  type Date = real

  datatype Coordinate = Coordinate(latitude: real, longitude: real)

  datatype Trip = Trip(
    id: TripId,
    startLocationName: string,
    endLocationName: string,
    startDate: Date,
    endDate: Date,
    distanceKM: real,
    durationMinutes: int,
    route: seq<Coordinate>,
    hardBraking: int,
    hardAcceleration: int,
    sharpTurns: int,
    isStarred: bool)

  /** The trip with its star flag flipped. */
  function ToggledStar(t: Trip): (r: Trip)
    ensures r.isStarred == !t.isStarred
    ensures r != t
    ensures r.(isStarred := t.isStarred) == t
  {
    t.(isStarred := !t.isStarred)
  }

  /** Flipping the star flag twice gives back the trip. */
  lemma ToggledStarTwice(t: Trip)
    ensures ToggledStar(ToggledStar(t)) == t
  {
  }

  /** Where the start marker goes: the first route point, none for an empty route. */
  function StartMarker(route: seq<Coordinate>): (r: Option<Coordinate>)
    ensures r.None? <==> route == []
    ensures r.Some? ==> r.value == route[0]
  {
    if route == [] then None else Some(route[0])
  }

  /** Where the end marker goes: the last route point, none for an empty route. */
  function EndMarker(route: seq<Coordinate>): (r: Option<Coordinate>)
    ensures r.None? <==> route == []
    ensures r.Some? ==> r.value == route[|route| - 1]
  {
    if route == [] then None else Some(route[|route| - 1])
  }

  /** A one-point route puts both markers on the same point. */
  lemma MarkersOfSinglePointRoute(c: Coordinate)
    ensures StartMarker([c]) == EndMarker([c]) == Some(c)
  {
  }
}
