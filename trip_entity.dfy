/**
 * The Trip and Waypoints records of the booking system and the predicates
 * that read a trip's lifecycle off its four nullable timestamps.
 */
module TripEntity {
  import opened Wrappers

  /** An instant. Only whether a lifecycle timestamp is set is ever tested. */
  type Time = nat

  /** A nullable datetime column. */
  type Stamp = Option<Time>

  /**
   * The route of a trip. The coordinates are floating-point values in the
   * system; here they are only copied, never computed upon.
   * `id` is unset until the store saves the row.
   */
  datatype Waypoints = Waypoints(id: Option<int>, latFrom: real, lonFrom: real, latTo: real, lonTo: real)

  /** One ride request or agreement between a passenger and a driver. */
  datatype Trip = Trip(
    id: Option<int>,
    fare: real,
    driverId: int,
    passengerId: int,
    categoryId: int,
    acceptedAt: Stamp,
    finishedAt: Stamp,
    canceledAt: Stamp,
    deletedAt: Stamp,
    waypoints: Waypoints)

  /** Pending: created and not yet touched by any lifecycle step. */
  predicate IsPending(t: Trip) {
    t.acceptedAt.None? && t.finishedAt.None? && t.canceledAt.None? && t.deletedAt.None?
  }

  /** Accepted and not terminal: the state in which a party is "on a trip". */
  predicate IsInProgress(t: Trip) {
    t.acceptedAt.Some? && t.finishedAt.None? && t.canceledAt.None? && t.deletedAt.None?
  }

  /**
   * Open pairing: not finished, canceled or deleted, whether accepted or not
   * (the reference meaning of a booked trip between a passenger and a driver).
   */
  predicate IsOpen(t: Trip) {
    t.finishedAt.None? && t.canceledAt.None? && t.deletedAt.None?
  }

  /**
   * A partial update of the lifecycle timestamps: a `Some` field is written,
   * a `None` field is not supplied and keeps its stored value.
   */
  datatype TripPatch = TripPatch(acceptedAt: Stamp, finishedAt: Stamp, canceledAt: Stamp, deletedAt: Stamp)

  /** Overwrites exactly the supplied fields of `t`. */
  function ApplyPatch(t: Trip, p: TripPatch): (r: Trip)
    ensures r.id == t.id && r.fare == t.fare && r.driverId == t.driverId
    ensures r.passengerId == t.passengerId && r.categoryId == t.categoryId && r.waypoints == t.waypoints
    ensures r.acceptedAt == (if p.acceptedAt.Some? then p.acceptedAt else t.acceptedAt)
    ensures r.finishedAt == (if p.finishedAt.Some? then p.finishedAt else t.finishedAt)
    ensures r.canceledAt == (if p.canceledAt.Some? then p.canceledAt else t.canceledAt)
    ensures r.deletedAt == (if p.deletedAt.Some? then p.deletedAt else t.deletedAt)
  {
    t.(acceptedAt := Pick(p.acceptedAt, t.acceptedAt),
       finishedAt := Pick(p.finishedAt, t.finishedAt),
       canceledAt := Pick(p.canceledAt, t.canceledAt),
       deletedAt := Pick(p.deletedAt, t.deletedAt))
  }

  /** The supplied value if there is one, else the stored one. */
  function Pick(supplied: Stamp, stored: Stamp): Stamp {
    if supplied.Some? then supplied else stored
  }

  /** The patches the lifecycle issues: one timestamp each. */
  function AcceptPatch(now: Time): TripPatch { TripPatch(Some(now), None, None, None) }
  function FinishPatch(now: Time): TripPatch { TripPatch(None, Some(now), None, None) }
  function CancelPatch(now: Time): TripPatch { TripPatch(None, None, Some(now), None) }
}
