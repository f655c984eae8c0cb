/**
 * The storage gateway of the trip service as an in-memory table. Each query
 * method selects by its `WHERE` clause (`TripTable.Matches`); each write
 * method changes the table as the corresponding `TripTable` function says.
 */
module TripGateway {
  import opened Wrappers
  import opened TripEntity
  import opened TripTable

  class InMemoryTripGateway {
    var rows: seq<Trip>
    var nextId: int
    var nextWaypointsId: int

    /** The table as a value. */
    function Contents(): Store
      reads this
    {
      Store(rows, nextId, nextWaypointsId)
    }

    ghost predicate Valid()
      reads this
    {
      WellFormed(Contents())
    }

    /** A fresh, empty database. */
    constructor ()
      ensures Valid() && Contents() == EmptyStore()
    {
      rows, nextId, nextWaypointsId := [], 1, 1;
    }

    /**
     * Saves a new trip with its waypoints and returns it with the ids it was
     * given. The trip is one not yet stored: neither it nor its waypoints
     * carry an id.
     */
    method Create(trip: Trip) returns (saved: Trip)
      requires Valid()
      requires trip.id.None? && trip.waypoints.id.None?
      modifies this
      ensures Valid()
      ensures (saved, Contents()) == Insert(old(Contents()), trip)
    {
      InsertFresh(Contents(), trip);
      saved := trip.(id := Some(nextId), waypoints := trip.waypoints.(id := Some(nextWaypointsId)));
      rows := rows + [saved];
      nextId, nextWaypointsId := nextId + 1, nextWaypointsId + 1;
    }

    /** Every stored trip, with its waypoints, for any caller. */
    method FindAll() returns (trips: seq<Trip>)
      ensures |trips| == |rows|
      ensures forall i :: 0 <= i < |rows| ==> trips[i] == rows[i]
    {
      trips := rows;
    }

    /** The first row, in table order, that satisfies `q`. */
    method SelectOne(q: Query) returns (r: Option<Trip>)
      ensures r == FirstMatch(rows, q)
      ensures r.Some? <==> exists i :: 0 <= i < |rows| && Matches(rows[i], q)
    {
      var i := 0;
      while i < |rows|
        invariant 0 <= i <= |rows|
        invariant FirstMatch(rows, q) == FirstMatch(rows[i..], q)
      {
        if Matches(rows[i], q) {
          return Some(rows[i]);
        }
        assert rows[i..][1..] == rows[i + 1..];
        i := i + 1;
      }
      return None;
    }

    /** The row with primary key `id` if its driver is `driverId`; no lifecycle filter. */
    method FindById(id: int, driverId: int) returns (r: Option<Trip>)
      ensures r == FirstMatch(rows, ById(id, driverId))
      ensures r.Some? <==> exists i :: 0 <= i < |rows| && rows[i].id == Some(id) && rows[i].driverId == driverId
      ensures r.Some? ==> r.value in rows && r.value.id == Some(id) && r.value.driverId == driverId
    {
      r := SelectOne(ById(id, driverId));
    }

    /** A trip between this passenger and driver that is not finished, canceled or deleted. */
    method FindBookedTrips(passengerId: int, driverId: int) returns (r: Option<Trip>)
      ensures r == FirstMatch(rows, BookedTrips(passengerId, driverId))
      ensures r.Some? <==>
                (exists i :: 0 <= i < |rows| &&
                   rows[i].passengerId == passengerId && rows[i].driverId == driverId && IsOpen(rows[i]))
      ensures r.Some? ==>
                r.value in rows && r.value.passengerId == passengerId && r.value.driverId == driverId && IsOpen(r.value)
    {
      r := SelectOne(BookedTrips(passengerId, driverId));
    }

    /** An accepted, non-terminal trip of this driver. */
    method FindInProgressTripByDriverId(driverId: int) returns (r: Option<Trip>)
      ensures r == FirstMatch(rows, InProgressByDriver(driverId))
      ensures r.Some? <==> exists i :: 0 <= i < |rows| && rows[i].driverId == driverId && IsInProgress(rows[i])
      ensures r.Some? ==> r.value in rows && r.value.driverId == driverId && IsInProgress(r.value)
    {
      r := SelectOne(InProgressByDriver(driverId));
    }

    /** An accepted, non-terminal trip of this passenger. */
    method FindInProgressTripByPassengerId(passengerId: int) returns (r: Option<Trip>)
      ensures r == FirstMatch(rows, InProgressByPassenger(passengerId))
      ensures r.Some? <==> exists i :: 0 <= i < |rows| && rows[i].passengerId == passengerId && IsInProgress(rows[i])
      ensures r.Some? ==> r.value in rows && r.value.passengerId == passengerId && IsInProgress(r.value)
    {
      r := SelectOne(InProgressByPassenger(passengerId));
    }

    /** Writes the supplied timestamp fields of row `id` and returns `id`; a missing id writes nothing. */
    method Update(id: int, patch: TripPatch) returns (updated: Option<int>)
      requires Valid()
      modifies this
      ensures Valid()
      ensures (updated, Contents()) == TripTable.Update(old(Contents()), id, patch)
    {
      UpdateEffect(Contents(), id, patch);
      var i := 0;
      while i < |rows|
        invariant 0 <= i <= |rows|
        invariant forall k :: 0 <= k < i ==> rows[k].id != Some(id)
      {
        if rows[i].id == Some(id) {
          ghost var before := rows;
          rows := rows[i := ApplyPatch(rows[i], patch)];
          assert rows == PatchRows(before, id, patch) by {
            forall k | 0 <= k < |before| && k != i
              ensures before[k].id != Some(id)
            {
              assert StoredRow(before[k], nextId, nextWaypointsId);
            }
          }
          return Some(id);
        }
        i := i + 1;
      }
      return None;
    }

    /**
     * Sets `deletedAt` on every pending row other than `id` that involves
     * driver `driverId` or passenger `passengerId`.
     */
    method SoftDeletePendingTripsExceptCurrentOne(id: int, driverId: int, passengerId: int, now: Time)
      requires Valid()
      modifies this
      ensures Valid()
      ensures Contents() == Supersede(old(Contents()), id, driverId, passengerId, now)
    {
      SupersedeEffect(Contents(), id, driverId, passengerId, now);
      var i := 0;
      while i < |rows|
        invariant 0 <= i <= |rows| == |old(rows)|
        invariant nextId == old(nextId) && nextWaypointsId == old(nextWaypointsId)
        invariant forall k :: 0 <= k < i ==> rows[k] == SupersedeRow(old(rows)[k], id, driverId, passengerId, now)
        invariant forall k :: i <= k < |rows| ==> rows[k] == old(rows)[k]
      {
        if SupersedeTarget(rows[i], id, driverId, passengerId) {
          rows := rows[i := rows[i].(deletedAt := Some(now))];
        }
        i := i + 1;
      }
    }
  }
}
