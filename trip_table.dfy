/**
 * The trip table as a value, and the meaning of every gateway query and
 * write over it. The `WHERE` clause of each query is `Matches`; each write
 * is a function from the old table to the new one.
 */
module TripTable {
  import opened Wrappers
  import opened TripEntity

  /** The stored trips in insertion order, with the next ids the store hands out. */
  datatype Store = Store(rows: seq<Trip>, nextId: int, nextWaypointsId: int)

  /** The empty table of a fresh database: ids start at 1. */
  function EmptyStore(): Store { Store([], 1, 1) }

  /** Every stored row carries an id below the next one, and ids are primary keys. */
  predicate WellFormed(s: Store) {
    s.nextId >= 1 && s.nextWaypointsId >= 1 &&
    (forall i :: 0 <= i < |s.rows| ==> StoredRow(s.rows[i], s.nextId, s.nextWaypointsId)) &&
    (forall i, j :: 0 <= i < j < |s.rows| ==>
       s.rows[i].id != s.rows[j].id && s.rows[i].waypoints.id != s.rows[j].waypoints.id)
  }

  predicate StoredRow(t: Trip, nextId: int, nextWaypointsId: int) {
    t.id.Some? && 1 <= t.id.value < nextId &&
    t.waypoints.id.Some? && 1 <= t.waypoints.id.value < nextWaypointsId
  }

  /** Whether some stored row has primary key `id`. */
  predicate HasId(rows: seq<Trip>, id: int) {
    exists i :: 0 <= i < |rows| && rows[i].id == Some(id)
  }

  // ---------------------------------------------------------------- queries

  /** The single-row queries the gateway issues. */
  datatype Query =
    | ById(id: int, driverId: int)
    | BookedTrips(passengerId: int, driverId: int)
    | InProgressByDriver(driverId: int)
    | InProgressByPassenger(passengerId: int)

  /** The `WHERE` clause of each query, clause by clause. */
  predicate Matches(t: Trip, q: Query) {
    match q
    case ById(id, d) =>
      t.id == Some(id) && t.driverId == d
    case BookedTrips(p, d) =>
      t.passengerId == p && t.driverId == d &&
      (t.acceptedAt.None? || t.acceptedAt.Some?) &&
      t.finishedAt.None? && t.canceledAt.None? && t.deletedAt.None?
    case InProgressByDriver(d) =>
      t.driverId == d && t.acceptedAt.Some? &&
      t.finishedAt.None? && t.canceledAt.None? && t.deletedAt.None?
    case InProgressByPassenger(p) =>
      t.passengerId == p && t.acceptedAt.Some? &&
      t.finishedAt.None? && t.canceledAt.None? && t.deletedAt.None?
  }

  /** The first row, in table order, that satisfies the query; absent when none does. */
  function FirstMatch(rows: seq<Trip>, q: Query): (r: Option<Trip>)
    ensures r.Some? <==> exists i :: 0 <= i < |rows| && Matches(rows[i], q)
    ensures r.Some? ==> r.value in rows && Matches(r.value, q)
  {
    if rows == [] then None
    else if Matches(rows[0], q) then Some(rows[0])
    else
      var r := FirstMatch(rows[1..], q);
      assert forall i :: 1 <= i < |rows| ==> rows[i] == rows[1..][i - 1];
      r
  }

  /** The booked-trip query does not look at `acceptedAt`: its clause on it always holds. */
  lemma BookedTripsIgnoresAcceptedAt(t: Trip, p: int, d: int, a: Stamp)
    ensures Matches(t, BookedTrips(p, d)) <==> Matches(t.(acceptedAt := a), BookedTrips(p, d))
    ensures Matches(t, BookedTrips(p, d)) <==> t.passengerId == p && t.driverId == d && IsOpen(t)
  {
  }

  /** The two in-progress queries mean "accepted and not terminal", keyed by one party. */
  lemma InProgressQueries(t: Trip, x: int)
    ensures Matches(t, InProgressByDriver(x)) <==> t.driverId == x && IsInProgress(t)
    ensures Matches(t, InProgressByPassenger(x)) <==> t.passengerId == x && IsInProgress(t)
  {
  }

  /**
   * Looking a trip up by id and driver finds the row with that primary key
   * whatever its lifecycle state: deleted, finished and canceled rows included.
   */
  lemma {:induction false} FindByIdFindsRow(s: Store, i: int, id: int, d: int)
    requires WellFormed(s) && 0 <= i < |s.rows|
    requires s.rows[i].id == Some(id) && s.rows[i].driverId == d
    ensures FirstMatch(s.rows, ById(id, d)) == Some(s.rows[i])
  {
    var r := FirstMatch(s.rows, ById(id, d));
    var j :| 0 <= j < |s.rows| && s.rows[j] == r.value;
    assert s.rows[j].id == s.rows[i].id;
  }

  /** A row with that id but another driver is not found. */
  lemma FindByIdNeedsDriver(s: Store, id: int, d: int)
    requires WellFormed(s)
    requires forall i :: 0 <= i < |s.rows| && s.rows[i].id == Some(id) ==> s.rows[i].driverId != d
    ensures FirstMatch(s.rows, ById(id, d)) == None
  {
  }

  // ---------------------------------------------------------------- writes

  /**
   * Saving a new trip: the trip and its waypoints get the next ids, the row
   * is appended, and the saved trip is returned.
   */
  function Insert(s: Store, t: Trip): (Trip, Store) {
    var saved := t.(id := Some(s.nextId), waypoints := t.waypoints.(id := Some(s.nextWaypointsId)));
    (saved, Store(s.rows + [saved], s.nextId + 1, s.nextWaypointsId + 1))
  }

  /**
   * Insert keeps the table well formed, stores the trip as given under an id
   * no earlier row has, and hands out increasing ids.
   */
  lemma InsertFresh(s: Store, t: Trip)
    requires WellFormed(s)
    requires t.id.None? && t.waypoints.id.None?
    ensures var (saved, s') := Insert(s, t);
      WellFormed(s') &&
      s'.rows == s.rows + [saved] &&
      saved.id == Some(s.nextId) && !HasId(s.rows, s.nextId) &&
      saved.waypoints.id == Some(s.nextWaypointsId) &&
      saved == t.(id := saved.id, waypoints := t.waypoints.(id := saved.waypoints.id)) &&
      s'.nextId == s.nextId + 1
  {
    var (saved, s') := Insert(s, t);
    forall i, j | 0 <= i < j < |s'.rows|
      ensures s'.rows[i].id != s'.rows[j].id && s'.rows[i].waypoints.id != s'.rows[j].waypoints.id
    {
      if j == |s.rows| {
        assert StoredRow(s.rows[i], s.nextId, s.nextWaypointsId);
      }
    }
  }

  /** The rows after a partial update of the row with primary key `id`. */
  function PatchRows(rows: seq<Trip>, id: int, p: TripPatch): seq<Trip> {
    seq(|rows|, i requires 0 <= i < |rows| => if rows[i].id == Some(id) then ApplyPatch(rows[i], p) else rows[i])
  }

  /**
   * Saving `{ id, ...patch }`: the row with that id gets the supplied fields
   * and the id is returned; when no row has it nothing changes.
   */
  function Update(s: Store, id: int, p: TripPatch): (Option<int>, Store) {
    if HasId(s.rows, id) then (Some(id), s.(rows := PatchRows(s.rows, id, p)))
    else (None, s)
  }

  /**
   * Update writes only the supplied fields of row `id`; every other row and
   * every other field is unchanged, and the table stays well formed.
   */
  lemma UpdateEffect(s: Store, id: int, p: TripPatch)
    requires WellFormed(s)
    ensures var (r, s') := Update(s, id, p);
      WellFormed(s') && |s'.rows| == |s.rows| &&
      s'.nextId == s.nextId && s'.nextWaypointsId == s.nextWaypointsId &&
      (r.Some? <==> HasId(s.rows, id)) && (r.Some? ==> r.value == id) &&
      forall i :: 0 <= i < |s.rows| ==>
        s'.rows[i] == if s.rows[i].id == Some(id) then ApplyPatch(s.rows[i], p) else s.rows[i]
  {
  }

  /** The rows a confirmation supersedes, clause by clause of the bulk update. */
  predicate SupersedeTarget(t: Trip, id: int, d: int, p: int) {
    t.id != Some(id) &&
    (t.driverId == d || t.passengerId == p) &&
    t.acceptedAt.None? && t.finishedAt.None? && t.canceledAt.None? && t.deletedAt.None?
  }

  function SupersedeRow(t: Trip, id: int, d: int, p: int, now: Time): Trip {
    if SupersedeTarget(t, id, d, p) then t.(deletedAt := Some(now)) else t
  }

  /** The bulk soft delete: `deletedAt` is set on every target row at once. */
  function Supersede(s: Store, id: int, d: int, p: int, now: Time): Store {
    s.(rows := seq(|s.rows|, i requires 0 <= i < |s.rows| => SupersedeRow(s.rows[i], id, d, p, now)))
  }

  /**
   * What the bulk soft delete does, stated row by row: afterwards no row but
   * `id` that involves driver `d` or passenger `p` is pending; every such row
   * that was pending differs only in `deletedAt`; every other row (row `id`,
   * rows involving neither party, accepted or terminal rows) is unchanged.
   */
  lemma SupersedeEffect(s: Store, id: int, d: int, p: int, now: Time)
    requires WellFormed(s)
    ensures var s' := Supersede(s, id, d, p, now);
      WellFormed(s') && |s'.rows| == |s.rows| &&
      s'.nextId == s.nextId && s'.nextWaypointsId == s.nextWaypointsId &&
      forall i :: 0 <= i < |s.rows| ==>
        (s.rows[i].id != Some(id) && (s.rows[i].driverId == d || s.rows[i].passengerId == p) ==>
           !IsPending(s'.rows[i])) &&
        (IsPending(s.rows[i]) && s.rows[i].id != Some(id) && (s.rows[i].driverId == d || s.rows[i].passengerId == p) ==>
           s'.rows[i] == s.rows[i].(deletedAt := Some(now))) &&
        (!IsPending(s.rows[i]) || s.rows[i].id == Some(id) || (s.rows[i].driverId != d && s.rows[i].passengerId != p) ==>
           s'.rows[i] == s.rows[i])
  {
  }
}
