/**
 * The rules of the trip service as functions from the table before an
 * operation to its result and the table after it. Checks run in the order
 * the service issues them and every check precedes every write, so a failed
 * operation returns the table it was given.
 */
module TripRules {
  import opened Wrappers
  import opened TripEntity
  import opened TripTable

  /** NotFound and Forbidden carry the service's fixed messages. */
  datatype Error =
    | NotFound(message: string)
    | Forbidden(message: string)
      /** A create request without waypoints: building its Waypoints value throws after the checks. */
    | MissingWaypoints

  const TripNotFoundMessage: string := "Trip was not found"
  const AlreadyBookedMessage: string := "Passenger already book a trip with this driver"
  const DriverBusyMessage: string := "Driver is already on a trip"
  const PassengerBusyMessage: string := "Passenger is already on a trip"
  const NotAbleToFinishOrCancelMessage: string := "Trip is not accepted or is already finished or canceled"

  /** The create request body; its `passengerId`, if any, is overridden by the actor. */
  datatype CreateTripDto = CreateTripDto(
    passengerId: int, driverId: int, categoryId: int, fare: real, waypoints: Option<Waypoints>)

  // ------------------------------------------------ reference definitions

  /** Driver `d` owns trip `id`. */
  predicate OwnsTrip(rows: seq<Trip>, id: int, d: int) {
    exists i :: 0 <= i < |rows| && rows[i].id == Some(id) && rows[i].driverId == d
  }

  /** Passenger `p` has an open pairing with driver `d`. */
  predicate PassengerBookedDriver(rows: seq<Trip>, p: int, d: int) {
    exists i :: 0 <= i < |rows| && rows[i].passengerId == p && rows[i].driverId == d && IsOpen(rows[i])
  }

  /** Driver `d` is on an accepted, non-terminal trip. */
  predicate DriverIsOnATrip(rows: seq<Trip>, d: int) {
    exists i :: 0 <= i < |rows| && rows[i].driverId == d && IsInProgress(rows[i])
  }

  /** Passenger `p` is on an accepted, non-terminal trip. */
  predicate PassengerIsOnATrip(rows: seq<Trip>, p: int) {
    exists i :: 0 <= i < |rows| && rows[i].passengerId == p && IsInProgress(rows[i])
  }

  // ------------------------------------------------ the service's steps

  /** Looks a trip up by id, scoped to the actor as its driver. */
  function FindOne(s: Store, actor: int, id: int): Result<Trip, Error> {
    match FirstMatch(s.rows, ById(id, actor))
    case None => Err(NotFound(TripNotFoundMessage))
    case Some(t) => Ok(t)
  }

  function VerifyIfDriverIsOnATrip(s: Store, driverId: int): Outcome<Error> {
    if FirstMatch(s.rows, InProgressByDriver(driverId)).Some? then Fail(Forbidden(DriverBusyMessage)) else Pass
  }

  function VerifyIfPassengerIsOnATrip(s: Store, passengerId: int): Outcome<Error> {
    if FirstMatch(s.rows, InProgressByPassenger(passengerId)).Some? then Fail(Forbidden(PassengerBusyMessage)) else Pass
  }

  function VerifyIfPassengerAlreadyBookThisTrip(s: Store, passengerId: int, driverId: int): Outcome<Error> {
    if FirstMatch(s.rows, BookedTrips(passengerId, driverId)).Some? then Fail(Forbidden(AlreadyBookedMessage)) else Pass
  }

  /** Rejects a trip that is not accepted, or is finished, canceled or deleted. */
  function VerifyIfIsAbleToFinishOrCancel(t: Trip): (r: Outcome<Error>)
    ensures r.Pass? <==> IsInProgress(t)
    ensures r.Fail? ==> r.error == Forbidden(NotAbleToFinishOrCancelMessage)
  {
    if t.acceptedAt.None? || t.finishedAt.Some? || t.canceledAt.Some? || t.deletedAt.Some? then
      Fail(Forbidden(NotAbleToFinishOrCancelMessage))
    else Pass
  }

  /** The three create checks, in order; the first that fails decides the error. */
  function IsAbleToCreate(s: Store, actor: int, dto: CreateTripDto): Outcome<Error> {
    var booked := VerifyIfPassengerAlreadyBookThisTrip(s, actor, dto.driverId);
    if booked.Fail? then booked
    else
      var driver := VerifyIfDriverIsOnATrip(s, dto.driverId);
      if driver.Fail? then driver
      else VerifyIfPassengerIsOnATrip(s, actor)
  }

  /** The new trip entity: request fields, the actor as passenger, a copy of the route. */
  function NewTrip(actor: int, dto: CreateTripDto, w: Waypoints): Trip {
    Trip(None, dto.fare, dto.driverId, actor, dto.categoryId, None, None, None, None,
         Waypoints(None, w.latFrom, w.lonFrom, w.latTo, w.lonTo))
  }

  /** Books a trip for the actor as passenger. */
  function Create(s: Store, actor: int, dto: CreateTripDto): (Result<Trip, Error>, Store) {
    match IsAbleToCreate(s, actor, dto)
    case Fail(e) => (Err(e), s)
    case Pass =>
      match dto.waypoints
      case None => (Err(MissingWaypoints), s)
      case Some(w) =>
        var (saved, s') := Insert(s, NewTrip(actor, dto, w));
        (Ok(saved), s')
  }

  /** The confirm checks: ownership, then the driver, then the trip's passenger. */
  function IsAbleToConfirm(s: Store, actor: int, id: int): Result<Trip, Error> {
    match FindOne(s, actor, id)
    case Err(e) => Err(e)
    case Ok(trip) =>
      match VerifyIfDriverIsOnATrip(s, actor)
      case Fail(e) => Err(e)
      case Pass =>
        match VerifyIfPassengerIsOnATrip(s, trip.passengerId)
        case Fail(e) => Err(e)
        case Pass => Ok(trip)
  }

  /** The driver accepts a trip: rival pending trips are superseded, then the trip is accepted. */
  function Confirm(s: Store, actor: int, id: int, now: Time): (Outcome<Error>, Store) {
    match IsAbleToConfirm(s, actor, id)
    case Err(e) => (Fail(e), s)
    case Ok(trip) =>
      var superseded := Supersede(s, id, actor, trip.passengerId, now);
      (Pass, Update(superseded, id, AcceptPatch(now)).1)
  }

  /** The shared guard of finish and cancel. */
  function IsAbleToFinishOrCancel(s: Store, actor: int, id: int): Outcome<Error> {
    match FindOne(s, actor, id)
    case Err(e) => Fail(e)
    case Ok(trip) => VerifyIfIsAbleToFinishOrCancel(trip)
  }

  function Finish(s: Store, actor: int, id: int, now: Time): (Outcome<Error>, Store) {
    match IsAbleToFinishOrCancel(s, actor, id)
    case Fail(e) => (Fail(e), s)
    case Pass => (Pass, Update(s, id, FinishPatch(now)).1)
  }

  function Cancel(s: Store, actor: int, id: int, now: Time): (Outcome<Error>, Store) {
    match IsAbleToFinishOrCancel(s, actor, id)
    case Fail(e) => (Fail(e), s)
    case Pass => (Pass, Update(s, id, CancelPatch(now)).1)
  }

  // ------------------------------------------------ properties

  /** Trip lookup succeeds exactly on a trip the actor drives, whoever else owns that id. */
  lemma FindOneScopedToDriver(s: Store, actor: int, id: int)
    requires WellFormed(s)
    ensures FindOne(s, actor, id).Ok? <==> OwnsTrip(s.rows, id, actor)
    ensures FindOne(s, actor, id).Err? ==> FindOne(s, actor, id).error == NotFound(TripNotFoundMessage)
    ensures forall i :: 0 <= i < |s.rows| && s.rows[i].id == Some(id) && s.rows[i].driverId == actor ==>
              FindOne(s, actor, id) == Ok(s.rows[i])
  {
    forall i | 0 <= i < |s.rows| && s.rows[i].id == Some(id) && s.rows[i].driverId == actor
      ensures FindOne(s, actor, id) == Ok(s.rows[i])
    {
      FindByIdFindsRow(s, i, id, actor);
    }
  }

  /** Create's checks in their order; the first violated one names the error. */
  lemma CreateChecksInOrder(s: Store, actor: int, dto: CreateTripDto)
    ensures var r := Create(s, actor, dto).0;
      var booked := PassengerBookedDriver(s.rows, actor, dto.driverId);
      var driverBusy := DriverIsOnATrip(s.rows, dto.driverId);
      var passengerBusy := PassengerIsOnATrip(s.rows, actor);
      (r == Err(Forbidden(AlreadyBookedMessage)) <==> booked) &&
      (r == Err(Forbidden(DriverBusyMessage)) <==> !booked && driverBusy) &&
      (r == Err(Forbidden(PassengerBusyMessage)) <==> !booked && !driverBusy && passengerBusy) &&
      (r == Err(MissingWaypoints) <==> !booked && !driverBusy && !passengerBusy && dto.waypoints.None?) &&
      (r.Ok? <==> !booked && !driverBusy && !passengerBusy && dto.waypoints.Some?)
  {
    var rows := s.rows;
    assert FirstMatch(rows, BookedTrips(actor, dto.driverId)).Some? <==> PassengerBookedDriver(rows, actor, dto.driverId);
    assert FirstMatch(rows, InProgressByDriver(dto.driverId)).Some? <==> DriverIsOnATrip(rows, dto.driverId);
    assert FirstMatch(rows, InProgressByPassenger(actor)).Some? <==> PassengerIsOnATrip(rows, actor);
  }

  /**
   * A successful create appends exactly one pending trip, under a fresh id,
   * carrying the actor as passenger and the request's driver, fare, category
   * and route.
   */
  lemma CreateStoresPendingTrip(s: Store, actor: int, dto: CreateTripDto)
    requires WellFormed(s)
    ensures var (r, s') := Create(s, actor, dto);
      WellFormed(s') &&
      (r.Err? ==> s' == s) &&
      (r.Ok? ==>
         var t := r.value;
         var w := dto.waypoints.value;
         s'.rows == s.rows + [t] &&
         t.id == Some(s.nextId) && !HasId(s.rows, s.nextId) && s'.nextId == s.nextId + 1 &&
         t.passengerId == actor && t.driverId == dto.driverId &&
         t.fare == dto.fare && t.categoryId == dto.categoryId &&
         t.waypoints == Waypoints(Some(s.nextWaypointsId), w.latFrom, w.lonFrom, w.latTo, w.lonTo) &&
         IsPending(t))
  {
    if IsAbleToCreate(s, actor, dto).Pass? && dto.waypoints.Some? {
      InsertFresh(s, NewTrip(actor, dto, dto.waypoints.value));
    }
  }

  /**
   * Confirm's checks in their order: the trip must be the actor's, the actor
   * must not be on a trip, then the trip's passenger must not be. Whether the
   * trip is still pending is not checked.
   */
  lemma ConfirmChecksInOrder(s: Store, actor: int, id: int, now: Time)
    requires WellFormed(s)
    ensures var r := Confirm(s, actor, id, now).0;
      (r == Fail(NotFound(TripNotFoundMessage)) <==> !OwnsTrip(s.rows, id, actor)) &&
      (r == Fail(Forbidden(DriverBusyMessage)) <==> OwnsTrip(s.rows, id, actor) && DriverIsOnATrip(s.rows, actor)) &&
      forall i :: 0 <= i < |s.rows| && s.rows[i].id == Some(id) && s.rows[i].driverId == actor ==>
        (r == Fail(Forbidden(PassengerBusyMessage)) <==>
           !DriverIsOnATrip(s.rows, actor) && PassengerIsOnATrip(s.rows, s.rows[i].passengerId)) &&
        (r.Pass? <==> !DriverIsOnATrip(s.rows, actor) && !PassengerIsOnATrip(s.rows, s.rows[i].passengerId))
  {
    FindOneScopedToDriver(s, actor, id);
    assert FirstMatch(s.rows, InProgressByDriver(actor)).Some? <==> DriverIsOnATrip(s.rows, actor);
    forall i | 0 <= i < |s.rows| && s.rows[i].id == Some(id) && s.rows[i].driverId == actor
      ensures FirstMatch(s.rows, InProgressByPassenger(s.rows[i].passengerId)).Some? <==>
                PassengerIsOnATrip(s.rows, s.rows[i].passengerId)
    {
    }
  }

  /**
   * After a successful confirm of row `i`: that row is accepted and nothing
   * else about it changes; every other pending row that shares its driver or
   * its passenger is soft-deleted; every other row is unchanged.
   */
  lemma ConfirmEffect(s: Store, actor: int, id: int, now: Time, i: int)
    requires WellFormed(s) && 0 <= i < |s.rows|
    requires s.rows[i].id == Some(id) && s.rows[i].driverId == actor
    requires Confirm(s, actor, id, now).0.Pass?
    ensures var s' := Confirm(s, actor, id, now).1;
      var p := s.rows[i].passengerId;
      WellFormed(s') && |s'.rows| == |s.rows| &&
      s'.nextId == s.nextId && s'.nextWaypointsId == s.nextWaypointsId &&
      s'.rows[i] == s.rows[i].(acceptedAt := Some(now)) &&
      forall j :: 0 <= j < |s.rows| && j != i ==>
        s'.rows[j] == if IsPending(s.rows[j]) && (s.rows[j].driverId == actor || s.rows[j].passengerId == p)
                      then s.rows[j].(deletedAt := Some(now))
                      else s.rows[j]
  {
    FindOneScopedToDriver(s, actor, id);
    var p := s.rows[i].passengerId;
    var s1 := Supersede(s, id, actor, p, now);
    SupersedeEffect(s, id, actor, p, now);
    UpdateEffect(s1, id, AcceptPatch(now));
    forall j | 0 <= j < |s.rows| && j != i
      ensures s.rows[j].id != Some(id)
    {
      assert StoredRow(s.rows[j], s.nextId, s.nextWaypointsId);
    }
  }

  /** Finish and cancel share one guard: the actor's trip, accepted and not terminal. */
  lemma FinishOrCancelGuard(s: Store, actor: int, id: int, now: Time)
    requires WellFormed(s)
    ensures var r := IsAbleToFinishOrCancel(s, actor, id);
      r == Finish(s, actor, id, now).0 && r == Cancel(s, actor, id, now).0 &&
      (r == Fail(NotFound(TripNotFoundMessage)) <==> !OwnsTrip(s.rows, id, actor)) &&
      forall i :: 0 <= i < |s.rows| && s.rows[i].id == Some(id) && s.rows[i].driverId == actor ==>
        (r.Pass? <==> IsInProgress(s.rows[i])) &&
        (r.Fail? <==> r == Fail(Forbidden(NotAbleToFinishOrCancelMessage)) && !IsInProgress(s.rows[i]))
  {
    FindOneScopedToDriver(s, actor, id);
  }

  /**
   * A successful finish (or cancel) sets only `finishedAt` (or `canceledAt`)
   * of the one trip; a failed one changes nothing.
   */
  lemma FinishOrCancelEffect(s: Store, actor: int, id: int, now: Time, i: int)
    requires WellFormed(s) && 0 <= i < |s.rows|
    requires s.rows[i].id == Some(id)
    ensures var (r, s') := Finish(s, actor, id, now);
      WellFormed(s') &&
      (r.Fail? ==> s' == s) &&
      (r.Pass? ==> s' == s.(rows := s.rows[i := s.rows[i].(finishedAt := Some(now))]))
    ensures var (r, s') := Cancel(s, actor, id, now);
      WellFormed(s') &&
      (r.Fail? ==> s' == s) &&
      (r.Pass? ==> s' == s.(rows := s.rows[i := s.rows[i].(canceledAt := Some(now))]))
  {
    UpdateEffect(s, id, FinishPatch(now));
    UpdateEffect(s, id, CancelPatch(now));
    forall j | 0 <= j < |s.rows| && j != i
      ensures s.rows[j].id != Some(id)
    {
      assert StoredRow(s.rows[j], s.nextId, s.nextWaypointsId);
    }
  }

  /** Once finished or canceled, a trip can be neither finished nor canceled again. */
  lemma TerminalIsFinal(s: Store, actor: int, id: int, now: Time, later: Time, finishFirst: bool)
    requires WellFormed(s)
    requires (if finishFirst then Finish(s, actor, id, now) else Cancel(s, actor, id, now)).0.Pass?
    ensures var s' := (if finishFirst then Finish(s, actor, id, now) else Cancel(s, actor, id, now)).1;
      Finish(s', actor, id, later).0 == Fail(Forbidden(NotAbleToFinishOrCancelMessage)) &&
      Cancel(s', actor, id, later).0 == Fail(Forbidden(NotAbleToFinishOrCancelMessage))
  {
    FindOneScopedToDriver(s, actor, id);
    var i :| 0 <= i < |s.rows| && s.rows[i].id == Some(id) && s.rows[i].driverId == actor;
    FinishOrCancelEffect(s, actor, id, now, i);
    var s' := (if finishFirst then Finish(s, actor, id, now) else Cancel(s, actor, id, now)).1;
    assert s'.rows[i].id == Some(id) && s'.rows[i].driverId == actor && !IsInProgress(s'.rows[i]);
    FinishOrCancelGuard(s', actor, id, later);
  }

  /** Every operation that fails leaves the table as it was. */
  lemma FailureChangesNothing(s: Store, actor: int, id: int, dto: CreateTripDto, now: Time)
    ensures Create(s, actor, dto).0.Err? ==> Create(s, actor, dto).1 == s
    ensures Confirm(s, actor, id, now).0.Fail? ==> Confirm(s, actor, id, now).1 == s
    ensures Finish(s, actor, id, now).0.Fail? ==> Finish(s, actor, id, now).1 == s
    ensures Cancel(s, actor, id, now).0.Fail? ==> Cancel(s, actor, id, now).1 == s
  {
  }
}
