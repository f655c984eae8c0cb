/**
 * The trip service: each operation queries the gateway, fails on the first
 * violated check, then writes through the gateway. Each method is proved to
 * behave as a function of the table: mostly the function of the same name in
 * `TripRules`; `IsAbleToFinish` and `IsAbleToCancel` as the shared guard
 * `TripRules.IsAbleToFinishOrCancel`; the bulk soft delete as
 * `TripTable.Supersede`.
 */
module TripService {
  import opened Wrappers
  import opened TripEntity
  import opened TripTable
  import opened TripGateway
  import TripRules

  class TripService {
    const gateway: InMemoryTripGateway

    constructor (gateway: InMemoryTripGateway)
      ensures this.gateway == gateway
    {
      this.gateway := gateway;
    }

    /** Every trip in the store, whoever asks. */
    method FindAll(actor: int) returns (trips: seq<Trip>)
      ensures trips == gateway.rows
    {
      trips := gateway.FindAll();
    }

    method FindOne(actor: int, id: int) returns (r: Result<Trip, TripRules.Error>)
      ensures r == TripRules.FindOne(gateway.Contents(), actor, id)
      ensures r.Ok? <==> TripRules.OwnsTrip(gateway.rows, id, actor)
      ensures r.Ok? ==> r.value in gateway.rows && r.value.id == Some(id) && r.value.driverId == actor
    {
      var trip := gateway.FindById(id, actor);
      if trip.None? {
        return Err(TripRules.NotFound(TripRules.TripNotFoundMessage));
      }
      return Ok(trip.value);
    }

    method Create(actor: int, dto: TripRules.CreateTripDto) returns (r: Result<Trip, TripRules.Error>)
      requires gateway.Valid()
      modifies gateway
      ensures gateway.Valid()
      ensures (r, gateway.Contents()) == TripRules.Create(old(gateway.Contents()), actor, dto)
    {
      TripRules.CreateStoresPendingTrip(gateway.Contents(), actor, dto);
      var check := IsAbleToCreate(actor, dto);
      if check.Fail? {
        return Err(check.error);
      }
      if dto.waypoints.None? {
        return Err(TripRules.MissingWaypoints);
      }
      var trip := TripRules.NewTrip(actor, dto, dto.waypoints.value);
      var saved := gateway.Create(trip);
      return Ok(saved);
    }

    method IsAbleToCreate(actor: int, dto: TripRules.CreateTripDto) returns (r: Outcome<TripRules.Error>)
      ensures r == TripRules.IsAbleToCreate(gateway.Contents(), actor, dto)
      ensures r.Pass? <==>
                !TripRules.PassengerBookedDriver(gateway.rows, actor, dto.driverId) &&
                !TripRules.DriverIsOnATrip(gateway.rows, dto.driverId) &&
                !TripRules.PassengerIsOnATrip(gateway.rows, actor)
    {
      TripRules.CreateChecksInOrder(gateway.Contents(), actor, dto.(waypoints := None));
      r := VerifyIfPassengerAlreadyBookThisTrip(actor, dto.driverId);
      if r.Fail? { return; }
      r := VerifyIfDriverIsOnATrip(dto.driverId);
      if r.Fail? { return; }
      r := VerifyIfPassengerIsOnATrip(actor);
    }

    method Finish(actor: int, id: int, now: Time) returns (r: Outcome<TripRules.Error>)
      requires gateway.Valid()
      modifies gateway
      ensures gateway.Valid()
      ensures (r, gateway.Contents()) == TripRules.Finish(old(gateway.Contents()), actor, id, now)
    {
      r := IsAbleToFinish(actor, id);
      if r.Fail? { return; }
      UpdateEffect(gateway.Contents(), id, FinishPatch(now));
      var _ := gateway.Update(id, FinishPatch(now));
    }

    method IsAbleToFinish(actor: int, id: int) returns (r: Outcome<TripRules.Error>)
      requires gateway.Valid()
      ensures r == TripRules.IsAbleToFinishOrCancel(gateway.Contents(), actor, id)
      ensures r.Pass? <==>
                (exists i :: 0 <= i < |gateway.rows| &&
                   gateway.rows[i].id == Some(id) && gateway.rows[i].driverId == actor && IsInProgress(gateway.rows[i]))
    {
      TripRules.FindOneScopedToDriver(gateway.Contents(), actor, id);
      var trip := FindOne(actor, id);
      if trip.Err? { return Fail(trip.error); }
      r := TripRules.VerifyIfIsAbleToFinishOrCancel(trip.value);
    }

    method Confirm(actor: int, id: int, now: Time) returns (r: Outcome<TripRules.Error>)
      requires gateway.Valid()
      modifies gateway
      ensures gateway.Valid()
      ensures (r, gateway.Contents()) == TripRules.Confirm(old(gateway.Contents()), actor, id, now)
    {
      var trip := IsAbleToConfirm(actor, id);
      if trip.Err? { return Fail(trip.error); }
      SoftDeleteAllPendingTripsExceptCurrentAcceptedOne(id, actor, trip.value.passengerId, now);
      UpdateEffect(gateway.Contents(), id, AcceptPatch(now));
      var _ := gateway.Update(id, AcceptPatch(now));
      return Pass;
    }

    method IsAbleToConfirm(actor: int, id: int) returns (r: Result<Trip, TripRules.Error>)
      ensures r == TripRules.IsAbleToConfirm(gateway.Contents(), actor, id)
      ensures r.Ok? ==>
                r.value in gateway.rows && r.value.id == Some(id) && r.value.driverId == actor &&
                !TripRules.DriverIsOnATrip(gateway.rows, actor) &&
                !TripRules.PassengerIsOnATrip(gateway.rows, r.value.passengerId)
    {
      var trip := FindOne(actor, id);
      if trip.Err? { return Err(trip.error); }
      var driver := VerifyIfDriverIsOnATrip(actor);
      if driver.Fail? { return Err(driver.error); }
      var passenger := VerifyIfPassengerIsOnATrip(trip.value.passengerId);
      if passenger.Fail? { return Err(passenger.error); }
      return trip;
    }

    method Cancel(actor: int, id: int, now: Time) returns (r: Outcome<TripRules.Error>)
      requires gateway.Valid()
      modifies gateway
      ensures gateway.Valid()
      ensures (r, gateway.Contents()) == TripRules.Cancel(old(gateway.Contents()), actor, id, now)
    {
      r := IsAbleToCancel(actor, id);
      if r.Fail? { return; }
      UpdateEffect(gateway.Contents(), id, CancelPatch(now));
      var _ := gateway.Update(id, CancelPatch(now));
    }

    method IsAbleToCancel(actor: int, id: int) returns (r: Outcome<TripRules.Error>)
      requires gateway.Valid()
      ensures r == TripRules.IsAbleToFinishOrCancel(gateway.Contents(), actor, id)
      ensures r.Pass? <==>
                (exists i :: 0 <= i < |gateway.rows| &&
                   gateway.rows[i].id == Some(id) && gateway.rows[i].driverId == actor && IsInProgress(gateway.rows[i]))
    {
      TripRules.FindOneScopedToDriver(gateway.Contents(), actor, id);
      var trip := FindOne(actor, id);
      if trip.Err? { return Fail(trip.error); }
      r := TripRules.VerifyIfIsAbleToFinishOrCancel(trip.value);
    }

    method SoftDeleteAllPendingTripsExceptCurrentAcceptedOne(id: int, driverId: int, passengerId: int, now: Time)
      requires gateway.Valid()
      modifies gateway
      ensures gateway.Valid()
      ensures gateway.Contents() == Supersede(old(gateway.Contents()), id, driverId, passengerId, now)
    {
      gateway.SoftDeletePendingTripsExceptCurrentOne(id, driverId, passengerId, now);
    }

    method VerifyIfDriverIsOnATrip(driverId: int) returns (r: Outcome<TripRules.Error>)
      ensures r == TripRules.VerifyIfDriverIsOnATrip(gateway.Contents(), driverId)
      ensures r.Fail? <==> TripRules.DriverIsOnATrip(gateway.rows, driverId)
      ensures r.Fail? ==> r.error == TripRules.Forbidden(TripRules.DriverBusyMessage)
    {
      var isOnATrip := gateway.FindInProgressTripByDriverId(driverId);
      if isOnATrip.Some? { return Fail(TripRules.Forbidden(TripRules.DriverBusyMessage)); }
      return Pass;
    }

    method VerifyIfPassengerIsOnATrip(passengerId: int) returns (r: Outcome<TripRules.Error>)
      ensures r == TripRules.VerifyIfPassengerIsOnATrip(gateway.Contents(), passengerId)
      ensures r.Fail? <==> TripRules.PassengerIsOnATrip(gateway.rows, passengerId)
      ensures r.Fail? ==> r.error == TripRules.Forbidden(TripRules.PassengerBusyMessage)
    {
      var isOnATrip := gateway.FindInProgressTripByPassengerId(passengerId);
      if isOnATrip.Some? { return Fail(TripRules.Forbidden(TripRules.PassengerBusyMessage)); }
      return Pass;
    }

    method VerifyIfPassengerAlreadyBookThisTrip(passengerId: int, driverId: int) returns (r: Outcome<TripRules.Error>)
      ensures r == TripRules.VerifyIfPassengerAlreadyBookThisTrip(gateway.Contents(), passengerId, driverId)
      ensures r.Fail? <==> TripRules.PassengerBookedDriver(gateway.rows, passengerId, driverId)
      ensures r.Fail? ==> r.error == TripRules.Forbidden(TripRules.AlreadyBookedMessage)
    {
      var trip := gateway.FindBookedTrips(passengerId, driverId);
      if trip.Some? { return Fail(TripRules.Forbidden(TripRules.AlreadyBookedMessage)); }
      return Pass;
    }
  }
}
