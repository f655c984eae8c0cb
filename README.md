# Trip lifecycle of the taxi booking service, in Dafny

This project models the core of a ride-booking service: the `TripService`
that creates, confirms, finishes and cancels trips between passengers and
drivers, and the storage gateway whose queries decide what "open pairing",
"on a trip" and "pending" mean.

A trip's state is not an explicit status. It is read off four nullable
timestamps: `acceptedAt`, `finishedAt`, `canceledAt` and `deletedAt`.

- **Pending**: all four are unset.
- **In progress** ("on a trip"): `acceptedAt` is set and the other three are unset.
- **Open pairing**: `finishedAt`, `canceledAt` and `deletedAt` are unset; `acceptedAt` may be either.

The operations work as follows.

- **create**: a passenger books a driver. Three checks run in order: an open
  pairing with that driver, the driver on a trip, the passenger on a trip.
  Then the trip is stored as pending under the next id.
- **confirm**: the driver accepts one of their trips. The driver must not be
  on a trip, and then neither may the trip's passenger. Every other pending
  trip of that driver or that passenger is soft-deleted, and the trip gets
  `acceptedAt`.
- **finish** and **cancel**: both require the driver's trip to be in
  progress. They set `finishedAt` or `canceledAt`.
- **findAll**: lists every trip, whoever asks.

Files and modules:

- `wrappers.dfy` (`Wrappers`): `Option`, `Result` and `Outcome`.
- `trip_entity.dfy` (`TripEntity`): the `Trip` and `Waypoints` records, the
  predicates on one trip's timestamps, and partial updates (`TripPatch`).
- `trip_table.dfy` (`TripTable`): the table as a value (`Store`).
  - `Matches` holds each query's `WHERE` clause, and `FirstMatch` gives the first matching row.
  - `Insert`, `Update` and `Supersede` are the three writes.
- `trip_gateway.dfy` (`TripGateway`): class `InMemoryTripGateway`, the
  mutable table. Its query methods loop over the rows. Its write methods
  change the table in place. Each method is proved against the `TripTable` functions.
- `trip_rules.dfy` (`TripRules`): the service's operations as functions from
  the table before a call to the result and the table after it. The lemmas
  here state what the service promises.
- `trip_service.dfy` (`TripService`): class `TripService`. Its methods follow
  the source step by step through the gateway, and each one is proved equal
  to a function of the table:
  - `FindOne`, `Create`, `IsAbleToCreate`, `Confirm`, `IsAbleToConfirm`,
    `Finish`, `Cancel` and the three `VerifyIf…` methods to the `TripRules`
    function of the same name;
  - `IsAbleToFinish` and `IsAbleToCancel` both to `TripRules.IsAbleToFinishOrCancel`;
  - `SoftDeleteAllPendingTripsExceptCurrentAcceptedOne` to `TripTable.Supersede`;
  - `FindAll` to the table's rows as they are.
- `trip_invariants.dfy` (`TripInvariants`): properties that every operation
  preserves, and that therefore hold in every table reachable from an empty
  database. No driver or passenger is ever on two trips at once. Rows are
  only appended. Terminal trips stay terminal.
- `trip_scenarios.dfy` (`TripScenarios`): the service's test scenarios,
  replayed on the model, and two consequences of confirm not checking that a
  trip is pending.

Parameters stand in for the outside world:

- The actor is an integer id. Authentication is outside the model.
- The current time (`new Date()`) is the parameter `now`.

Two behaviours of the code are worth knowing before reading the proofs.

- Confirm does not check that the trip is pending. It looks the trip up by
  id and driver with no lifecycle filter, then runs only the two busy checks.
  As a result:
  - A superseded trip can be confirmed once its driver and passenger are
    free again. It ends up both accepted and deleted
    (`TripScenarios.ConfirmAcceptsSupersededTrip`).
  - Confirming a finished or canceled trip rewrites its `acceptedAt`.
  - What does hold: such a trip never becomes in progress again
    (`TripInvariants.TerminalStaysTerminal`), so it can never again be
    finished or canceled, and it never makes a party busy.
- The booked-trip query's clause on `acceptedAt` always holds, so it plays
  no role (`TripTable.BookedTripsIgnoresAcceptedAt`).

## Model

| member | source | states |
|---|---|---|
| `TripEntity.ApplyPatch` | src/trip/gateways/trip.gateway.typeorm.ts:65-68 | a partial save overwrites exactly the supplied timestamp fields and keeps every other field |
| `TripTable.FirstMatch` | src/trip/gateways/trip.gateway.typeorm.ts:24-63 | a single-row query returns a row iff some stored row satisfies its `WHERE` clause, and the row it returns is stored and satisfies it |
| `TripTable.Matches` | src/trip/gateways/trip.gateway.typeorm.ts:24-63 | defines each query's `WHERE` clause, clause by clause, including the always-true `acceptedAt` clause; its meaning is stated by `TripTable.BookedTripsIgnoresAcceptedAt` and `TripTable.InProgressQueries` |
| `TripTable.BookedTripsIgnoresAcceptedAt` | src/trip/gateways/trip.gateway.typeorm.ts:28-39 | the booked-trip clause is unchanged by any value of `acceptedAt`, and means: same passenger, same driver, not finished, canceled or deleted |
| `TripTable.InProgressQueries` | src/trip/gateways/trip.gateway.typeorm.ts:41-63 | the two in-progress clauses mean "accepted and not terminal", keyed by driver or by passenger |
| `TripTable.FindByIdFindsRow` | src/trip/gateways/trip.gateway.typeorm.ts:24-26 | in a table with unique ids, lookup by id and driver returns the row with that id whatever its timestamps (deleted, finished and canceled rows included) |
| `TripTable.FindByIdNeedsDriver` | src/trip/gateways/trip.gateway.typeorm.ts:24-26 | a row whose id matches but whose driver differs is not returned |
| `TripTable.InsertFresh` | src/trip/gateways/trip.gateway.typeorm.ts:14-16 | saving a trip that carries no id yet appends exactly one row: the given trip under the next id, which no earlier row has, with its waypoints under the next waypoints id; ids increase by one and the table stays well formed |
| `TripTable.UpdateEffect` | src/trip/gateways/trip.gateway.typeorm.ts:65-68 | update returns the id iff a row has it; that row gets the supplied fields; all other rows, the row count and the id counters are unchanged |
| `TripTable.SupersedeEffect` | src/trip/gateways/trip.gateway.typeorm.ts:70-83 | after the bulk soft delete, no row other than the kept one that involves the driver or the passenger is pending; each such row that was pending differs only by `deletedAt`; every other row is unchanged |
| `TripTable.Insert` | src/trip/gateways/trip.gateway.typeorm.ts:14-16 | defines saving a new trip: the trip and its waypoints take the next ids and the row is appended; `TripTable.InsertFresh` states its contract |
| `TripTable.Update` | src/trip/gateways/trip.gateway.typeorm.ts:65-68 | defines the partial save by id: the row with that id takes the supplied fields and the id is returned; `TripTable.UpdateEffect` states its contract |
| `TripTable.Supersede` | src/trip/gateways/trip.gateway.typeorm.ts:70-83 | defines the bulk soft delete: every pending row other than the kept id that involves the driver or the passenger gains `deletedAt`; `TripTable.SupersedeEffect` states its contract |
| `TripGateway.InMemoryTripGateway.constructor` | src/trip/gateways/trip.gateway.typeorm.ts:9-13 | a fresh gateway holds an empty, well-formed table whose ids start at 1 |
| `TripGateway.InMemoryTripGateway.Create` | src/trip/gateways/trip.gateway.typeorm.ts:14-16 | for a trip that carries no id yet, the table after saving is `Insert` of the table before, and the saved trip is returned |
| `TripGateway.InMemoryTripGateway.FindAll` | src/trip/gateways/trip.gateway.typeorm.ts:18-22 | returns every stored row, in order, with its waypoints |
| `TripGateway.InMemoryTripGateway.SelectOne` | src/trip/gateways/trip.gateway.typeorm.ts:24-63 | the scan returns `FirstMatch` of the table: a row iff some row satisfies the query |
| `TripGateway.InMemoryTripGateway.FindById` | src/trip/gateways/trip.gateway.typeorm.ts:24-26 | returns a row iff some row has that id and that driver, with no lifecycle filter |
| `TripGateway.InMemoryTripGateway.FindBookedTrips` | src/trip/gateways/trip.gateway.typeorm.ts:28-39 | returns a row iff some row pairs that passenger with that driver and is not finished, canceled or deleted |
| `TripGateway.InMemoryTripGateway.FindInProgressTripByDriverId` | src/trip/gateways/trip.gateway.typeorm.ts:41-51 | returns a row iff the driver has an accepted, non-terminal trip |
| `TripGateway.InMemoryTripGateway.FindInProgressTripByPassengerId` | src/trip/gateways/trip.gateway.typeorm.ts:53-63 | returns a row iff the passenger has an accepted, non-terminal trip |
| `TripGateway.InMemoryTripGateway.Update` | src/trip/gateways/trip.gateway.typeorm.ts:65-68 | the in-place write of one row's supplied fields equals `Update` of the old table; the table stays well formed |
| `TripGateway.InMemoryTripGateway.SoftDeletePendingTripsExceptCurrentOne` | src/trip/gateways/trip.gateway.typeorm.ts:70-83 | the in-place bulk write equals `Supersede` of the old table; the table stays well formed |
| `TripRules.FindOne` | src/trip/trip.service.ts:19-24 | defines the lookup scoped to the actor as driver, NotFound when absent; `TripRules.FindOneScopedToDriver` states its contract |
| `TripRules.VerifyIfDriverIsOnATrip` | src/trip/trip.service.ts:79-82 | defines the driver-busy check over the in-progress-by-driver query; `TripService.TripService.VerifyIfDriverIsOnATrip` states its contract |
| `TripRules.VerifyIfPassengerIsOnATrip` | src/trip/trip.service.ts:84-87 | defines the passenger-busy check over the in-progress-by-passenger query; `TripService.TripService.VerifyIfPassengerIsOnATrip` states its contract |
| `TripRules.VerifyIfPassengerAlreadyBookThisTrip` | src/trip/trip.service.ts:93-96 | defines the open-pairing check over the booked-trip query; `TripService.TripService.VerifyIfPassengerAlreadyBookThisTrip` states its contract |
| `TripRules.IsAbleToCreate` | src/trip/trip.service.ts:33-37 | defines create's three checks in their order; `TripRules.CreateChecksInOrder` states its contract |
| `TripRules.NewTrip` | src/trip/trip.service.ts:29 | defines the unsaved trip built from the request: no ids, no timestamps, the actor as passenger; `TripRules.CreateStoresPendingTrip` states what is stored |
| `TripRules.Create` | src/trip/trip.service.ts:26-31 | defines create as the checks followed by one insert; `TripRules.CreateChecksInOrder` and `TripRules.CreateStoresPendingTrip` state its contract |
| `TripRules.IsAbleToConfirm` | src/trip/trip.service.ts:57-62 | defines confirm's checks: lookup, then driver busy, then passenger busy; `TripRules.ConfirmChecksInOrder` states its contract |
| `TripRules.Confirm` | src/trip/trip.service.ts:50-55 | defines confirm as the checks, the bulk soft delete and the acceptance, in that order; `TripRules.ConfirmChecksInOrder` and `TripRules.ConfirmEffect` state its contract |
| `TripRules.IsAbleToFinishOrCancel` | src/trip/trip.service.ts:45-48 | defines the guard shared by finish and cancel: lookup, then the in-progress check; `TripRules.FinishOrCancelGuard` states its contract |
| `TripRules.Finish` | src/trip/trip.service.ts:39-43 | defines finish as the guard followed by a partial save of `finishedAt`; `TripRules.FinishOrCancelEffect` states its contract |
| `TripRules.Cancel` | src/trip/trip.service.ts:64-68 | defines cancel as the guard followed by a partial save of `canceledAt`; `TripRules.FinishOrCancelEffect` states its contract |
| `TripRules.VerifyIfIsAbleToFinishOrCancel` | src/trip/trip.service.ts:89-91 | passes iff the trip is accepted and not finished, canceled or deleted; otherwise fails with Forbidden "Trip is not accepted or is already finished or canceled" |
| `TripRules.FindOneScopedToDriver` | src/trip/trip.service.ts:19-24 | lookup succeeds iff the actor drives a trip with that id, and then returns that row; otherwise NotFound "Trip was not found", even when the id belongs to another driver |
| `TripRules.CreateChecksInOrder` | src/trip/trip.service.ts:26-37 | create fails with "Passenger already book a trip with this driver" iff an open pairing exists; else "Driver is already on a trip" iff the driver is on a trip; else "Passenger is already on a trip" iff the actor is; else it fails only without waypoints |
| `TripRules.CreateStoresPendingTrip` | src/trip/trip.service.ts:26-31 | a successful create appends exactly one pending trip under a fresh id, with the actor as passenger (whatever the request says) and the request's driver, fare, category and route; a failed create changes nothing |
| `TripRules.ConfirmChecksInOrder` | src/trip/trip.service.ts:57-62 | confirm fails with NotFound iff the actor does not drive that trip; else with "Driver is already on a trip" iff the actor is on a trip; else with "Passenger is already on a trip" iff the trip's passenger is; otherwise it succeeds, pending or not |
| `TripRules.ConfirmEffect` | src/trip/trip.service.ts:50-55 | after a successful confirm, the trip differs only by `acceptedAt`; every other pending trip of the driver or of the trip's passenger gains only `deletedAt`; every other row is unchanged |
| `TripRules.FinishOrCancelGuard` | src/trip/trip.service.ts:39-73 | finish and cancel share one guard: NotFound iff the actor does not drive the trip; success iff the trip is accepted and not terminal; otherwise Forbidden with the fixed message |
| `TripRules.FinishOrCancelEffect` | src/trip/trip.service.ts:39-73 | a successful finish (cancel) sets only `finishedAt` (`canceledAt`) of that one row; a failed one leaves the table as it was |
| `TripRules.TerminalIsFinal` | src/trip/trip.service.ts:89-91 | after a successful finish or cancel, both a further finish and a further cancel of that trip fail with "Trip is not accepted or is already finished or canceled" |
| `TripRules.FailureChangesNothing` | src/trip/trip.service.ts:26-73 | every failing create, confirm, finish or cancel returns the table unchanged, because all checks precede the writes |
| `TripService.TripService.constructor` | src/trip/trip.service.ts:12 | the service is bound to the given gateway |
| `TripService.TripService.FindAll` | src/trip/trip.service.ts:14-17 | returns every stored trip, with no filtering by the actor |
| `TripService.TripService.FindOne` | src/trip/trip.service.ts:19-24 | succeeds iff the actor drives a trip with that id, returning a stored row with that id and driver; equals `TripRules.FindOne` |
| `TripService.TripService.Create` | src/trip/trip.service.ts:26-31 | result and new table equal `TripRules.Create` of the old table; the table stays well formed |
| `TripService.TripService.IsAbleToCreate` | src/trip/trip.service.ts:33-37 | passes iff there is no open pairing, the driver is not on a trip and the actor is not on a trip |
| `TripService.TripService.Finish` | src/trip/trip.service.ts:39-43 | result and new table equal `TripRules.Finish` of the old table |
| `TripService.TripService.IsAbleToFinish` | src/trip/trip.service.ts:45-48 | passes iff the actor drives a trip with that id that is accepted and not terminal |
| `TripService.TripService.Confirm` | src/trip/trip.service.ts:50-55 | result and new table equal `TripRules.Confirm` of the old table: supersede, then accept |
| `TripService.TripService.IsAbleToConfirm` | src/trip/trip.service.ts:57-62 | on success returns the actor's stored trip with that id, and neither the actor nor that trip's passenger is on a trip |
| `TripService.TripService.Cancel` | src/trip/trip.service.ts:64-68 | result and new table equal `TripRules.Cancel` of the old table |
| `TripService.TripService.IsAbleToCancel` | src/trip/trip.service.ts:70-73 | passes iff the actor drives a trip with that id that is accepted and not terminal |
| `TripService.TripService.SoftDeleteAllPendingTripsExceptCurrentAcceptedOne` | src/trip/trip.service.ts:75-77 | the new table is `Supersede` of the old one |
| `TripService.TripService.VerifyIfDriverIsOnATrip` | src/trip/trip.service.ts:79-82 | fails, with "Driver is already on a trip", iff the driver has an accepted, non-terminal trip |
| `TripService.TripService.VerifyIfPassengerIsOnATrip` | src/trip/trip.service.ts:84-87 | fails, with "Passenger is already on a trip", iff the passenger has an accepted, non-terminal trip |
| `TripService.TripService.VerifyIfPassengerAlreadyBookThisTrip` | src/trip/trip.service.ts:93-96 | fails, with "Passenger already book a trip with this driver", iff that pair has an open pairing |
| `TripInvariants.CreatePreserves` | src/trip/trip.service.ts:26-31 | create keeps the table consistent (well formed, at most one active trip per driver and per passenger) and only appends |
| `TripInvariants.ConfirmPreserves` | src/trip/trip.service.ts:50-62 | confirm keeps at most one active trip per driver and per passenger, because both busy checks precede the acceptance; rows only evolve |
| `TripInvariants.FinishPreserves` | src/trip/trip.service.ts:39-48 | finish keeps the table consistent and only evolves the finished row |
| `TripInvariants.CancelPreserves` | src/trip/trip.service.ts:64-73 | cancel keeps the table consistent and only evolves the canceled row |
| `TripInvariants.ApplyPreserves` | src/trip/trip.service.ts:26-73 | every lifecycle command, successful or not, keeps the table consistent and only lets rows evolve: ids, parties, fare and route never change, a set `acceptedAt` stays set, and a set `finishedAt`, `canceledAt` or `deletedAt` keeps its value |
| `TripInvariants.RunPreserves` | src/trip/trip.service.ts:26-73 | any sequence of commands from a consistent table yields a consistent table that the first evolves into |
| `TripInvariants.ReachableIsConsistent` | src/trip/trip.service.ts:26-73 | every table reachable from an empty database has at most one active trip per driver and per passenger |
| `TripInvariants.TerminalStaysTerminal` | src/trip/trip.service.ts:89-91 | a finished, canceled or deleted trip is never again accepted-and-not-terminal, whatever commands follow |
| `TripScenarios.CreateTwoTrips` | test/trip/trip.service.spec.ts:52-76 | passenger 1 booking drivers 1 and 2 gets trips 1 and 2, with the request's fields and route, and both are listed |
| `TripScenarios.SameDriverTwiceRefused` | test/trip/trip.service.spec.ts:78-96 | booking the same driver twice fails with "Passenger already book a trip with this driver" and changes nothing |
| `TripScenarios.BusyDriverCannotBeBooked` | test/trip/trip.service.spec.ts:98-116 | once driver 1 has confirmed a trip, booking driver 1 fails with "Driver is already on a trip" |
| `TripScenarios.BusyPassengerCannotBook` | test/trip/trip.service.spec.ts:118-138 | once passenger 1's trip is confirmed, passenger 1 booking driver 2 fails with "Passenger is already on a trip" |
| `TripScenarios.OtherDriversTripNotFound` | test/trip/trip.service.spec.ts:187-206 | confirm, finish and cancel of another driver's trip fail with "Trip was not found" and change nothing |
| `TripScenarios.FourBookingsReachable` | test/trip/trip.service.spec.ts:255-271 | the four bookings of passengers 1, 2 with drivers 1, 2 produce trips 1 to 4 in that order |
| `TripScenarios.FourBookingsConfirmable` | test/trip/trip.service.spec.ts:268-273 | among the four pending bookings, trip 1 belongs to driver 1 and neither party is on a trip, so confirm's checks pass |
| `TripScenarios.FourBookingsSupersede` | test/trip/trip.service.spec.ts:273-292 | superseding for driver 1 and passenger 1 while keeping trip 1 deletes trips 2 and 3 and nothing else |
| `TripScenarios.ConfirmSupersedesRivals` | test/trip/trip.service.spec.ts:273-292 | confirming trip 1 accepts it, deletes the bookings sharing driver 1 or passenger 1, and leaves passenger 2's booking with driver 2 pending |
| `TripScenarios.TwoBookings` | test/trip/trip.service.spec.ts:223-224 | after passenger 1 books driver 1, a second booking that differs in a party becomes trip 2 |
| `TripScenarios.ConfirmFirstOfTwo` | test/trip/trip.service.spec.ts:226 | confirming trip 1 accepts it and deletes trip 2 when the two share a party |
| `TripScenarios.SupersededTripRefusedByBusyCheck` | test/trip/trip.service.spec.ts:208-230 | a superseded trip is still found by its driver and is refused only by "Driver is already on a trip" |
| `TripScenarios.SupersededTripRefusedByPassengerCheck` | test/trip/trip.service.spec.ts:232-253 | a superseded trip of a busy passenger is refused by "Passenger is already on a trip" |
| `TripScenarios.BookConfirmFinish` | test/trip/trip.service.spec.ts:295-518 | an unconfirmed trip can be neither finished nor canceled; book, confirm and finish succeed, and a later cancel is refused |
| `TripScenarios.ConfirmAcceptsSupersededTrip` | src/trip/trip.service.ts:57-62 | a superseded trip can be confirmed once its parties are free again, leaving a row both accepted and deleted |
| `TripScenarios.ReconfirmRefused` | src/trip/trip.service.ts:57-62 | confirming an accepted trip again fails with "Driver is already on a trip" |

## Left out

- HTTP controllers, route parameter parsing, the authentication guard and the current-user decorator. The actor is an integer parameter.
- Module wiring, the SQLite/TypeORM configuration and the column mappings. The table is an in-memory sequence of `Trip` records.
- Logging calls. They are side effects with no effect on the state.
- The `createdAt` and `updatedAt` audit columns, and the `waypoints_id` column. A trip's waypoints are stored inside it, and the link is `waypoints.id`.
- Floating-point values. Fares and coordinates are `real` values that are only copied.
- Date values. Every timestamp is an abstract `Time`, and only set versus unset is ever tested.
- Concurrency. Each operation is one atomic step, so the race between confirm's checks and its writes is not modelled.
- Relation loading. `findAll` loads waypoints, but the lookup by id and the query-builder queries do not. In the model every returned trip carries its waypoints. The service never reads the waypoints of a fetched trip.
- `TripTable.FirstMatch`: a query without `ORDER BY` may return any matching row. The model returns the first in table order. The service tests only whether a row was found, and the lookup by id matches at most one row.
- `TripGateway.InMemoryTripGateway.Create`: saving an entity that already carries an id would update the row with that id, or insert under that explicit id. The model saves only trips without an id, the only kind the service builds.
- `TripTable.InsertFresh`: stated only for a trip and waypoints without ids, for the same reason.
- `TripTable.Update`: a partial save whose id matches no row would attempt an insert. The model writes nothing and returns no id. The service updates only ids it has just looked up.
- `TripEntity.TripPatch`: a partial update supplies only lifecycle timestamps, and only non-null values. The service never writes anything else.
- `TripGateway.InMemoryTripGateway.SoftDeletePendingTripsExceptCurrentOne`: the boolean this returns is left out. The service ignores it, and it is always true.
- `TripRules.Confirm`: the soft delete and the acceptance each call `new Date()`. The model gives both writes the same `now`.
- `TripRules.Create`: a request without waypoints fails, after the three checks, with `MissingWaypoints`. In the code, building the waypoints from an absent object throws a runtime type error, not a typed service error.
- The end-to-end HTTP test. It checks only status codes.
