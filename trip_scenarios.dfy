/**
 * The service's test scenarios replayed on the model, and two behaviours of
 * confirm that follow from it not checking that a trip is still pending.
 */
module TripScenarios {
  import opened Wrappers
  import opened TripEntity
  import opened TripTable
  import opened TripRules

  /** The route every test books: from (1, 1) to (-10, -10). */
  function TestRoute(): Waypoints { Waypoints(None, 1.0, 1.0, -10.0, -10.0) }

  /** A request for driver `d`, category 1, fare 10.5. */
  function Request(d: int): CreateTripDto { CreateTripDto(0, d, 1, 10.5, Some(TestRoute())) }

  /** The pending row that the n-th create stores for passenger `p` and driver `d`. */
  function Row(n: int, p: int, d: int): Trip {
    Trip(Some(n), 10.5, d, p, 1, None, None, None, None, Waypoints(Some(n), 1.0, 1.0, -10.0, -10.0))
  }

  /** Two bookings by passenger 1, with drivers 1 and 2, get ids 1 and 2 and are both listed. */
  lemma CreateTwoTrips()
    ensures var (r1, s1) := Create(EmptyStore(), 1, Request(1));
      var (r2, s2) := Create(s1, 1, Request(2));
      r1 == Ok(Row(1, 1, 1)) && r2 == Ok(Row(2, 1, 2)) && s2.rows == [Row(1, 1, 1), Row(2, 1, 2)]
  {
    var s1 := Create(EmptyStore(), 1, Request(1)).1;
    assert s1.rows == [Row(1, 1, 1)];
    assert !Matches(s1.rows[0], BookedTrips(1, 2));
  }

  /** Booking the same driver twice is refused by the first check. */
  lemma SameDriverTwiceRefused()
    ensures var s1 := Create(EmptyStore(), 1, Request(1)).1;
      Create(s1, 1, Request(1)) == (Err(Forbidden(AlreadyBookedMessage)), s1)
  {
    var s1 := Create(EmptyStore(), 1, Request(1)).1;
    assert Matches(s1.rows[0], BookedTrips(1, 1));
  }

  /**
   * Passenger 100 books driver 1 and driver 1 confirms: passenger 1 can no
   * longer book driver 1, who is on a trip.
   */
  lemma BusyDriverCannotBeBooked()
    ensures var s1 := Create(EmptyStore(), 100, Request(1)).1;
      var (c, s2) := Confirm(s1, 1, 1, 5);
      c == Pass && Create(s2, 1, Request(1)).0 == Err(Forbidden(DriverBusyMessage))
  {
    var s1 := Create(EmptyStore(), 100, Request(1)).1;
    assert s1.rows == [Row(1, 100, 1)];
    var s2 := Confirm(s1, 1, 1, 5).1;
    assert s2.rows == [Row(1, 100, 1).(acceptedAt := Some(5))];
    assert Matches(s2.rows[0], InProgressByDriver(1));
  }

  /**
   * Passenger 1 books driver 1 and driver 1 confirms: passenger 1 can no
   * longer book driver 2, being on a trip.
   */
  lemma BusyPassengerCannotBook()
    ensures var s1 := Create(EmptyStore(), 1, Request(1)).1;
      var (c, s2) := Confirm(s1, 1, 1, 5);
      c == Pass && Create(s2, 1, Request(2)).0 == Err(Forbidden(PassengerBusyMessage))
  {
    var s1 := Create(EmptyStore(), 1, Request(1)).1;
    assert s1.rows == [Row(1, 1, 1)];
    var s2 := Confirm(s1, 1, 1, 5).1;
    assert s2.rows == [Row(1, 1, 1).(acceptedAt := Some(5))];
    assert Matches(s2.rows[0], InProgressByPassenger(1));
  }

  /** A trip booked with driver 10 is not found by driver 1 (nor by driver 100). */
  lemma OtherDriversTripNotFound(now: Time)
    ensures var s1 := Create(EmptyStore(), 1, Request(10)).1;
      Confirm(s1, 1, 1, now) == (Fail(NotFound(TripNotFoundMessage)), s1) &&
      Finish(s1, 100, 1, now) == (Fail(NotFound(TripNotFoundMessage)), s1) &&
      Cancel(s1, 100, 1, now) == (Fail(NotFound(TripNotFoundMessage)), s1)
  {
    var s1 := Create(EmptyStore(), 1, Request(10)).1;
    assert s1.rows == [Row(1, 1, 10)];
  }

  /** The four tables of the supersede test: passengers 1, 2 with drivers 1, 2. */
  function FourBookings(): Store {
    Store([Row(1, 1, 1), Row(2, 2, 1), Row(3, 1, 2), Row(4, 2, 2)], 5, 5)
  }

  lemma FourBookingsReachable()
    ensures var s1 := Create(EmptyStore(), 1, Request(1)).1;
      var s2 := Create(s1, 2, Request(1)).1;
      var s3 := Create(s2, 1, Request(2)).1;
      Create(s3, 2, Request(2)).1 == FourBookings()
  {
    var s1 := Create(EmptyStore(), 1, Request(1)).1;
    assert s1.rows == [Row(1, 1, 1)];
    var s2 := Create(s1, 2, Request(1)).1;
    assert !Matches(s1.rows[0], BookedTrips(2, 1));
    assert s2.rows == [Row(1, 1, 1), Row(2, 2, 1)];
    var s3 := Create(s2, 1, Request(2)).1;
    assert !Matches(s2.rows[0], BookedTrips(1, 2)) && !Matches(s2.rows[1], BookedTrips(1, 2));
    assert s3.rows == [Row(1, 1, 1), Row(2, 2, 1), Row(3, 1, 2)];
    assert forall i :: 0 <= i < 3 ==> !Matches(s3.rows[i], BookedTrips(2, 2));
  }

  /** In the four bookings, trip 1 belongs to driver 1 and nobody is on a trip. */
  lemma FourBookingsConfirmable()
    ensures IsAbleToConfirm(FourBookings(), 1, 1) == Ok(Row(1, 1, 1))
  {
    var s := FourBookings();
    FindByIdFindsRow(s, 0, 1, 1);
    assert forall k :: 0 <= k < 4 ==> !IsInProgress(s.rows[k]);
  }

  /** The four bookings once the rivals of trip 1 are deleted. */
  function FourBookingsSuperseded(now: Time): Store {
    Store([Row(1, 1, 1), Row(2, 2, 1).(deletedAt := Some(now)), Row(3, 1, 2).(deletedAt := Some(now)), Row(4, 2, 2)], 5, 5)
  }

  /** Superseding for driver 1 and passenger 1 deletes trips 2 and 3 only. */
  lemma FourBookingsSupersede(now: Time)
    ensures Supersede(FourBookings(), 1, 1, 1, now) == FourBookingsSuperseded(now)
  {
    var s := FourBookings();
    var s' := Supersede(s, 1, 1, 1, now);
    assert s'.rows[0] == s.rows[0] && s'.rows[3] == s.rows[3];
    assert s'.rows[1] == Row(2, 2, 1).(deletedAt := Some(now));
    assert s'.rows[2] == Row(3, 1, 2).(deletedAt := Some(now));
  }

  /**
   * Driver 1 confirms the trip of passenger 1: it is accepted, the rival
   * bookings of driver 1 and of passenger 1 are deleted, and the booking of
   * passenger 2 with driver 2 is untouched.
   */
  lemma ConfirmSupersedesRivals(now: Time)
    ensures var (c, s') := Confirm(FourBookings(), 1, 1, now);
      c == Pass &&
      s'.rows == [Row(1, 1, 1).(acceptedAt := Some(now)),
                  Row(2, 2, 1).(deletedAt := Some(now)),
                  Row(3, 1, 2).(deletedAt := Some(now)),
                  Row(4, 2, 2)]
  {
    FourBookingsConfirmable();
    FourBookingsSupersede(now);
    var s1 := FourBookingsSuperseded(now);
    assert s1.rows[0].id == Some(1);
    var s2 := Update(s1, 1, AcceptPatch(now)).1;
    assert s2.rows == PatchRows(s1.rows, 1, AcceptPatch(now));
    assert s2.rows[0] == Row(1, 1, 1).(acceptedAt := Some(now));
    assert s2.rows[1] == s1.rows[1] && s2.rows[2] == s1.rows[2] && s2.rows[3] == s1.rows[3];
  }

  /** Passenger 1 books driver 1, then passenger `p` books driver `d`. */
  lemma TwoBookings(p: int, d: int)
    requires p != 1 || d != 1
    ensures Create(Create(EmptyStore(), 1, Request(1)).1, p, Request(d)).1 == Store([Row(1, 1, 1), Row(2, p, d)], 3, 3)
  {
    var s1 := Create(EmptyStore(), 1, Request(1)).1;
    assert s1.rows == [Row(1, 1, 1)];
    assert !Matches(s1.rows[0], BookedTrips(p, d));
  }

  /** Driver 1 confirms the first of two bookings that share a party with it. */
  lemma ConfirmFirstOfTwo(p: int, d: int, now: Time)
    requires p == 1 || d == 1
    requires p != 1 || d != 1
    ensures Confirm(Store([Row(1, 1, 1), Row(2, p, d)], 3, 3), 1, 1, now) ==
              (Pass, Store([Row(1, 1, 1).(acceptedAt := Some(now)), Row(2, p, d).(deletedAt := Some(now))], 3, 3))
  {
    var s := Store([Row(1, 1, 1), Row(2, p, d)], 3, 3);
    ConfirmChecksInOrder(s, 1, 1, now);
    assert !IsInProgress(s.rows[0]) && !IsInProgress(s.rows[1]);
    ConfirmEffect(s, 1, 1, now, 0);
    var s' := Confirm(s, 1, 1, now).1;
    assert s'.rows[1] == Row(2, p, d).(deletedAt := Some(now));
    assert s'.rows == [Row(1, 1, 1).(acceptedAt := Some(now)), Row(2, p, d).(deletedAt := Some(now))];
  }

  /**
   * Passenger 1 and passenger 100 book driver 1, who confirms the first: the
   * deleted second booking is still found by its id and is refused only
   * because driver 1 is on a trip.
   */
  lemma SupersededTripRefusedByBusyCheck(now: Time, later: Time)
    ensures var s1 := Create(EmptyStore(), 1, Request(1)).1;
      var s2 := Create(s1, 100, Request(1)).1;
      var s3 := Confirm(s2, 1, 1, now).1;
      FindOne(s3, 1, 2).Ok? && FindOne(s3, 1, 2).value.deletedAt == Some(now) &&
      Confirm(s3, 1, 2, later).0 == Fail(Forbidden(DriverBusyMessage))
  {
    TwoBookings(100, 1);
    var s2 := Store([Row(1, 1, 1), Row(2, 100, 1)], 3, 3);
    ConfirmFirstOfTwo(100, 1, now);
    var s3 := Store([Row(1, 1, 1).(acceptedAt := Some(now)), Row(2, 100, 1).(deletedAt := Some(now))], 3, 3);
    assert Confirm(s2, 1, 1, now).1 == s3;
    FindOneScopedToDriver(s3, 1, 2);
    assert FindOne(s3, 1, 2) == Ok(s3.rows[1]);
    ConfirmChecksInOrder(s3, 1, 2, later);
    assert IsInProgress(s3.rows[0]);
  }

  /**
   * Passenger 1 books drivers 1 and 100, and driver 1 confirms: the deleted
   * booking with driver 100 is refused only because passenger 1 is on a trip.
   */
  lemma SupersededTripRefusedByPassengerCheck(now: Time, later: Time)
    ensures var s1 := Create(EmptyStore(), 1, Request(1)).1;
      var s2 := Create(s1, 1, Request(100)).1;
      var s3 := Confirm(s2, 1, 1, now).1;
      Confirm(s3, 100, 2, later).0 == Fail(Forbidden(PassengerBusyMessage))
  {
    TwoBookings(1, 100);
    ConfirmFirstOfTwo(1, 100, now);
    var s3 := Store([Row(1, 1, 1).(acceptedAt := Some(now)), Row(2, 1, 100).(deletedAt := Some(now))], 3, 3);
    ConfirmChecksInOrder(s3, 100, 2, later);
    assert !IsInProgress(s3.rows[1]) && IsInProgress(s3.rows[0]);
  }

  /**
   * Book, confirm, finish; then neither finish nor cancel is accepted, and a
   * trip that was never confirmed can be neither finished nor canceled.
   */
  lemma BookConfirmFinish(t1: Time, t2: Time, t3: Time)
    ensures var s1 := Create(EmptyStore(), 1, Request(1)).1;
      var (c, s2) := Confirm(s1, 1, 1, t1);
      var (f, s3) := Finish(s2, 1, 1, t2);
      Finish(s1, 1, 1, t2).0 == Fail(Forbidden(NotAbleToFinishOrCancelMessage)) &&
      Cancel(s1, 1, 1, t2).0 == Fail(Forbidden(NotAbleToFinishOrCancelMessage)) &&
      c == Pass && f == Pass &&
      s3.rows == [Row(1, 1, 1).(acceptedAt := Some(t1), finishedAt := Some(t2))] &&
      Cancel(s3, 1, 1, t3).0 == Fail(Forbidden(NotAbleToFinishOrCancelMessage))
  {
    var s1 := Create(EmptyStore(), 1, Request(1)).1;
    assert s1.rows == [Row(1, 1, 1)];
    var s2 := Confirm(s1, 1, 1, t1).1;
    assert s2.rows == [Row(1, 1, 1).(acceptedAt := Some(t1))];
    FinishOrCancelEffect(s2, 1, 1, t2, 0);
    TerminalIsFinal(s2, 1, 1, t2, t3, true);
  }

  /**
   * Confirm does not check that the trip is pending: once driver 1 has
   * finished the trip that superseded it, the deleted booking of passenger 2
   * can be confirmed, leaving a row both accepted and deleted.
   */
  lemma ConfirmAcceptsSupersededTrip(t1: Time, t2: Time, t3: Time)
    ensures var s := Store([Row(1, 1, 1), Row(2, 2, 1)], 3, 3);
      var s1 := Confirm(s, 1, 1, t1).1;
      var s2 := Finish(s1, 1, 1, t2).1;
      var (c, s3) := Confirm(s2, 1, 2, t3);
      s1.rows[1].deletedAt == Some(t1) && c == Pass &&
      s3.rows[1].acceptedAt == Some(t3) && s3.rows[1].deletedAt == Some(t1)
  {
    var s := Store([Row(1, 1, 1), Row(2, 2, 1)], 3, 3);
    ConfirmChecksInOrder(s, 1, 1, t1);
    ConfirmEffect(s, 1, 1, t1, 0);
    var s1 := Confirm(s, 1, 1, t1).1;
    assert s1.rows == [Row(1, 1, 1).(acceptedAt := Some(t1)), Row(2, 2, 1).(deletedAt := Some(t1))];
    FinishOrCancelGuard(s1, 1, 1, t2);
    FinishOrCancelEffect(s1, 1, 1, t2, 0);
    var s2 := Finish(s1, 1, 1, t2).1;
    assert s2.rows == [Row(1, 1, 1).(acceptedAt := Some(t1), finishedAt := Some(t2)), Row(2, 2, 1).(deletedAt := Some(t1))];
    ConfirmChecksInOrder(s2, 1, 2, t3);
    assert !IsInProgress(s2.rows[0]) && !IsInProgress(s2.rows[1]);
    ConfirmEffect(s2, 1, 2, t3, 1);
  }

  /** Confirming an already accepted trip again fails: its own driver is on a trip. */
  lemma ReconfirmRefused(t1: Time, t2: Time)
    ensures var s1 := Confirm(Store([Row(1, 1, 1)], 2, 2), 1, 1, t1).1;
      Confirm(s1, 1, 1, t2).0 == Fail(Forbidden(DriverBusyMessage))
  {
    var s := Store([Row(1, 1, 1)], 2, 2);
    ConfirmChecksInOrder(s, 1, 1, t1);
    ConfirmEffect(s, 1, 1, t1, 0);
    var s1 := Confirm(s, 1, 1, t1).1;
    assert s1.rows == [Row(1, 1, 1).(acceptedAt := Some(t1))];
    ConfirmChecksInOrder(s1, 1, 1, t2);
    assert IsInProgress(s1.rows[0]);
  }
}
