/**
 * Properties of the trip table that every lifecycle operation preserves,
 * and hence that hold of every table reachable from an empty database.
 */
module TripInvariants {
  import opened Wrappers
  import opened TripEntity
  import opened TripTable
  import opened TripRules

  /** No two accepted, non-terminal trips share a driver or a passenger. */
  predicate OneActiveTripPerParty(rows: seq<Trip>) {
    forall i, j :: 0 <= i < |rows| && 0 <= j < |rows| && i != j && IsInProgress(rows[i]) && IsInProgress(rows[j]) ==>
      rows[i].driverId != rows[j].driverId && rows[i].passengerId != rows[j].passengerId
  }

  /**
   * How one stored row may change: its identity, parties, fare, category and
   * route never do; a set `acceptedAt` stays set (confirm may rewrite its
   * value); a set `finishedAt`, `canceledAt` or `deletedAt` keeps its value.
   */
  predicate RowEvolves(t: Trip, t': Trip) {
    t'.id == t.id && t'.fare == t.fare && t'.driverId == t.driverId &&
    t'.passengerId == t.passengerId && t'.categoryId == t.categoryId && t'.waypoints == t.waypoints &&
    (t.acceptedAt.Some? ==> t'.acceptedAt.Some?) &&
    (t.finishedAt.Some? ==> t'.finishedAt == t.finishedAt) &&
    (t.canceledAt.Some? ==> t'.canceledAt == t.canceledAt) &&
    (t.deletedAt.Some? ==> t'.deletedAt == t.deletedAt)
  }

  /** Rows are only appended, and each existing row only evolves. */
  predicate Evolves(s: Store, s': Store) {
    |s.rows| <= |s'.rows| && s.nextId <= s'.nextId &&
    forall i :: 0 <= i < |s.rows| ==> RowEvolves(s.rows[i], s'.rows[i])
  }

  /** The invariant of a reachable table. */
  predicate Consistent(s: Store) {
    WellFormed(s) && OneActiveTripPerParty(s.rows)
  }

  /** A call of one of the four lifecycle commands. */
  datatype Command =
    | CreateCmd(actor: int, dto: CreateTripDto)
    | ConfirmCmd(actor: int, id: int, now: Time)
    | FinishCmd(actor: int, id: int, now: Time)
    | CancelCmd(actor: int, id: int, now: Time)

  /** The table after one command, whether it succeeded or failed. */
  function Apply(s: Store, c: Command): Store {
    match c
    case CreateCmd(actor, dto) => Create(s, actor, dto).1
    case ConfirmCmd(actor, id, now) => Confirm(s, actor, id, now).1
    case FinishCmd(actor, id, now) => Finish(s, actor, id, now).1
    case CancelCmd(actor, id, now) => Cancel(s, actor, id, now).1
  }

  /** The table after a sequence of commands. */
  function Run(s: Store, cs: seq<Command>): Store
    decreases |cs|
  {
    if cs == [] then s else Run(Apply(s, cs[0]), cs[1..])
  }

  lemma CreatePreserves(s: Store, actor: int, dto: CreateTripDto)
    requires Consistent(s)
    ensures Consistent(Create(s, actor, dto).1) && Evolves(s, Create(s, actor, dto).1)
  {
    CreateStoresPendingTrip(s, actor, dto);
  }

  /**
   * Confirm is where the invariant is at stake: the confirmed trip becomes
   * active only when neither of its parties is already on a trip, and the
   * supersede step only ever takes rows out of the pending state.
   */
  lemma ConfirmPreserves(s: Store, actor: int, id: int, now: Time)
    requires Consistent(s)
    ensures Consistent(Confirm(s, actor, id, now).1) && Evolves(s, Confirm(s, actor, id, now).1)
  {
    var (r, s') := Confirm(s, actor, id, now);
    if r.Pass? {
      ConfirmChecksInOrder(s, actor, id, now);
      var i :| 0 <= i < |s.rows| && s.rows[i].id == Some(id) && s.rows[i].driverId == actor;
      ConfirmEffect(s, actor, id, now, i);
      var p := s.rows[i].passengerId;
      assert !DriverIsOnATrip(s.rows, actor) && !PassengerIsOnATrip(s.rows, p);
      forall j | 0 <= j < |s.rows| && j != i && IsInProgress(s'.rows[j])
        ensures IsInProgress(s.rows[j]) && s'.rows[j] == s.rows[j]
      {
      }
      forall j, k | 0 <= j < |s'.rows| && 0 <= k < |s'.rows| && j != k && IsInProgress(s'.rows[j]) && IsInProgress(s'.rows[k])
        ensures s'.rows[j].driverId != s'.rows[k].driverId && s'.rows[j].passengerId != s'.rows[k].passengerId
      {
        if j == i {
          assert s'.rows[k] == s.rows[k] && IsInProgress(s.rows[k]);
        } else if k == i {
          assert s'.rows[j] == s.rows[j] && IsInProgress(s.rows[j]);
        }
      }
    }
  }

  /** Replacing one row by a non-active evolution of it keeps the table consistent. */
  lemma RetireRowPreserves(s: Store, i: int, t: Trip)
    requires Consistent(s) && 0 <= i < |s.rows|
    requires RowEvolves(s.rows[i], t) && !IsInProgress(t)
    ensures var s' := s.(rows := s.rows[i := t]); Consistent(s') && Evolves(s, s')
  {
    var s' := s.(rows := s.rows[i := t]);
    forall j | 0 <= j < |s'.rows| && j != i
      ensures StoredRow(s'.rows[j], s'.nextId, s'.nextWaypointsId)
    {
      assert s'.rows[j] == s.rows[j];
    }
    assert StoredRow(s.rows[i], s.nextId, s.nextWaypointsId);
  }

  lemma FinishPreserves(s: Store, actor: int, id: int, now: Time)
    requires Consistent(s)
    ensures Consistent(Finish(s, actor, id, now).1) && Evolves(s, Finish(s, actor, id, now).1)
  {
    if Finish(s, actor, id, now).0.Pass? {
      FindOneScopedToDriver(s, actor, id);
      var i :| 0 <= i < |s.rows| && s.rows[i].id == Some(id) && s.rows[i].driverId == actor;
      FinishOrCancelGuard(s, actor, id, now);
      FinishOrCancelEffect(s, actor, id, now, i);
      RetireRowPreserves(s, i, s.rows[i].(finishedAt := Some(now)));
    }
  }

  lemma CancelPreserves(s: Store, actor: int, id: int, now: Time)
    requires Consistent(s)
    ensures Consistent(Cancel(s, actor, id, now).1) && Evolves(s, Cancel(s, actor, id, now).1)
  {
    if Cancel(s, actor, id, now).0.Pass? {
      FindOneScopedToDriver(s, actor, id);
      var i :| 0 <= i < |s.rows| && s.rows[i].id == Some(id) && s.rows[i].driverId == actor;
      FinishOrCancelGuard(s, actor, id, now);
      FinishOrCancelEffect(s, actor, id, now, i);
      RetireRowPreserves(s, i, s.rows[i].(canceledAt := Some(now)));
    }
  }

  /** Every command keeps the table consistent and only lets it evolve. */
  lemma ApplyPreserves(s: Store, c: Command)
    requires Consistent(s)
    ensures Consistent(Apply(s, c)) && Evolves(s, Apply(s, c))
  {
    match c
    case CreateCmd(actor, dto) => CreatePreserves(s, actor, dto);
    case ConfirmCmd(actor, id, now) => ConfirmPreserves(s, actor, id, now);
    case FinishCmd(actor, id, now) => FinishPreserves(s, actor, id, now);
    case CancelCmd(actor, id, now) => CancelPreserves(s, actor, id, now);
  }

  lemma EvolvesTransitive(s1: Store, s2: Store, s3: Store)
    requires Evolves(s1, s2) && Evolves(s2, s3)
    ensures Evolves(s1, s3)
  {
  }

  /**
   * From a consistent table, any sequence of commands yields a consistent
   * table that the first one evolves into; in particular every table
   * reachable from the empty database has at most one active trip per
   * driver and per passenger.
   */
  lemma {:induction false} RunPreserves(s: Store, cs: seq<Command>)
    requires Consistent(s)
    ensures Consistent(Run(s, cs)) && Evolves(s, Run(s, cs))
    decreases |cs|
  {
    if cs != [] {
      var s1 := Apply(s, cs[0]);
      ApplyPreserves(s, cs[0]);
      RunPreserves(s1, cs[1..]);
      EvolvesTransitive(s, s1, Run(s1, cs[1..]));
    }
  }

  lemma {:induction false} ReachableIsConsistent(cs: seq<Command>)
    ensures Consistent(Run(EmptyStore(), cs))
  {
    RunPreserves(EmptyStore(), cs);
  }

  /**
   * Finished, canceled and superseded trips are terminal: whatever commands
   * follow, such a trip is never again accepted-and-not-terminal, so it can
   * never again be finished or canceled or make a party busy.
   */
  lemma {:induction false} TerminalStaysTerminal(s: Store, cs: seq<Command>, i: int)
    requires Consistent(s) && 0 <= i < |s.rows|
    requires s.rows[i].finishedAt.Some? || s.rows[i].canceledAt.Some? || s.rows[i].deletedAt.Some?
    ensures i < |Run(s, cs).rows| && !IsInProgress(Run(s, cs).rows[i])
  {
    RunPreserves(s, cs);
    assert RowEvolves(s.rows[i], Run(s, cs).rows[i]);
  }
}
