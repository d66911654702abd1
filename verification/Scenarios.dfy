/** Concrete schedules in which a promise of the design fails, and what they show about the bounds of the matching
    theorems. */
module Scenarios {
  import opened Domain
  import opened Counting
  import opened WaitingQueue
  import opened Protocol
  import opened SeatLedger
  import opened TimelyRelease
  import opened LedgerRefinement
  import opened SinglePromotion
  import opened SerialSteps
  import opened Hazards
  import opened ExpiryHazards
  import opened SeatsToCome

  /** An event with `total` seats, on sale throughout, `limit` active users at a time. */
  function Show(total: nat, limit: nat): Config { Config(Event(total, 0, 100_000_000), limit, 0) }

  // ---------- The beginning that all scenarios share ----------

  /** User 7 waits and one batch is about to read the head of the queue. */
  function BatchReady(total: nat, limit: nat): State {
    var entries := map[7 := Entry(EntryStatus.Waiting, 1, None)];
    State(0, EventStore(total, [Member(0, 7)], entries, [], map[], map[], 0, map[]),
          [Batch(limit, ReadHead, true)], [], [], Log(0, 0, 0, 0, 0, false, 1, 0))
  }

  lemma BatchReadyReachable(total: nat, limit: nat)
    requires limit > 0
    ensures Reachable(Show(total, limit), BatchReady(total, limit)) && WellFormed(BatchReady(total, limit))
  {
    var c := Show(total, limit);
    LeadsToItself(c, Initial(c));
    StepLeads(c, Initial(c), Initial(c), Enter(7));
    var s1 := Apply(c, Initial(c), Enter(7));
    assert s1 == Initial(c).(store := BatchReady(total, limit).store);
    StepLeads(c, Initial(c), s1, OpenBatch);
    OneLive([Batch(limit, ReadHead, true)]);
    assert Sum<Batch>([], Live) == 0;
    assert Apply(c, s1, OpenBatch) == BatchReady(total, limit);
  }

  lemma OneLive(batches: seq<Batch>)
    requires |batches| == 1
    ensures Sum(batches, Live) == Live(batches[0]) && Sum(batches, Uncounted) == Uncounted(batches[0])
    ensures Sum(batches, Losing) == Losing(batches[0]) && Sum(batches, Hold) == Hold(batches[0])
  {}

  /** The row of user 7 is saved within the same millisecond; the batch has its commands after the save before it. */
  lemma RowSaved(total: nat) returns (s: State)
    requires total >= 1
    ensures Reachable(Show(total, 1), s) && WellFormed(s) && s.clock == 0 && s.runs == []
    ensures s.log == Log(1, 0, 0, 0, 0, false, 1, 0) && s.batches == [Batch(1, AddJob(7, 0), true)]
    ensures s.notes == [Note(0, 0, 0, 0)]
    ensures s.store == BatchReady(total, 1).store.(seats := total - 1,
                                                   rows := [Reservation(7, PendingPayment, RESERVATION_TTL, None)])
  {
    var c := Show(total, 1);
    BatchReadyReachable(total, 1);
    ReservedLeads(c, Initial(c), BatchReady(total, 1), 0);
    s := Put(BatchReady(total, 1), 0, Reserved(0, ViewOf(BatchReady(total, 1), 0)));
  }

  /** The whole promotion within one millisecond. */
  lemma SoldAtOnce(total: nat, limit: nat) returns (s: State)
    requires total >= 1 && limit >= 1
    ensures Reachable(Show(total, limit), s) && WellFormed(s) && s.clock == 0 && s.runs == []
    ensures s.store.rows == [Reservation(7, PendingPayment, RESERVATION_TTL, None)]
    ensures s.store.jobs == map[0 := RESERVATION_TTL] && s.notes == [Note(0, 0, 0, 0)] && s.store.locks == map[]
    ensures s.store.seats == total - 1 && s.store.queue == [] && s.store.activeCount == 1 && s.store.entries.Keys == {7}
    ensures s.log == Log(1, 0, 0, 0, 0, false, 1, 0) && s.batches == [NextTurn(Batch(limit, ReadHead, true))]
  {
    var c := Show(total, limit);
    BatchReadyReachable(total, limit);
    PromotionLeads(c, Initial(c), BatchReady(total, limit), 0);
    s := AfterPromotion(BatchReady(total, limit), 0, true);
  }

  // ---------- Broken promises of promotion ----------

  /** One seat, one rejected job submission: two unreleased reservations for the one seat, both of the same user. */
  lemma LateFaultOversells() returns (c: Config, s: State)
    ensures Reachable(c, s) && c.event.totalSeats == 1 && |s.notes| == |s.store.rows| && Occupied(s) == 2
    ensures |s.store.rows| == 2 && s.store.rows[0].user == s.store.rows[1].user
  {
    c := Show(1, 1);
    var s0 := RowSaved(1);
    OccupiedByOne(s0);
    s := LateRefundOversells(c, s0, 0);
    assert s.store.rows[..1][0].user == 7;
    StillReachable(c, s0, s);
  }

  lemma OccupiedByOne(s: State)
    requires s.batches == [Batch(1, AddJob(7, 0), true)] && s.notes == [Note(0, 0, 0, 0)]
    requires |s.store.rows| == 1 && s.store.rows[0].status.PendingPayment?
    ensures Occupied(s) == 1
  {
    OneLive(s.batches);
    assert Bookings(s)[..0] == [] && Sum(Bookings(s)[..0], Claims) == 0;
  }

  /** Two overlapping batches serve the same head: one user gets two reservations for one seat though nothing failed. */
  lemma OverlapPromotesTwice() returns (c: Config, s: State)
    ensures Reachable(c, s) && c.event.totalSeats == 1 && s.log.broken == 0
    ensures !OperationRuns.OneRowPerUser(s.store)
  {
    c := Show(1, 1);
    var s0 := RowSaved(1);
    var s1 := BatchOpened(c, Initial(c), s0);
    assert Serving(s1.batches[0], 7);
    assert AddsJob(s1, 0) && CanExpire(s1, 0);
    s := SharedHeadPromotesTwice(c, s1, 1, 0);
    StillReachable(c, s1, s);
  }

  /** User 8 has no reservation. */
  predicate OnlySevenReserved(s: State) {
    && 8 in s.store.entries && s.store.entries[8].reservation.None?
    && |s.store.rows| == 1 && s.store.rows[0].user == 7
  }

  /** User 8 lost against the last seat, which then comes back before the losing batch's INCR. */
  lemma LoserInFlight() returns (s: State)
    ensures Reachable(Show(1, 3), s) && WellFormed(s) && 8 in s.store.entries && s.store.activeCount == 1
    ensures s.batches == [Batch(2, Undo(8), true)] && s.store.queue == [Member(0, 8)] && s.store.seats == 0
    ensures s.log.broken == 0 && OnlySevenReserved(s)
  {
    var c := Show(1, 3);
    var s0 := SoldAtOnce(1, 3);
    var s1 := LostLastSeat(c, s0);
    var s2 := Waited(c, Initial(c), s1, RESERVATION_TTL);
    var s3 := RunStarts(c, Initial(c), s2, 0);
    s := SeatReturned(c, Initial(c), s3, 0);
  }

  lemma LostLastSeat(c: Config, s: State) returns (t: State)
    requires Reachable(c, s) && WellFormed(s) && s.clock == 0 && OnSale(c.event, 0)
    requires s.store.queue == [] && s.store.entries.Keys == {7} && s.store.seats == 0
    requires s.batches == [Batch(2, ReadHead, true)]
    ensures Reachable(c, t) && WellFormed(t)
    ensures t.store == s.store.(queue := [Member(0, 8)], entries := t.store.entries, seats := -1)
    ensures 8 in t.store.entries && t.store.entries[8].reservation.None?
    ensures t == s.(store := t.store, batches := [Batch(2, Undo(8), true)], log := s.log.(denied := s.log.denied + 1))
  {
    StepLeads(c, Initial(c), s, Enter(8));
    var s1 := Apply(c, s, Enter(8));
    var s2 := HeadRead(c, s1);
    t := LastSeatGone(c, s2);
  }

  lemma HeadRead(c: Config, s: State) returns (t: State)
    requires Reachable(c, s) && WellFormed(s) && s.store.queue == [Member(0, 8)]
    requires s.batches == [Batch(2, ReadHead, true)]
    ensures Reachable(c, t) && WellFormed(t) && t == s.(batches := [Batch(2, Decrement(8), true)])
  {
    StepLeads(c, Initial(c), s, BatchStep(0, true));
    t := Apply(c, s, BatchStep(0, true));
  }

  lemma LastSeatGone(c: Config, s: State) returns (t: State)
    requires Reachable(c, s) && WellFormed(s) && s.store.seats == 0 && s.batches == [Batch(2, Decrement(8), true)]
    ensures Reachable(c, t) && WellFormed(t)
    ensures t == s.(store := s.store.(seats := -1), batches := [Batch(2, Undo(8), true)],
                    log := s.log.(denied := s.log.denied + 1))
  {
    StepLeads(c, Initial(c), s, BatchStep(0, true));
    t := Apply(c, s, BatchStep(0, true));
  }

  lemma AboutToBeDenied() returns (s: State)
    ensures Reachable(Show(1, 3), s) && WellFormed(s) && 8 in s.store.entries && s.store.seats == 0 && Abs(s).free == 1
    ensures s.batches == [Batch(2, Undo(8), true), Batch(2, Decrement(8), true)]
    ensures s.log.broken == 0 && OnlySevenReserved(s)
  {
    var c := Show(1, 3);
    var s0 := LoserInFlight();
    var s1 := BatchOpened(c, Initial(c), s0);
    StepLeads(c, Initial(c), s1, BatchStep(1, true));
    s := Apply(c, s1, BatchStep(1, true));
    OneSeatOwed(s, s0.batches);
  }

  lemma OneSeatOwed(s: State, first: seq<Batch>)
    requires |s.notes| == |s.store.rows| && s.store.seats == 0 && first == [Batch(2, Undo(8), true)]
    requires s.batches == first + [Batch(2, Decrement(8), true)]
    ensures Abs(s).free == 1
  {
    OneLive(first);
    SumAppend(first, Batch(2, Decrement(8), true), Losing);
  }

  /** A user is turned away although a seat is free: off the queue, EXPIRED, and without ever a reservation. */
  lemma DeniedWithFreeSeat() returns (c: Config, s: State, u: UserId)
    ensures Reachable(c, s) && |s.notes| == |s.store.rows| && Abs(s).free >= 1 && s.log.broken == 0
    ensures u in s.store.entries && s.store.entries[u].status.Expired? && !InQueue(s.store.queue, u)
    ensures s.log.denied >= 1 && s.store.entries[u].reservation.None? && !HasRow(s, u)
  {
    c, u := Show(1, 3), 8;
    s := EightDenied();
    assert s.store.rows[0].user == 7;
  }

  lemma EightDenied() returns (s: State)
    ensures Reachable(Show(1, 3), s) && |s.notes| == |s.store.rows| && Abs(s).free >= 1 && s.log.broken == 0
    ensures OnlySevenReserved(s) && s.store.entries[8].status.Expired? && !InQueue(s.store.queue, 8)
    ensures s.log.denied >= 1
  {
    var s0 := AboutToBeDenied();
    s := DeniedThoughFree(Show(1, 3), s0, 1, 8);
    StillReachable(Show(1, 3), s0, s);
  }

  // ---------- Broken promises of expiry ----------

  /** The reservation was paid for and its seat is back in the counter, or it is no longer PAID. */
  lemma PaidAndReleased() returns (c: Config, s: State)
    ensures Reachable(c, s) && PaidAndLost(s, 0)
  {
    c := Show(1, 1);
    var s0 := SoldAtOnce(1, 1);
    s := PaidThenLost(c, s0, 0);
    StillReachable(c, s0, s);
  }

  /** Two windows of exactly half the life of a lock return the one seat of an event twice. */
  lemma HalfLockWindowReleasesTwice() returns (c: Config, s: State)
    ensures Reachable(c, s) && c.event.totalSeats == 1 && s.log.window <= HALF_LOCK && s.store.seats == 2
    ensures |s.notes| == 1 && Returns(s.notes[0]) == 2 && s.notes[0].refunds == 0
  {
    c := Show(1, 1);
    var s0 := SoldAtOnce(1, 1);
    s := HalfLockReleasesTwice(c, Initial(c), s0, 0);
  }

  /** One command rejected after the save, then one punctual expiry run: the one seat of an event is returned twice,
      though no run has spent any time between its read and its status write. */
  lemma RefundedAndReleased() returns (c: Config, s: State)
    ensures Reachable(c, s) && c.event.totalSeats == 1 && s.log.window == 0 && s.store.seats == 2
    ensures |s.notes| == 1 && Returns(s.notes[0]) == 2 && s.notes[0].refunds == 1
  {
    c := Show(1, 1);
    var s0 := RowSaved(1);
    var s1 := JobAdded(c, Initial(c), s0, 0, 0);
    s := ReleasedThenRefunded(c, s1);
  }

  lemma ReleasedThenRefunded(c: Config, s: State) returns (t: State)
    requires Reachable(c, s) && WellFormed(s) && s.runs == [] && s.store.seats == 0 && s.notes == [Note(0, 0, 0, 0)]
    requires |s.store.rows| == 1 && s.store.rows[0].status.PendingPayment? && 0 in s.store.jobs
    requires s.store.locks == map[]
    requires s.batches == [Batch(1, MarkActive(7, 0), true)] && s.log.window == 0
    ensures Reachable(c, t) && t.log.window == 0 && t.store.seats == 2
    ensures |t.notes| == 1 && Returns(t.notes[0]) == 2 && t.notes[0].refunds == 1
  {
    var s1 := FirstRelease(c, Initial(c), s, 0);
    t := BreaksOff(c, Initial(c), s1, 0, 0);
  }

  /** Requirement 12.2, exactly: a bound `d` on the time from the read of an expiry run to its status write makes the
      seat of every reservation whose promotion did not break off come back at most once if and only if it is at most
      half the life of a lock. */
  lemma WindowBoundIsSharp(d: Time)
    ensures (forall c, s, r :: Reachable(c, s) && s.log.window < d && 0 <= r < |s.notes| && s.notes[r].refunds == 0 ==>
               Returns(s.notes[r]) <= 1)
       <==> 2 * d <= LOCK_TTL
  {
    if 2 * d <= LOCK_TTL {
      forall c, s, r | Reachable(c, s) && s.log.window < d && 0 <= r < |s.notes| && s.notes[r].refunds == 0
        ensures Returns(s.notes[r]) <= 1
      {
        ReleasedExactlyOnce(c, s, r);
      }
    } else {
      var c, s := HalfLockWindowReleasesTwice();
      assert Returns(s.notes[0]) == 2;
    }
  }
}
