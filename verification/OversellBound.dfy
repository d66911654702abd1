/** How slow expiry runs may be before a house is oversold though nothing breaks off: batches one at a time, every job
    due after its reservation expires. */
module OversellBound {
  import opened Domain
  import opened Counting
  import opened Protocol
  import opened SeatLedger
  import opened PaidOrReleased
  import opened TimelyRelease
  import opened LedgerRefinement
  import opened SerialSteps
  import opened ExpiryHazards
  import opened Hazards
  import opened LimitAttained

  /** One batch is about to read the queue, which is empty, and no expiry run is in its window. */
  ghost predicate Calm(c: Config, s: State, ms: int) {
    && Idle(c, s, ms) && |s.batches| == 1 && s.batches[0].pc.ReadHead? && s.batches[0].alive
    && AloneInWindow(s.runs, |s.runs|) && s.log.window >= 0 && |s.notes| == |s.store.rows|
  }

  /** The user has a row, saved at `now`, whose job falls due a millisecond after the row expires. */
  ghost predicate PromotedOne(s: State, t: State) {
    && |t.store.rows| == |s.store.rows| + 1 && t.store.rows[..|s.store.rows|] == s.store.rows
    && t.store.rows[|s.store.rows|].status.PendingPayment?
    && t.store.rows[|s.store.rows|].expiresAt == s.clock + RESERVATION_TTL
    && t.store.jobs == s.store.jobs[|s.store.rows| := s.clock + 1 + RESERVATION_TTL]
    && t.notes == s.notes + [Note(0, 0, 0, 0)] && t.clock == s.clock + 1
    && t.store.seats == s.store.seats - 1 && t.store.locks == s.store.locks
    && t.log == s.log.(granted := s.log.granted + 1)
    && |s.batches| == 1 && t.batches == [NextTurn(s.batches[0])] && t.runs == s.runs && t.store.queue == []
  }

  /** Batches one at a time, nothing broken, jobs due after expiry. */
  ghost predicate Clean(s: State) { s.log.peak == 1 && s.log.broken == 0 && Unforced(s) }

  lemma PromotedAfterSave(s: State, s1: State, s2: State, t: State, u: UserId)
    requires JoinedAndSaved(s, s1, 0, u) && |s.batches| == 1
    requires s2 == s1.(clock := s1.clock + 1)
    requires t == Put(s2, 0, Finished(s2.clock, ViewOf(s2, 0), u, |s.store.rows|))
    ensures PromotedOne(s, t)
  {}

  /** A user joins and is promoted; the job is added one millisecond after the row was saved. */
  lemma Promotes(c: Config, s: State, ms: int) returns (t: State)
    requires Calm(c, s, ms + 1) && ms >= 0 && s.store.seats >= 1 && s.batches[0].slots >= 2
    ensures Calm(c, t, ms) && PromotedOne(s, t)
  {
    var s1, u := UserReserved(c, s, 0);
    var s2 := QuietWait(c, Initial(c), s1, s1.clock + 1);
    FinishedLeads(c, Initial(c), s2, 0, u, |s.store.rows|);
    t := Put(s2, 0, Finished(s2.clock, ViewOf(s2, 0), u, |s.store.rows|));
    PromotedAfterSave(s, s1, s2, t, u);
  }

  /** The seat of the one row is returned twice, and the row is EXPIRED. */
  lemma ReturnedTwice(c: Config, s: State, ms: int) returns (t: State)
    requires Calm(c, s, RESERVATION_TTL + LOCK_TTL + ms) && |s.store.rows| == 1 && s.store.locks == map[]
    requires s.store.rows[0].status.PendingPayment? && 0 in s.store.jobs && s.store.jobs[0] <= s.clock + RESERVATION_TTL
    requires s.notes == [Note(0, 0, 0, 0)]
    ensures Calm(c, t, ms) && t.store.seats == s.store.seats + 2 && t.store.jobs == s.store.jobs
    ensures |t.store.rows| == 1 && t.store.rows[0] == s.store.rows[0].(status := ReservationStatus.Expired)
    ensures t.notes[0].refunds == 0 && t.batches == s.batches
    ensures t.log == s.log.(window := t.log.window) && s.log.window <= t.log.window <= Max(s.log.window, HALF_LOCK)
  {
    var s1 := HalfLockReleasesTwice(c, Initial(c), s, 0);
    t := RowMarked(c, Initial(c), s1, |s1.runs| - 1);
  }

  lemma Opened(c: Config) returns (s: State)
    requires c.maxActiveUsers > 0 && c.event.salesStartAt <= c.start
    ensures Calm(c, s, c.event.salesEndAt - c.start) && s.batches == [Batch(c.maxActiveUsers, ReadHead, true)]
    ensures s.store == NewStore(c.event.totalSeats) && s.notes == [] && s.clock == c.start
    ensures s.log.peak == 1 && s.log.broken == 0 && s.log.window == 0
  {
    LeadsToItself(c, Initial(c));
    SumAppend([], Batch(c.maxActiveUsers, ReadHead, true), Live);
    s := BatchOpened(c, Initial(c), Initial(c));
  }

  /** Three bookings, the first without a claim. */
  lemma TwoClaims(bookings: seq<Booking>)
    requires |bookings| == 3 && Claims(bookings[0]) == 0 && Claims(bookings[1]) == 1 && Claims(bookings[2]) == 1
    ensures Sum(bookings, Claims) == 2
  {
    assert bookings[..2][..1] == bookings[..1] && bookings[..1][..0] == [];
    assert Sum(bookings[..1], Claims) == 0;
    assert Sum(bookings[..2], Claims) == 1;
  }

  lemma OccupiedTwice(s: State)
    requires |s.notes| == |s.store.rows| == 3 && |s.batches| == 1 && Hold(s.batches[0]) == 0
    requires s.store.rows[0].status.Expired?
    requires s.store.rows[1].status.PendingPayment? && s.store.rows[2].status.PendingPayment?
    requires s.notes[1] == s.notes[2] == Note(0, 0, 0, 0)
    ensures Occupied(s) == 2
  {
    TwoClaims(Bookings(s));
    assert Sum(s.batches[..0], Hold) == 0;
  }

  /** The seat of the one row, which is EXPIRED, is back twice: two more users get it. */
  lemma SoldTwiceMore(c: Config, s: State) returns (t: State)
    requires Calm(c, s, 1) && s.store.seats == 2 && |s.store.rows| == 1 && s.store.rows[0].status.Expired?
    requires s.batches[0].slots >= 2 && Clean(s) && s.store.jobs.Keys == {0}
    ensures Reachable(c, t) && |t.notes| == |t.store.rows| && Occupied(t) == 2 && Clean(t)
    ensures t.log.window == s.log.window
  {
    var s1 := Promotes(c, s, 0);
    var u;
    t, u := UserReserved(c, s1, 0);
    assert t.store.rows[1] == s1.store.rows[1] && t.store.rows[0] == s1.store.rows[..1][0];
    OccupiedTwice(t);
    StillClean(s, s1, t, u);
  }

  lemma StillClean(s: State, s1: State, t: State, u: UserId)
    requires Clean(s) && |s.notes| == |s.store.rows| == 1 && s.store.jobs.Keys == {0}
    requires PromotedOne(s, s1) && JoinedAndSaved(s1, t, 0, u)
    ensures Clean(t)
  {
    assert s1.store.rows[0] == s1.store.rows[..1][0];
    forall r | 0 <= r < |t.store.rows| ensures Punctual(t, r) { assert Punctual(s, 0); }
  }

  /** The first sale. */
  lemma SoldInTime(c: Config) returns (s: State)
    requires c == Config(Event(1, 0, 10_000_000), 3, 0)
    ensures Calm(c, s, 9_000_000) && s.store.seats == 0 && |s.store.rows| == 1 && s.store.locks == map[] && s.clock == 1
    ensures s.store.rows[0].status.PendingPayment? && s.store.rows[0].expiresAt == RESERVATION_TTL
    ensures s.store.jobs == map[0 := 1 + RESERVATION_TTL] && s.notes == [Note(0, 0, 0, 0)]
    ensures s.batches[0].slots == 2 && s.log.peak == 1 && s.log.broken == 0 && s.log.window == 0
  {
    var s0 := Opened(c);
    s := Promotes(c, s0, 9_000_000);
  }

  /** The first sale, and the seat back twice. */
  lemma ReturnedOnTime(c: Config) returns (s: State)
    requires c == Config(Event(1, 0, 10_000_000), 3, 0)
    ensures Calm(c, s, 1) && s.store.seats == 2 && |s.store.rows| == 1 && s.store.rows[0].status.Expired?
    ensures s.batches[0].slots >= 2 && Clean(s) && s.store.jobs.Keys == {0} && s.log.window <= HALF_LOCK
  {
    var s1 := SoldInTime(c);
    s := ReturnedTwice(c, s1, 1);
  }

  /** One seat, sold, returned twice, and sold twice more to others. */
  lemma OversoldOnTime() returns (c: Config, s: State)
    ensures Reachable(c, s) && |s.notes| == |s.store.rows| && s.log.window <= HALF_LOCK && Clean(s)
    ensures Occupied(s) == 2 && c.event.totalSeats == 1
  {
    c := Config(Event(1, 0, 10_000_000), 3, 0);
    var s1 := ReturnedOnTime(c);
    s := SoldTwiceMore(c, s1);
  }

  /** Oversell by slow expiry runs, exactly: of events where batches never overlap, nothing breaks off and jobs are due
      after expiry, none is ever oversold with all runs below `d` from their read to their status write, if and only
      if `d` is at most half the life of a lock. */
  lemma OversellBoundIsSharp(d: Time)
    ensures (forall c, s :: Reachable(c, s) && |s.notes| == |s.store.rows| && s.log.window < d && Clean(s) ==>
               Occupied(s) <= c.event.totalSeats)
       <==> 2 * d <= LOCK_TTL
  {
    if 2 * d <= LOCK_TTL {
      forall c, s | Reachable(c, s) && |s.notes| == |s.store.rows| && s.log.window < d && Clean(s)
        ensures Occupied(s) <= c.event.totalSeats
      {
        NoOversell(c, s);
      }
    } else {
      var c, s := OversoldOnTime();
      assert Occupied(s) == 2;
    }
  }
}
