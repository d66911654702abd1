/** What lies beyond the conditions of the safety theorems: from every reachable state of these kinds, not from
    one chosen state only, some continuation breaks the promise. */
module Hazards {
  import opened Domain
  import opened Counting
  import opened WaitingQueue
  import opened Protocol
  import opened SeatLedger
  import opened ReleaseOnce
  import opened PaidOrReleased
  import opened LedgerRefinement
  import opened SinglePromotion
  import opened SerialSteps
  import opened ExpiryHazards
  import opened SeatsToCome

  // ---------- A head that two batches serve ----------

  /** What a batch that saves one more row for `u` does. */
  ghost predicate RowSavedFor(s: State, t: State, u: UserId) {
    && t.store.queue == s.store.queue
    && |t.store.rows| == |s.store.rows| + 1
    && t.store.rows[..|s.store.rows|] == s.store.rows
    && t.store.rows[|s.store.rows|].user == u
  }

  lemma ReservedState(s: State, i: nat) returns (t: State)
    requires i < |s.batches| && s.store.queue != []
    ensures t == Put(s, i, Reserved(s.clock, ViewOf(s, i)))
    ensures RowSavedFor(s, t, s.store.queue[0].user)
    ensures var u := s.store.queue[0].user;
            t == s.(batches := s.batches[i := s.batches[i].(pc := AddJob(u, |s.store.rows|))],
                    store := s.store.(seats := s.store.seats - 1, rows := t.store.rows),
                    notes := s.notes + [Note(0, 0, 0, 0)], log := s.log.(granted := s.log.granted + 1))
            && t.store.rows == s.store.rows + [Reservation(u, PendingPayment, s.clock + RESERVATION_TTL, None)]
  {
    t := Put(s, i, Reserved(s.clock, ViewOf(s, i)));
  }

  /** A batch at the head of the queue saves a row for it; the user stays where it is. */
  lemma HeadReserved(c: Config, o: State, s: State, i: nat) returns (t: State)
    requires WellFormed(o) && Leads(c, o, s) && WellFormed(s)
    requires i < |s.batches| && Working(s.batches[i]) && s.batches[i].pc.ReadHead?
    requires s.store.queue != [] && s.store.seats >= 1
    ensures Leads(c, o, t) && WellFormed(t) && RowSavedFor(s, t, s.store.queue[0].user)
    ensures var u := s.store.queue[0].user;
            t == s.(batches := s.batches[i := s.batches[i].(pc := AddJob(u, |s.store.rows|))],
                    store := s.store.(seats := s.store.seats - 1, rows := t.store.rows),
                    notes := s.notes + [Note(0, 0, 0, 0)], log := s.log.(granted := s.log.granted + 1))
            && t.store.rows == s.store.rows + [Reservation(u, PendingPayment, s.clock + RESERVATION_TTL, None)]
  {
    ReservedLeads(c, o, s, i);
    t := ReservedState(s, i);
  }

  /** A batch that took a user from the head, and whose DECR was or will be granted, saves a row for it. */
  lemma {:induction false} ServiceGoesOn(c: Config, o: State, s: State, k: nat, u: UserId) returns (t: State)
    requires WellFormed(o) && Leads(c, o, s) && WellFormed(s) && k < |s.batches| && Reserving(s.batches[k], u)
    requires s.batches[k].pc.Decrement? ==> s.store.seats >= 1
    ensures Leads(c, o, t) && WellFormed(t) && RowSavedFor(s, t, u) && SameButFor(s, t, k)
    ensures t.batches[k].alive && t.batches[k].pc == AddJob(u, |s.store.rows|)
    ensures t.store.rows[|s.store.rows|].status.PendingPayment? && t.store.locks == s.store.locks
    ensures t.store.seats == s.store.seats - (if s.batches[k].pc.Decrement? then 1 else 0)
    decreases if s.batches[k].pc.Decrement? then 2 else if s.batches[k].pc.Stamp? then 1 else 0
  {
    StepLeads(c, o, s, BatchStep(k, true));
    var s1 := Apply(c, s, BatchStep(k, true));
    if s.batches[k].pc.SaveRow? {
      t := s1;
    } else {
      t := ServiceGoesOn(c, o, s1, k, u);
    }
  }

  /** All other batches stand where they stood, and no promotion broke off. */
  predicate SameButFor(s: State, t: State, k: nat) {
    && k < |s.batches| == |t.batches| && t.log.broken == s.log.broken
    && forall i :: 0 <= i < |s.batches| && i != k ==> t.batches[i] == s.batches[i]
  }

  /** Rows were only added, the queue stays, no promotion broke off, and batches stay where they are unless they put a
      seat back, add a job or save a row. */
  ghost predicate OnlySeats(s: State, t: State) {
    && s.store.rows <= t.store.rows && t.store.queue == s.store.queue && t.log.broken == s.log.broken
    && |t.batches| == |s.batches|
    && forall n :: 0 <= n < |s.batches| && Uninvolved(s.batches[n]) && !AboutToSave(s.batches[n]) ==>
         t.batches[n] == s.batches[n]
  }

  /** The batch saves its row, which can expire from then on. */
  lemma SavedCanExpire(c: Config, s: State, t: State, k: nat)
    requires Reachable(c, s) && WellFormed(s) && k < |s.batches| == |t.batches|
    requires |t.store.rows| == |s.store.rows| + 1 && t.store.rows[|s.store.rows|].status.PendingPayment?
    requires t.store.locks == s.store.locks && t.batches[k].alive
    requires t.batches[k].pc.AddJob? && t.batches[k].pc.row == |s.store.rows|
    ensures CanExpire(t, |s.store.rows|)
  {
    OrderlyReachable(c, s);
    assert AddsJob(t, |s.store.rows|);
  }

  /** A seat that can be obtained is obtained. */
  lemma SeatObtained(c: Config, s: State) returns (t: State)
    requires Reachable(c, s) && WellFormed(s) && SeatObtainable(s)
    ensures Leads(c, s, t) && WellFormed(t) && OnlySeats(s, t) && t.store.seats >= 1
  {
    LeadsToItself(c, s);
    var s1 := s;
    if k :| 0 <= k < |s.batches| && AboutToSave(s.batches[k]) {
      s1 := ServiceGoesOn(c, s, s, k, s.batches[k].pc.user);
      SavedCanExpire(c, s, s1, k);
    }
    t := SeatHad(c, s, s1);
  }

  /** The row of the other batch is saved, and then a seat is obtained for another. */
  lemma ServedAndSeat(c: Config, s: State, k: nat, u: UserId) returns (t: State)
    requires Reachable(c, s) && WellFormed(s) && k < |s.batches| && Reserving(s.batches[k], u)
    requires s.batches[k].pc.Decrement? ==> s.store.seats >= 1
    ensures Leads(c, s, t) && WellFormed(t) && t.store.seats >= 1 && RowSavedFor(s, t, u)
    ensures t.log.broken == s.log.broken && |t.batches| == |s.batches|
    ensures forall n :: 0 <= n < |s.batches| && s.batches[n].pc.ReadHead? ==> t.batches[n] == s.batches[n]
  {
    LeadsToItself(c, s);
    var s1 := ServiceGoesOn(c, s, s, k, u);
    SavedCanExpire(c, s, s1, k);
    t := SeatHad(c, s, s1);
  }

  lemma RowOf(c: Config, s: State, k: nat, u: UserId) returns (r: nat)
    requires Reachable(c, s) && k < |s.batches| && Finishing(s.batches[k], u)
    ensures r < |s.store.rows| && s.store.rows[r].user == u
  {
    SaneReachable(c, s);
    assert HasRow(s, u);
    r :| r < |s.store.rows| && s.store.rows[r].user == u;
  }

  /** The head has a row already, and there is a seat. */
  lemma SecondRow(c: Config, o: State, s: State, i: nat, r: nat) returns (t: State)
    requires WellFormed(o) && Leads(c, o, s) && WellFormed(s) && s.store.queue != [] && s.store.seats >= 1
    requires i < |s.batches| && Working(s.batches[i]) && s.batches[i].pc.ReadHead?
    requires r < |s.store.rows| && s.store.rows[r].user == s.store.queue[0].user
    ensures Leads(c, o, t) && !OperationRuns.OneRowPerUser(t.store) && t.log.broken == s.log.broken
  {
    t := HeadReserved(c, o, s, i);
    assert t.store.rows[r] == t.store.rows[..|s.store.rows|][r];
  }

  lemma SharedHeadReserving(c: Config, s: State, i: nat, k: nat) returns (t: State)
    requires Reachable(c, s) && WellFormed(s) && s.store.queue != []
    requires i < |s.batches| && k < |s.batches| && Working(s.batches[i]) && s.batches[i].pc.ReadHead?
    requires Reserving(s.batches[k], s.store.queue[0].user)
    requires s.batches[k].pc.Decrement? ==> s.store.seats >= 1
    ensures Leads(c, s, t) && !OperationRuns.OneRowPerUser(t.store) && t.log.broken == s.log.broken
  {
    var s1 := ServedAndSeat(c, s, k, s.store.queue[0].user);
    t := SecondRow(c, s, s1, i, |s.store.rows|);
  }

  /** From every reachable state in which a batch is about to read a head that another batch is serving, and a seat can
      be obtained: two reservations of one user follow. A reservation of the other batch that is to come or pending
      provides that seat itself, since it comes back by expiry while the user heads the queue. */
  lemma SharedHeadPromotesTwice(c: Config, s: State, i: nat, k: nat) returns (t: State)
    requires Reachable(c, s) && WellFormed(s) && s.store.queue != []
    requires i < |s.batches| && k < |s.batches| && Working(s.batches[i]) && s.batches[i].pc.ReadHead?
    requires Serving(s.batches[k], s.store.queue[0].user) && SeatObtainable(s)
    ensures SharedRead(s, BatchStep(i, true))
    ensures Leads(c, s, t) && !OperationRuns.OneRowPerUser(t.store) && t.log.broken == s.log.broken
  {
    if AboutToSave(s.batches[k]) {
      t := SharedHeadReserving(c, s, i, k);
    } else if s.batches[k].pc.Decrement? {
      var s1 := SeatObtained(c, s);
      StillReachable(c, s, s1);
      t := SharedHeadReserving(c, s1, i, k);
      LeadsOn(c, s, s1, t);
    } else {
      var r := RowOf(c, s, k, s.store.queue[0].user);
      var s1 := SeatObtained(c, s);
      t := SecondRow(c, s, s1, i, r);
    }
  }

  /** Requirement 12.3, exactly: when a batch is about to read a head that another one is serving, two reservations of
      one user can follow, with no promotion breaking off, if and only if a seat can still be obtained. */
  lemma SharedHeadPromotesTwiceIff(c: Config, s: State, i: nat, k: nat)
    requires Reachable(c, s) && WellFormed(s) && s.store.queue != []
    requires i < |s.batches| && k < |s.batches| && Working(s.batches[i]) && s.batches[i].pc.ReadHead?
    requires Serving(s.batches[k], s.store.queue[0].user) && OperationRuns.OneRowPerUser(s.store)
    ensures (exists t :: Leads(c, s, t) && !OperationRuns.OneRowPerUser(t.store) && t.log.broken == s.log.broken)
       <==> SeatObtainable(s)
  {
    if SeatObtainable(s) {
      var t := SharedHeadPromotesTwice(c, s, i, k);
    } else {
      forall t | Leads(c, s, t) && t.log.broken == s.log.broken ensures OperationRuns.OneRowPerUser(t.store) {
        NoMoreRows(c, s, t);
      }
    }
  }

  /** When no seat can be obtained, no reservation is ever added again, unless a promotion breaks off. */
  lemma NoMoreRows(c: Config, s: State, t: State)
    requires Reachable(c, s) && WellFormed(s) && !SeatObtainable(s)
    requires Leads(c, s, t) && t.log.broken == s.log.broken
    ensures SameRows(s, t)
  {
    OrderlyReachable(c, s);
    var acts :| LeadsTo(c, s, acts, t);
    UnobtainableForGood(c, s, acts);
  }

  /** Sold out for good, exactly: with a batch about to read the head of the queue, one more reservation can follow, no
      promotion breaking off, if and only if a seat can still be obtained. */
  lemma ReservedAgainIff(c: Config, s: State, i: nat)
    requires Reachable(c, s) && WellFormed(s) && s.store.queue != []
    requires i < |s.batches| && Working(s.batches[i]) && s.batches[i].pc.ReadHead?
    ensures (exists t :: Leads(c, s, t) && |t.store.rows| > |s.store.rows| && t.log.broken == s.log.broken)
       <==> SeatObtainable(s)
  {
    if SeatObtainable(s) {
      var s1 := SeatObtained(c, s);
      var t := HeadReserved(c, s, s1, i);
      assert |t.store.rows| > |s.store.rows|;
    } else {
      forall t | Leads(c, s, t) && t.log.broken == s.log.broken ensures |t.store.rows| == |s.store.rows| {
        NoMoreRows(c, s, t);
      }
    }
  }

  // ---------- A command rejected after the save ----------

  /** The batch runs a promotion whose row is saved. */
  predicate PastSave(b: Batch) { Working(b) && SavedRow(b.pc).Some? && !b.pc.Refund? }

  lemma BatchOpened(c: Config, o: State, s: State) returns (t: State)
    requires WellFormed(o) && Leads(c, o, s) && WellFormed(s) && s.store.activeCount < c.maxActiveUsers
    ensures Leads(c, o, t) && WellFormed(t)
    ensures t == s.(batches := s.batches + [Batch(c.maxActiveUsers - s.store.activeCount, ReadHead, true)],
                    log := t.log)
    ensures t.log == s.log.(peak := Max(s.log.peak, Max(0, Sum(t.batches, Live))), hasty := t.log.hasty)
  {
    StepLeads(c, o, s, OpenBatch);
    t := Apply(c, s, OpenBatch);
  }

  lemma OneMoreOccupied(s: State, t: State, i: nat, b1: Batch, b2: Batch, r: nat, row: Reservation)
    requires |s.notes| == |s.store.rows| && i < |s.batches| && t.batches == s.batches[i := b1] + [b2] && r < |s.notes|
    requires t.notes == Refunded(s.notes, r) + [Note(0, 0, 0, 0)] && t.store.rows == s.store.rows + [row]
    requires Hold(s.batches[i]) == Hold(b1) == Hold(b2) == 0 && row.status.PendingPayment?
    ensures Occupied(t) == Occupied(s) + 1
  {
    SumUpdate(s.batches, i, b1, Hold);
    SumAppend(s.batches[i := b1], b2, Hold);
    var before, refunded := Bookings(s), Booking(s.store.rows[r], Refunded(s.notes, r)[r]);
    assert Bookings(t) == before[r := refunded] + [Booking(row, Note(0, 0, 0, 0))];
    SumUpdate(before, r, refunded, Claims);
    SumAppend(before[r := refunded], Booking(row, Note(0, 0, 0, 0)), Claims);
  }

  /** A batch breaks off after its save, and a new one reserves a seat for the head of the queue. */
  lemma RefundedAndReserved(c: Config, s: State, i: nat, r: nat) returns (t: State)
    requires Reachable(c, s) && WellFormed(s) && i < |s.batches| && PastSave(s.batches[i]) && Owns(s.batches[i], r)
    requires s.store.queue != [] && s.store.seats >= 0 && s.store.activeCount < c.maxActiveUsers
    ensures Leads(c, s, t) && WellFormed(t) && RowSavedFor(s, t, s.store.queue[0].user)
    ensures t.notes == Refunded(s.notes, r) + [Note(0, 0, 0, 0)] && t.store.rows[|s.store.rows|].status.PendingPayment?
    ensures t.store.rows == s.store.rows + [t.store.rows[|s.store.rows|]]
    ensures |t.batches| == |s.batches| + 1 && Hold(t.batches[|s.batches|]) == 0
    ensures t.batches == s.batches[i := s.batches[i].(pc := BatchOver)] + [t.batches[|s.batches|]]
  {
    LeadsToItself(c, s);
    var s1 := BreaksOff(c, s, s, i, r);
    var s2 := BatchOpened(c, s, s1);
    t := HeadReserved(c, s, s2, |s.batches|);
    assert t.batches == s1.batches + [t.batches[|s.batches|]];
  }

  /** From every reachable state with a batch past its save, with a user waiting and a slot to fill: the seat is
      refunded though the row stays, and goes to whoever heads the queue, that is, to the same user again if the
      batch had not come to its ZREM. If the house was fully occupied before, it is oversold now. */
  lemma LateRefundOversells(c: Config, s: State, i: nat) returns (t: State)
    requires Reachable(c, s) && WellFormed(s) && i < |s.batches| && PastSave(s.batches[i])
    requires s.store.queue != [] && s.store.seats >= 0 && s.store.activeCount < c.maxActiveUsers
    ensures Leads(c, s, t) && WellFormed(t) && RowSavedFor(s, t, s.store.queue[0].user)
    ensures var r := SavedRow(s.batches[i].pc).value;
            r < |s.notes| < |t.notes| && t.notes[r].refunds == s.notes[r].refunds + 1
    ensures Occupied(t) == Occupied(s) + 1
    ensures Occupied(s) >= c.event.totalSeats ==> Occupied(t) > c.event.totalSeats
  {
    var r := SavedRow(s.batches[i].pc).value;
    t := RefundedAndReserved(c, s, i, r);
    OneMoreOccupied(s, t, i, s.batches[i].(pc := BatchOver), t.batches[|s.batches|], r, t.store.rows[|s.store.rows|]);
  }

  // ---------- A seat that comes back under a loser ----------

  /** From every reachable state in which the seats that are free are all owed by losers between DECR and INCR:
      the next DECR denies its user, whose entry ends EXPIRED, off the queue, with as many seats free as before. */
  lemma DeniedThoughFree(c: Config, s: State, i: nat, u: UserId) returns (t: State)
    requires Reachable(c, s) && WellFormed(s) && i < |s.batches| && Working(s.batches[i])
    requires s.batches[i].pc == Decrement(u) && u in s.store.entries && s.store.seats < 1 <= Abs(s).free
    ensures Leads(c, s, t) && |t.notes| == |t.store.rows|
    ensures u in t.store.entries && !InQueue(t.store.queue, u) && t.store.rows == s.store.rows
    ensures t.store.entries[u] == s.store.entries[u].(status := EntryStatus.Expired)
    ensures Abs(t).free == Abs(s).free && t.log == s.log.(denied := s.log.denied + 1)
  {
    LeadsToItself(c, s);
    DenialLeads(c, s, s, i, u);
    t := AfterDenial(s, i, u);
    SumUpdate(s.batches, i, t.batches[i], Losing);
    SaneReachable(c, s);
    RemoveKeepsOrder(s.store.queue, u);
  }
}
