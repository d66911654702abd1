/** The stores when nothing is under way: what ties Redis to the database after any interleaving that is tidy. */
module AtRest {
  import opened Domain
  import opened Counting
  import opened WaitingQueue
  import opened Operations
  import opened Coupling
  import opened Protocol
  import opened SeatLedger
  import opened ReleaseOnce
  import opened PaidOrReleased
  import opened TimelyRelease
  import opened LedgerRefinement
  import opened SinglePromotion
  import opened TidyEntries

  // ---------- Who marks the entry of an expired reservation ----------

  /** Took the lock of row `r` at some time. */
  predicate Holder(x: ExpiryRun, r: nat) {
    || Committed(x, r)
    || (x.row == r && (x.pc.MarkEntry? || x.pc.DeleteKey? || x.pc.UncountKey? || x.pc == RunOver(ExpiredNow)))
  }

  /** While the lock of row `r` was taken once, one run is at it, and that run expires the row. */
  ghost predicate HeldOnce(s: State, r: nat)
    requires r < |s.notes| && r < |s.store.rows|
  {
    s.notes[r].acquires <= 1 ==>
      && (forall j, k :: 0 <= j < |s.runs| && 0 <= k < |s.runs| ==>
            Holder(s.runs[j], r) && Holder(s.runs[k], r) ==> j == k)
      && (forall j :: 0 <= j < |s.runs| && Holder(s.runs[j], r) ==> s.notes[r].acquires == 1)
      && (forall j :: 0 <= j < |s.runs| && Committed(s.runs[j], r) ==> !s.store.rows[r].status.Expired?)
  }

  ghost predicate AllHeldOnce(s: State) {
    |s.notes| == |s.store.rows| && forall r :: 0 <= r < |s.notes| ==> HeldOnce(s, r)
  }

  lemma RunStepHeld(c: Config, s: State, j: nat, ok: bool)
    requires WellFormed(s) && Enabled(s, RunStep(j, ok)) && LocksKept(s) && Delivered(s) && AllHeldOnce(s)
    ensures AllHeldOnce(Apply(c, s, RunStep(j, ok)))
  {
    var t, x := Apply(c, s, RunStep(j, ok)), s.runs[j];
    RunFrame(s, x, ok);
    forall r | 0 <= r < |t.notes| ensures HeldOnce(t, r) {
      assert HeldOnce(s, r);
      if r == x.row { OwnRowHeld(c, s, j, ok); }
    }
  }

  lemma OwnRowHeld(c: Config, s: State, j: nat, ok: bool)
    requires WellFormed(s) && Enabled(s, RunStep(j, ok)) && HeldOnce(s, s.runs[j].row)
    requires LockHistory(s, s.runs[j].row) && Delivered(s)
    ensures HeldOnce(Apply(c, s, RunStep(j, ok)), s.runs[j].row)
  {
    var t, x := Apply(c, s, RunStep(j, ok)), s.runs[j];
    RunFrame(s, x, ok);
    SumNonNegative(s.runs, Owing(x.row));
    HolderMoves(s, x, ok);
  }

  /** A run becomes a holder only by taking the lock, and leaves the commitment only by writing the row. */
  lemma HolderMoves(s: State, x: ExpiryRun, ok: bool)
    requires x.row < |s.store.rows| && x.row < |s.notes|
    ensures var y, r := RunDoes(s, x, ok).run, x.row;
            && (Holder(y, r) <==> Holder(x, r) || (ok && x.pc.TakeLock? && !LockHeld(s.store.locks, r, s.clock)))
            && (Committed(y, r) ==> Committed(x, r) || (ok && x.pc.TakeLock?))
            && (ok && x.pc.MarkRow? ==> !Committed(y, r) && Committed(x, r))
  {}

  lemma StepKeepsHeld(c: Config, s: State, a: Action)
    requires WellFormed(s) && Enabled(s, a) && LocksKept(s) && Delivered(s) && AllHeldOnce(s)
    ensures AllHeldOnce(Apply(c, s, a))
  {
    var t := Apply(c, s, a);
    match a
    case RunStep(j, ok) => RunStepHeld(c, s, j, ok);
    case BatchStep(i, ok) =>
      BatchFrameRows(s, s.batches[i], ok);
      NotesKept(s, s.batches[i], ok);
      forall r | 0 <= r < |t.notes| ensures HeldOnce(t, r) { if r < |s.notes| { SameRunsHeld(s, t, r); } }
    case Deliver(_) =>
      forall r | 0 <= r < |t.notes| ensures HeldOnce(t, r) { assert HeldOnce(s, r); }
    case _ =>
      forall r | 0 <= r < |t.notes| ensures HeldOnce(t, r) { SameRunsHeld(s, t, r); }
  }

  lemma SameRunsHeld(s: State, t: State, r: nat)
    requires r < |s.notes| && r < |s.store.rows| && r < |t.notes| && r < |t.store.rows| && HeldOnce(s, r)
    requires t.runs == s.runs && t.notes[r].acquires == s.notes[r].acquires
    requires t.store.rows[r].status.Expired? ==> s.store.rows[r].status.Expired?
    ensures HeldOnce(t, r)
  {}

  /** Until the one run that expires a row has marked the entry, the entry is still ACTIVE. */
  ghost predicate MarkerTidy(s: State, r: nat)
    requires r < |s.notes| && r < |s.store.rows|
  {
    var u := s.store.rows[r].user;
    s.notes[r].acquires <= 1 && Unmarked(s, r) && Entered(s, u) ==>
      u in s.store.entries && s.store.entries[u].status.Active?
  }

  ghost predicate MarkersTidy(s: State) {
    |s.notes| == |s.store.rows| && forall r :: 0 <= r < |s.notes| ==> MarkerTidy(s, r)
  }

  lemma RunStepMarkers(c: Config, s: State, j: nat, ok: bool)
    requires WellFormed(s) && Enabled(s, RunStep(j, ok)) && ServedOnce(s) && EntriesTidy(s) && QueueSane(s)
    requires AllHeldOnce(s) && AllPaidApart(s) && Punctual(s, s.runs[j].row) && MarkersTidy(s)
    ensures MarkersTidy(Apply(c, s, RunStep(j, ok)))
  {
    var t, x := Apply(c, s, RunStep(j, ok)), s.runs[j];
    RunFrame(s, x, ok);
    RunWritesEntries(s, x, ok);
    forall r | 0 <= r < |t.notes| ensures MarkerTidy(t, r) {
      assert MarkerTidy(s, r) && HeldOnce(s, r) && PaidApart(s, r);
      var u := s.store.rows[r].user;
      assert EntryTidy(s, u);
      if Unmarked(t, r) && Entered(t, u) {
        var k :| 0 <= k < |t.runs| && t.runs[k].row == r && t.runs[k].pc.MarkEntry?;
        assert forall n :: 0 <= n < |s.batches| ==> !Entering(t.batches[n], u);
        if k == j && x.pc.MarkRow? { assert Touching(x, r) && Committed(x, r); }
        if k != j { assert s.runs[k].row == r && Holder(s.runs[k], r); }
      }
    }
  }

  lemma BatchStepMarkers(c: Config, s: State, i: nat, ok: bool)
    requires WellFormed(s) && Enabled(s, BatchStep(i, ok)) && QueueSane(s) && Attended(s) && MarkersTidy(s)
    requires Apply(c, s, BatchStep(i, ok)).log.broken == 0
    ensures MarkersTidy(Apply(c, s, BatchStep(i, ok)))
  {
    var t, b := Apply(c, s, BatchStep(i, ok)), s.batches[i];
    BatchFrameRows(s, b, ok);
    NotesKept(s, b, ok);
    BatchWritesEntries(s, b, ok);
    forall r | 0 <= r < |t.notes| && Unmarked(t, r) ensures MarkerTidy(t, r) {
      var u := t.store.rows[r].user;
      assert Unmarked(s, r) && MarkerTidy(s, r);
      EnteringEnds(s, b, ok, u);
      assert HasRow(s, u);
      if b.pc.MarkSoldOut? { assert Dropping(b, b.pc.user); }
      if Entered(t, u) && !(ok && b.pc.MarkActive? && b.pc.user == u) {
        forall n | 0 <= n < |s.batches| ensures !Entering(s.batches[n], u) { assert !Entering(t.batches[n], u); }
      }
    }
  }

  lemma EnteringEnds(s: State, b: Batch, ok: bool, u: UserId)
    requires Working(b)
    ensures var e := BatchDoes(s, b, ok);
            Entering(b, u) && !Entering(e.batch, u) ==>
              e.log.broken > s.log.broken || (ok && b.pc.MarkActive? && b.pc.user == u)
  {}

  lemma PaymentMarkers(c: Config, s: State, p: nat, payer: UserId)
    requires WellFormed(s) && QueueSane(s) && OperationRuns.OneRowPerUser(s.store) && Delivered(s) && MarkersTidy(s)
    ensures MarkersTidy(Apply(c, s, Settle(p, payer)))
  {
    var t := Apply(c, s, Settle(p, payer));
    forall r | 0 <= r < |t.notes| && Unmarked(t, r) ensures MarkerTidy(t, r) {
      var k :| 0 <= k < |s.runs| && s.runs[k].row == r && s.runs[k].pc.MarkEntry?;
      assert RunDelivered(s, s.runs[k]) && Unmarked(s, r) && MarkerTidy(s, r);
      assert Entered(t, s.store.rows[r].user) == Entered(s, s.store.rows[r].user);
    }
  }

  lemma QuietMarkers(c: Config, s: State, a: Action)
    requires WellFormed(s) && Enabled(s, a) && (a.Tick? || a.Enter? || a.OpenBatch? || a.Deliver?)
    requires QueueSane(s) && MarkersTidy(s)
    ensures MarkersTidy(Apply(c, s, a))
  {
    var t := Apply(c, s, a);
    forall r | 0 <= r < |t.notes| && Unmarked(t, r) ensures MarkerTidy(t, r) {
      var k :| 0 <= k < |t.runs| && t.runs[k].row == r && t.runs[k].pc.MarkEntry?;
      assert k < |s.runs| && s.runs[k] == t.runs[k];
      assert MarkerTidy(s, r);
      assert forall n :: 0 <= n < |s.batches| ==> t.batches[n] == s.batches[n];
    }
  }

  lemma StepKeepsMarkers(c: Config, s: State, a: Action)
    requires WellFormed(s) && Enabled(s, a) && Sane(s) && ServedOnce(s) && Attended(s) && EntriesTidy(s)
    requires Delivered(s) && AllPaidApart(s) && (forall r :: 0 <= r < |s.store.rows| ==> Punctual(s, r))
    requires AllHeldOnce(s) && MarkersTidy(s) && Apply(c, s, a).log.broken == 0
    ensures MarkersTidy(Apply(c, s, a))
  {
    match a
    case BatchStep(i, ok) => BatchStepMarkers(c, s, i, ok);
    case RunStep(j, ok) => RunStepMarkers(c, s, j, ok);
    case Settle(p, payer) => PaymentMarkers(c, s, p, payer);
    case _ => QuietMarkers(c, s, a);
  }

  // ---------- All tidy schedules ----------

  ghost predicate TidySoFar(s: State) { Attended(s) && EntriesTidy(s) && AllHeldOnce(s) && MarkersTidy(s) }

  lemma StepKeepsTidy(c: Config, s: State, a: Action)
    requires Reachable(c, s) && WellFormed(s) && Enabled(s, a) && ServedOnce(s) && TidySoFar(s)
    requires !SharedHead(s, a) && !LateActivation(s, a)
    requires Unforced(Apply(c, s, a)) && Apply(c, s, a).log.broken == 0
    ensures TidySoFar(Apply(c, s, a))
  {
    SaneReachable(c, s);
    OrderlyReachable(c, s);
    TimelyReachable(c, s);
    UnforcedBefore(c, s, a);
    StepKeepsAttended(c, s, a);
    StepKeepsEntries(c, s, a);
    StepKeepsHeld(c, s, a);
    StepKeepsMarkers(c, s, a);
  }

  lemma {:induction false} TidyIsExclusive(c: Config, acts: seq<Action>)
    requires Schedule(c, Initial(c), acts) && Tidy(c, acts)
    ensures Exclusive(c, acts)
    decreases |acts|
  {
    if acts == [] {
    } else {
      TidyIsExclusive(c, acts[..|acts| - 1]);
    }
  }

  lemma {:induction false} TidyAlways(c: Config, acts: seq<Action>)
    requires Schedule(c, Initial(c), acts) && Tidy(c, acts)
    requires Unforced(After(c, Initial(c), acts)) && After(c, Initial(c), acts).log.broken == 0
    ensures TidySoFar(After(c, Initial(c), acts)) && ServedOnce(After(c, Initial(c), acts))
    decreases |acts|
  {
    TidyIsExclusive(c, acts);
    SaneAlways(c, acts);
    if acts == [] {
    } else {
      var init, a := acts[..|acts| - 1], acts[|acts| - 1];
      var before := After(c, Initial(c), init);
      assert LeadsTo(c, Initial(c), init, before);
      OrderlyReachable(c, before);
      UnforcedBefore(c, before, a);
      BrokenGrows(c, before, a);
      TidyAlways(c, init);
      StepKeepsTidy(c, before, a);
    }
  }

  /** Some tidy schedule reaches `s`. */
  ghost predicate ReachedTidily(c: Config, s: State) {
    exists acts :: LeadsTo(c, Initial(c), acts, s) && Tidy(c, acts)
  }

  lemma TidyReachable(c: Config, s: State)
    requires ReachedTidily(c, s) && Unforced(s) && s.log.broken == 0
    ensures WellFormed(s) && Sane(s) && TidySoFar(s)
  {
    var acts :| LeadsTo(c, Initial(c), acts, s) && Tidy(c, acts);
    TidyAlways(c, acts);
    SaneReachable(c, s);
  }

  lemma LocksTakenOnce(c: Config, s: State)
    requires Reachable(c, s) && Brisk(s)
    ensures Delivered(s) && forall r :: 0 <= r < |s.notes| ==> s.notes[r].acquires <= 1
  {
    TimelyReachable(c, s);
    forall r | 0 <= r < |s.notes| ensures s.notes[r].acquires <= 1 { assert ClaimedOnce(s, r); }
  }

  // ---------- At rest ----------

  /** Every batch and every expiry run is over, or stopped for good at a rejected command. */
  ghost predicate AtRest(s: State) {
    && (forall i :: 0 <= i < |s.batches| ==> !Working(s.batches[i]))
    && (forall j :: 0 <= j < |s.runs| ==> s.runs[j].pc.RunOver? || !s.runs[j].alive)
  }

  /** Some expiry run stopped right before it marked its entry, or some batch right before it took its loser off
      the queue, where the loser still is. */
  ghost predicate LeftHalfway(s: State) {
    || (exists j :: 0 <= j < |s.runs| && s.runs[j].pc.MarkEntry?)
    || (exists i :: 0 <= i < |s.batches| && s.batches[i].pc.DropSoldOut?
                    && InQueue(s.store.queue, s.batches[i].pc.user))
  }

  lemma AgreesUnlessHalfway(s: State, u: UserId)
    requires Sane(s) && EntriesTidy(s) && AtRest(s) && !LeftHalfway(s) && u in s.store.entries
    ensures EntryAgrees(s.store, u)
  {}

  lemma AgreeUnlessHalfway(s: State)
    requires Sane(s) && EntriesTidy(s) && AtRest(s) && !LeftHalfway(s)
    ensures UsersAgree(s.store)
  {
    forall u | u in s.store.entries ensures EntryAgrees(s.store, u) { AgreesUnlessHalfway(s, u); }
    forall r | 0 <= r < |s.store.rows| ensures s.store.entries[s.store.rows[r].user].reservation == Some(r) {
      assert EntryTidy(s, s.store.rows[r].user) && Entered(s, s.store.rows[r].user);
    }
    forall u | InQueue(s.store.queue, u) ensures u in s.store.entries { InQueueMembers(s.store.queue, u); }
  }

  lemma HalfwayDisagrees(s: State)
    requires WellFormed(s) && Sane(s) && TidySoFar(s) && Delivered(s) && AtRest(s) && LeftHalfway(s)
    requires forall r :: 0 <= r < |s.notes| ==> s.notes[r].acquires <= 1
    ensures !UsersAgree(s.store)
  {
    if i :| 0 <= i < |s.batches| && s.batches[i].pc.DropSoldOut? && InQueue(s.store.queue, s.batches[i].pc.user) {
      assert !EntryAgrees(s.store, s.batches[i].pc.user);
    } else {
      var j :| 0 <= j < |s.runs| && s.runs[j].pc.MarkEntry?;
      var r := s.runs[j].row;
      var u := s.store.rows[r].user;
      assert RunDelivered(s, s.runs[j]) && Unmarked(s, r) && MarkerTidy(s, r) && EntryTidy(s, u) && Entered(s, u);
      assert !EntryAgrees(s.store, u);
    }
  }

  /** Users, reservations and queue at rest: after any tidy interleaving they agree as they do between whole
      operations, if and only if nothing was left halfway. */
  lemma UsersAgreeAtRest(c: Config, s: State)
    requires ReachedTidily(c, s) && AtRest(s) && Unforced(s) && s.log.broken == 0
    ensures Ordered(s.store.queue)
    ensures !LeftHalfway(s) ==> UsersAgree(s.store)
    ensures Brisk(s) ==> (UsersAgree(s.store) <==> !LeftHalfway(s))
  {
    TidyReachable(c, s);
    if !LeftHalfway(s) {
      AgreeUnlessHalfway(s);
    } else if Brisk(s) {
      LocksTakenOnce(c, s);
      HalfwayDisagrees(s);
    }
  }

  // ---------- Seats at rest ----------

  /** Pending though an expiry run has returned the seat. */
  function Premature(b: Booking): int { if b.row.status.PendingPayment? && b.note.releases > 0 then 1 else 0 }

  lemma {:induction false} KeptClaimed(rows: seq<Reservation>, bookings: seq<Booking>)
    requires |rows| == |bookings| && forall k :: 0 <= k < |rows| ==> bookings[k].row == rows[k]
    ensures Sum(rows, KeepsSeat) == Sum(bookings, Claims) + Sum(bookings, Premature)
  {
    if rows == [] {
    } else {
      KeptClaimed(rows[..|rows| - 1], bookings[..|rows| - 1]);
    }
  }

  lemma PrematureMeansMarking(c: Config, s: State, r: nat)
    requires Reachable(c, s) && Brisk(s) && r < |s.notes| == |s.store.rows|
    ensures Premature(Bookings(s)[r]) == 1 ==>
              exists j :: 0 <= j < |s.runs| && s.runs[j].row == r && s.runs[j].pc.MarkRow?
  {
    TimelyReachable(c, s);
    assert ClaimedOnce(s, r) && LockHistory(s, r);
    SumNonNegative(s.runs, Owing(r));
    if Premature(Bookings(s)[r]) == 1 {
      var j :| 0 <= j < |s.runs| && Committed(s.runs[j], r);
      SumAtLeast(s.runs, j, Owing(r));
    }
  }

  lemma MarkingMeansPremature(s: State, j: nat)
    requires j < |s.runs| && s.runs[j].pc.MarkRow? && s.runs[j].row < |s.notes| == |s.store.rows|
    requires HeldOnce(s, s.runs[j].row) && s.notes[s.runs[j].row].acquires <= 1
    requires RunDelivered(s, s.runs[j]) && PaidApart(s, s.runs[j].row) && Punctual(s, s.runs[j].row)
    ensures Premature(Bookings(s)[s.runs[j].row]) == 1
  {}

  /** A row is pending with its seat back exactly while a run stands between its INCR and its status write. */
  lemma PrematureIff(c: Config, s: State, r: nat)
    requires ReachedTidily(c, s) && Brisk(s) && Unforced(s) && s.log.broken == 0 && r < |s.notes| == |s.store.rows|
    ensures Premature(Bookings(s)[r]) == 1
       <==> exists j :: 0 <= j < |s.runs| && s.runs[j].row == r && s.runs[j].pc.MarkRow?
  {
    PrematureMeansMarking(c, s, r);
    if j :| 0 <= j < |s.runs| && s.runs[j].row == r && s.runs[j].pc.MarkRow? {
      TidyReachable(c, s);
      LocksTakenOnce(c, s);
      OrderlyReachable(c, s);
      MarkingMeansPremature(s, j);
    }
  }

  /** Seats and reservations, exactly, in every reachable state with runs on time, jobs due after expiry and no
      promotion broken off: the counter and the pending and PAID rows make up the house, but for the seats that
      promotions hold or losers have yet to put back and for rows still pending though their seat is back. */
  lemma SeatBalance(c: Config, s: State)
    requires Reachable(c, s) && Brisk(s) && Unforced(s)
    ensures |s.notes| == |s.store.rows|
    ensures s.store.seats + Sum(s.store.rows, KeepsSeat) + Sum(s.batches, Hold) + Sum(s.batches, Losing)
            == c.event.totalSeats + Sum(Bookings(s), Premature)
  {
    SoundReachable(c, s);
    forall r | 0 <= r < |s.notes| ensures Surplus(Bookings(s)[r]) == 0 { NoSurplus(c, s, r); }
    SumZero(Bookings(s), Surplus);
    ClaimsOwed(Bookings(s), s.notes);
    KeptClaimed(s.store.rows, Bookings(s));
  }

  /** Nothing was stopped with a seat in hand, between the INCR and the status write of an expiry, or halfway. */
  ghost predicate NothingLost(s: State) {
    && (forall i :: 0 <= i < |s.batches| ==> Hold(s.batches[i]) == 0 && Losing(s.batches[i]) == 0)
    && (forall j :: 0 <= j < |s.runs| ==> !s.runs[j].pc.MarkRow?)
    && !LeftHalfway(s)
  }

  /** After any tidy interleaving the stores at rest agree as they do between whole operations: users, entries, rows
      and queue with each other, and the counter with the pending and PAID rows. */
  lemma AgreementAtRest(c: Config, s: State)
    requires ReachedTidily(c, s) && AtRest(s) && Brisk(s) && Unforced(s) && s.log.broken == 0 && NothingLost(s)
    ensures Ordered(s.store.queue) && UsersAgree(s.store) && SeatsAgree(c.event.totalSeats, s.store)
  {
    UsersAgreeAtRest(c, s);
    SeatBalance(c, s);
    SeatsReachable(c, s);
    SumZero(s.batches, Hold);
    SumZero(s.batches, Losing);
    forall r | 0 <= r < |Bookings(s)| ensures Premature(Bookings(s)[r]) == 0 { PrematureIff(c, s, r); }
    SumZero(Bookings(s), Premature);
  }
}
